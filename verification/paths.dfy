/** The two `std::path` operations the program's logic depends on, for Unix
    paths held as strings. Whether a path exists or is a file, its parent and
    its canonical form are questions for the file system and are supplied
    as oracles by the modules that need them. */
module Paths {

  /** `Path::is_absolute` on Unix: the path starts at the root. */
  predicate IsAbsolute(p: string)
  {
    |p| > 0 && p[0] == '/'
  }

  /** `Path::join` on Unix: an absolute `p` replaces `base`; otherwise `p` is
      appended, with one `/` added unless `base` is empty or already ends in one. */
  function Join(base: string, p: string): (r: string)
    ensures IsAbsolute(p) ==> r == p
    ensures IsAbsolute(base) ==> IsAbsolute(r)
  {
    if IsAbsolute(p) then p
    else if base == [] then p
    else if base[|base| - 1] == '/' then base + p
    else base + "/" + p
  }

  /** A relative path joined to a directory lies inside that directory:
      the result is the directory, one separator, then the path. */
  lemma JoinRelative(dir: string, p: string)
    requires !IsAbsolute(p) && dir != [] && dir[|dir| - 1] != '/'
    ensures Join(dir, p) == dir + "/" + p
    ensures Join(dir, p)[|dir|] == '/'
  {
  }

  /** `<dir>/.config/berth/config.toml`, the place the program looks for its
      configuration under `$XDG_CONFIG_HOME` and `$HOME`. */
  function StandardConfigPath(dir: string): string
  {
    Join(Join(Join(dir, ".config"), "berth"), "config.toml")
  }

  /** For a directory written without a trailing separator, the standard
      location is that directory followed by `/.config/berth/config.toml`. */
  lemma StandardConfigPathShape(dir: string)
    requires dir != [] && dir[|dir| - 1] != '/'
    ensures StandardConfigPath(dir) == dir + "/.config/berth/config.toml"
  {
    var a := dir + "/.config";
    assert Join(dir, ".config") == a;
    var b := a + "/berth";
    assert Join(a, "berth") == b;
    assert Join(b, "config.toml") == b + "/config.toml";
    assert b + "/config.toml" == dir + "/.config/berth/config.toml";
  }
}
