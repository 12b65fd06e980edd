/** The preset stages of resolution in src/configuration.rs: every referenced
    preset must exist (`check_presets_exist`), each single-valued field may have
    at most one non-empty source (`valid_unique_fields`), and presets are then
    folded into their environments (`merge_presets`). */
module Presets {
  import opened Util
  import opened Format
  import opened StringOrder
  import opened ConfigTypes

  // ------------------------------------------------------ check_presets_exist

  const UnknownPresetMessage := "Failed to find provided preset"

  /** The first name in `refs` that is not a preset, if there is one. */
  function FirstUnknown(refs: seq<string>, presets: map<string, TomlPreset>): (r: Option<string>)
    ensures r.None? <==> forall i | 0 <= i < |refs| :: refs[i] in presets
    ensures r.Some? ==> r.value in refs && r.value !in presets
    ensures r.Some? ==> exists i | 0 <= i < |refs| :: refs[i] == r.value && forall j | 0 <= j < i :: refs[j] in presets
  {
    if refs == [] then None
    else if refs[0] !in presets then Some(refs[0])
    else FirstUnknown(refs[1..], presets)
  }

  /** Every preset environment `n` names is defined. */
  predicate ReferencesKnown(cfg: TomlConfiguration, n: string)
    requires n in cfg.environments
  {
    forall p | p in cfg.environments[n].presets :: p in cfg.presets
  }

  /** `e` is the diagnostic for a reference from environment `n` to a preset
      the file does not define, pointing at that element of its `presets`. */
  ghost predicate IsUnknownPresetError(cfg: TomlConfiguration, doc: Document, n: string, e: ConfigError)
  {
    && n in cfg.environments
    && e.UnknownPreset?
    && e.msg == UnknownPresetMessage
    && exists p | p in cfg.environments[n].presets ::
         p !in cfg.presets && doc.presetReference(n, p) == Some(e.span)
  }

  /** `check_presets_exist`, visiting the environments in `order`. */
  function CheckPresetsExist(cfg: TomlConfiguration, doc: Document, order: seq<string>): (r: Result<TomlConfiguration, ConfigError>)
    requires Within(order, cfg.environments)
    ensures r.Ok? <==> forall i | 0 <= i < |order| :: ReferencesKnown(cfg, order[i])
    ensures r.Ok? ==> r.value == cfg
    ensures r.Err? ==> r.error == Unexpected(UnexpectedNone) || r.error.UnknownPreset?
    ensures r.Err? && Locates(doc, cfg) ==>
              exists i | 0 <= i < |order| :: IsUnknownPresetError(cfg, doc, order[i], r.error)
  {
    if order == [] then Ok(cfg)
    else
      var n := order[0];
      match FirstUnknown(cfg.environments[n].presets, cfg.presets)
      case Some(p) =>
        var span :- Located(doc.presetReference(n, p));
        assert IsUnknownPresetError(cfg, doc, n, UnknownPreset(UnknownPresetMessage, span));
        Err(UnknownPreset(UnknownPresetMessage, span))
      case None =>
        var rest := CheckPresetsExist(cfg, doc, order[1..]);
        assert rest.Err? && Locates(doc, cfg) ==>
                 exists i | 0 <= i < |order| :: IsUnknownPresetError(cfg, doc, order[i], rest.error) by {
          if rest.Err? && Locates(doc, cfg) {
            var i :| 0 <= i < |order[1..]| && IsUnknownPresetError(cfg, doc, order[1..][i], rest.error);
            assert order[i + 1] == order[1..][i];
          }
        }
        rest
  }

  /** Over a full enumeration of the environments the check passes exactly
      when every environment references only defined presets, whatever the
      order; when it fails on a located document, the error names one such
      unknown reference. */
  lemma CheckPresetsExistSound(cfg: TomlConfiguration, doc: Document, order: seq<string>)
    requires Enumerates(order, cfg.environments)
    ensures CheckPresetsExist(cfg, doc, order).Ok? <==>
              forall n | n in cfg.environments :: ReferencesKnown(cfg, n)
    ensures Locates(doc, cfg) && CheckPresetsExist(cfg, doc, order).Err? ==>
              exists n | n in cfg.environments :: IsUnknownPresetError(cfg, doc, n, CheckPresetsExist(cfg, doc, order).error)
  {
    var r := CheckPresetsExist(cfg, doc, order);
    if r.Ok? {
      forall n | n in cfg.environments ensures ReferencesKnown(cfg, n) {
        var i :| 0 <= i < |order| && order[i] == n;
      }
    }
    if Locates(doc, cfg) && r.Err? {
      var i :| 0 <= i < |order| && IsUnknownPresetError(cfg, doc, order[i], r.error);
    }
  }

  // ------------------------------------------------------ valid_unique_fields

  /** The label of the `k`-th source of a duplicated field. */
  function Instance(k: nat): string
  {
    "instance " + Decimal(k)
  }

  /** The label of the final span of a duplicate-field diagnostic. */
  function DuplicateLabel(f: Scalar): string
  {
    "Preset(s) causing duplicate '" + ScalarKey(f) + "' field"
  }

  /** Labels read "instance 1", "instance 2", … in order. */
  predicate Numbered(spans: seq<LabeledSpan>)
  {
    forall i | 0 <= i < |spans| :: spans[i].text == Instance(i + 1)
  }

  /** Different sources never share a label. */
  lemma NumberedLabelsDistinct(spans: seq<LabeledSpan>, i: nat, j: nat)
    requires Numbered(spans) && i < j < |spans|
    ensures spans[i].text != spans[j].text
  {
    if spans[i].text == spans[j].text {
      assert Decimal(i + 1) == spans[i].text[9..];
      assert Decimal(j + 1) == spans[j].text[9..];
      DecimalInjective(i + 1, j + 1);
    }
  }

  /** The presets of the whole file, referenced or not, that set `f`. */
  function SettingPresets(cfg: TomlConfiguration, f: Scalar): set<string>
  {
    Setting(cfg, f, cfg.presets.Keys)
  }

  /** The number of sources for field `f` of environment `n`: its own value
      if non-empty, and every preset of the file that sets `f`. */
  function SourceCount(cfg: TomlConfiguration, n: string, f: Scalar): nat
    requires n in cfg.environments
  {
    (if EnvScalar(cfg.environments[n], f) != "" then 1 else 0) + |SettingPresets(cfg, f)|
  }

  /** How many of `names` set `f`. */
  function CountSetting(cfg: TomlConfiguration, f: Scalar, names: seq<string>): nat
    requires Within(names, cfg.presets)
  {
    if names == [] then 0
    else (if PresetScalar(cfg.presets[names[0]], f) != "" then 1 else 0) + CountSetting(cfg, f, names[1..])
  }

  /** Dropping the head of a list of distinct names drops it from their set. */
  lemma DistinctTail(names: seq<string>, s: set<string>)
    requires names != []
    requires forall i, j | 0 <= i < j < |names| :: names[i] != names[j]
    requires forall x :: x in names <==> x in s
    ensures forall i, j | 0 <= i < j < |names[1..]| :: names[1..][i] != names[1..][j]
    ensures forall y :: y in names[1..] <==> y in s - {names[0]}
  {
    forall y ensures y in names[1..] <==> y in s - {names[0]} {
      if y in names[1..] {
        var k :| 0 <= k < |names[1..]| && names[1..][k] == y;
        assert names[k + 1] == y;
      }
      if y in s - {names[0]} {
        var k :| 0 <= k < |names| && names[k] == y;
        assert names[1..][k - 1] == y;
      }
    }
  }

  /** Counting along a list of distinct preset names counts the set they form. */
  lemma {:induction false} CountSettingIsCardinality(cfg: TomlConfiguration, f: Scalar, names: seq<string>, s: set<string>)
    requires Within(names, cfg.presets)
    requires forall i, j | 0 <= i < j < |names| :: names[i] != names[j]
    requires forall x :: x in names <==> x in s
    ensures CountSetting(cfg, f, names) == |Setting(cfg, f, s)|
  {
    if names == [] {
      assert Setting(cfg, f, s) == {};
    } else {
      var x := names[0];
      var rest := s - {x};
      DistinctTail(names, s);
      CountSettingIsCardinality(cfg, f, names[1..], rest);
      SettingRemove(cfg, f, s, x);
    }
  }

  /** Taking one preset name out of `s` takes it out of those that set `f`. */
  lemma SettingRemove(cfg: TomlConfiguration, f: Scalar, s: set<string>, x: string)
    requires x in s && x in cfg.presets
    ensures |Setting(cfg, f, s)| == |Setting(cfg, f, s - {x})| + (if PresetScalar(cfg.presets[x], f) != "" then 1 else 0)
  {
    if PresetScalar(cfg.presets[x], f) != "" {
      assert Setting(cfg, f, s) == Setting(cfg, f, s - {x}) + {x};
    } else {
      assert Setting(cfg, f, s) == Setting(cfg, f, s - {x});
    }
  }

  /** The names of `s` whose preset sets `f`. */
  function Setting(cfg: TomlConfiguration, f: Scalar, s: set<string>): set<string>
  {
    set q | q in s && q in cfg.presets && PresetScalar(cfg.presets[q], f) != ""
  }

  /** The presets among `names` that set `f`, in the order of `names`. */
  function Setters(cfg: TomlConfiguration, f: Scalar, names: seq<string>): (r: seq<string>)
    requires Within(names, cfg.presets)
    ensures |r| == CountSetting(cfg, f, names)
    ensures forall x :: x in r <==> x in names && x in cfg.presets && PresetScalar(cfg.presets[x], f) != ""
  {
    if names == [] then []
    else if PresetScalar(cfg.presets[names[0]], f) != "" then [names[0]] + Setters(cfg, f, names[1..])
    else Setters(cfg, f, names[1..])
  }

  /** Filtering keeps a strictly sorted list strictly sorted. */
  lemma {:induction false} SettersSorted(cfg: TomlConfiguration, f: Scalar, names: seq<string>)
    requires Within(names, cfg.presets)
    requires StrictlySorted(names)
    ensures StrictlySorted(Setters(cfg, f, names))
  {
    if names != [] {
      assert StrictlySorted(names[1..]);
      SettersSorted(cfg, f, names[1..]);
      var rest := Setters(cfg, f, names[1..]);
      if PresetScalar(cfg.presets[names[0]], f) != "" {
        forall y | y in rest ensures Below(names[0], y) && names[0] != y {
          var k :| 0 <= k < |names[1..]| && names[1..][k] == y;
          assert names[k + 1] == y;
        }
        var r := [names[0]] + rest;
        forall i, j | 0 <= i < j < |r| ensures Below(r[i], r[j]) && r[i] != r[j] {
          if i > 0 {
            assert r[i] == rest[i - 1] && r[j] == rest[j - 1];
          } else {
            assert r[j] in rest;
          }
        }
      }
    }
  }

  /** The presets of the file that set `f`, in sorted-name order: the order
      in which `check_unique` numbers them. */
  function SortedSetters(cfg: TomlConfiguration, f: Scalar): (r: seq<string>)
    ensures StrictlySorted(r)
    ensures forall x :: x in r <==> x in SettingPresets(cfg, f)
  {
    SortedNamesSorted(cfg.presets.Keys);
    SettersSorted(cfg, f, SortedNames(cfg.presets.Keys));
    Setters(cfg, f, SortedNames(cfg.presets.Keys))
  }

  /** Label `from + k` of `spans` points at the entry for `f` of the `k`-th
      of `names` in table `section`. */
  predicate SpansAt(doc: Document, section: Section, f: Scalar, names: seq<string>, spans: seq<LabeledSpan>, from: nat)
  {
    && from + |names| <= |spans|
    && forall k | 0 <= k < |names| :: EntrySpan(doc, section, names[k], ScalarKey(f)) == Ok(spans[from + k].span)
  }

  lemma SpansAtCons(doc: Document, section: Section, f: Scalar, x: string, names: seq<string>, spans: seq<LabeledSpan>, from: nat)
    requires from < |spans| && EntrySpan(doc, section, x, ScalarKey(f)) == Ok(spans[from].span)
    requires SpansAt(doc, section, f, names, spans, from + 1)
    ensures SpansAt(doc, section, f, [x] + names, spans, from)
  {
    forall k | 0 <= k < |names| + 1
      ensures EntrySpan(doc, section, ([x] + names)[k], ScalarKey(f)) == Ok(spans[from + k].span)
    {
      if k > 0 {
        assert ([x] + names)[k] == names[k - 1];
      }
    }
  }

  /** Appends a labelled span for each of the presets `names` (in order) that
      sets `f`, numbering on from the spans already collected. */
  function CollectPresetSources(cfg: TomlConfiguration, doc: Document, f: Scalar, names: seq<string>, acc: seq<LabeledSpan>): (r: Result<seq<LabeledSpan>, ConfigError>)
    requires Within(names, cfg.presets)
    ensures r.Ok? ==> |r.value| == |acc| + CountSetting(cfg, f, names)
    ensures r.Err? ==> r.error == Unexpected(UnexpectedNone)
    ensures Locates(doc, cfg) ==> r.Ok?
  {
    if names == [] then Ok(acc)
    else if PresetScalar(cfg.presets[names[0]], f) != "" then
      var span :- EntrySpan(doc, PresetSection, names[0], ScalarKey(f));
      CollectPresetSources(cfg, doc, f, names[1..], acc + [LabeledSpan(Instance(|acc| + 1), span)])
    else CollectPresetSources(cfg, doc, f, names[1..], acc)
  }

  /** `CollectPresetSources` only appends to what was collected, and keeps the
      labels counting up from one. */
  lemma {:induction false} CollectedExtends(cfg: TomlConfiguration, doc: Document, f: Scalar, names: seq<string>, acc: seq<LabeledSpan>)
    requires Within(names, cfg.presets)
    ensures var r := CollectPresetSources(cfg, doc, f, names, acc);
            r.Ok? ==> r.value[..|acc|] == acc && (Numbered(acc) ==> Numbered(r.value))
    decreases |names|
  {
    if names != [] {
      if PresetScalar(cfg.presets[names[0]], f) == "" {
        CollectedExtends(cfg, doc, f, names[1..], acc);
      } else if EntrySpan(doc, PresetSection, names[0], ScalarKey(f)).Ok? {
        var span := EntrySpan(doc, PresetSection, names[0], ScalarKey(f)).value;
        var acc' := acc + [LabeledSpan(Instance(|acc| + 1), span)];
        CollectedExtends(cfg, doc, f, names[1..], acc');
        var r := CollectPresetSources(cfg, doc, f, names[1..], acc');
        if r.Ok? {
          PrefixOfPrefix(r.value, acc', acc);
        }
        if Numbered(acc) {
          NumberedSnoc(acc, span);
        }
      }
    }
  }

  lemma PrefixOfPrefix<T>(s: seq<T>, longer: seq<T>, shorter: seq<T>)
    requires |longer| <= |s| && s[..|longer|] == longer
    requires |shorter| <= |longer| && longer[..|shorter|] == shorter
    ensures s[..|shorter|] == shorter
  {
    assert s[..|shorter|] == s[..|longer|][..|shorter|];
  }

  /** The next span collected carries the next label. */
  lemma NumberedSnoc(acc: seq<LabeledSpan>, span: Range)
    requires Numbered(acc)
    ensures Numbered(acc + [LabeledSpan(Instance(|acc| + 1), span)])
  {
    var acc' := acc + [LabeledSpan(Instance(|acc| + 1), span)];
    forall i | 0 <= i < |acc'| ensures acc'[i].text == Instance(i + 1) {
      if i < |acc| {
        assert acc'[i] == acc[i];
      }
    }
  }

  /** The spans appended by `CollectPresetSources` are, in order, the entries
      for `f` of the presets among `names` that set it. */
  lemma {:induction false} CollectedSpans(cfg: TomlConfiguration, doc: Document, f: Scalar, names: seq<string>, acc: seq<LabeledSpan>)
    requires Within(names, cfg.presets)
    ensures var r := CollectPresetSources(cfg, doc, f, names, acc);
            r.Ok? ==> SpansAt(doc, PresetSection, f, Setters(cfg, f, names), r.value, |acc|)
    decreases |names|
  {
    if names != [] {
      if PresetScalar(cfg.presets[names[0]], f) == "" {
        CollectedSpans(cfg, doc, f, names[1..], acc);
      } else if EntrySpan(doc, PresetSection, names[0], ScalarKey(f)).Ok? {
        var span := EntrySpan(doc, PresetSection, names[0], ScalarKey(f)).value;
        var acc' := acc + [LabeledSpan(Instance(|acc| + 1), span)];
        CollectedSpans(cfg, doc, f, names[1..], acc');
        CollectedExtends(cfg, doc, f, names[1..], acc');
        CollectedSpansStep(cfg, doc, f, names, acc, span);
      }
    }
  }

  /** The inductive step of `CollectedSpans` for a preset that sets `f`. */
  lemma CollectedSpansStep(cfg: TomlConfiguration, doc: Document, f: Scalar, names: seq<string>, acc: seq<LabeledSpan>, span: Range)
    requires Within(names, cfg.presets) && names != [] && PresetScalar(cfg.presets[names[0]], f) != ""
    requires EntrySpan(doc, PresetSection, names[0], ScalarKey(f)) == Ok(span)
    requires var acc' := acc + [LabeledSpan(Instance(|acc| + 1), span)];
             var r := CollectPresetSources(cfg, doc, f, names[1..], acc');
             r.Ok? ==> r.value[..|acc'|] == acc' && SpansAt(doc, PresetSection, f, Setters(cfg, f, names[1..]), r.value, |acc'|)
    ensures var r := CollectPresetSources(cfg, doc, f, names, acc);
            r.Ok? ==> SpansAt(doc, PresetSection, f, Setters(cfg, f, names), r.value, |acc|)
  {
    var r := CollectPresetSources(cfg, doc, f, names, acc);
    if r.Ok? {
      var acc' := acc + [LabeledSpan(Instance(|acc| + 1), span)];
      assert r.value[|acc|] == r.value[..|acc'|][|acc|];
      SpansAtCons(doc, PresetSection, f, names[0], Setters(cfg, f, names[1..]), r.value, |acc|);
    }
  }

  /** The environment's own source for `f`, if its value is non-empty. */
  function OwnSource(cfg: TomlConfiguration, doc: Document, n: string, f: Scalar): (r: Result<seq<LabeledSpan>, ConfigError>)
    requires n in cfg.environments
    ensures r.Ok? ==> |r.value| == (if EnvScalar(cfg.environments[n], f) != "" then 1 else 0)
    ensures r.Ok? ==> Numbered(r.value)
    ensures r.Ok? ==> SpansAt(doc, EnvironmentSection, f, if EnvScalar(cfg.environments[n], f) != "" then [n] else [], r.value, 0)
    ensures r.Err? ==> r.error == Unexpected(UnexpectedNone)
    ensures Locates(doc, cfg) ==> r.Ok?
  {
    if EnvScalar(cfg.environments[n], f) != "" then
      var span :- EntrySpan(doc, EnvironmentSection, n, ScalarKey(f));
      Ok([LabeledSpan(Instance(1), span)])
    else Ok([])
  }

  /** The labelled sources `check_unique` collects for field `f` of `n`: its
      own value, then the presets of the file in sorted-name order. */
  function Sources(cfg: TomlConfiguration, doc: Document, n: string, f: Scalar): (r: Result<seq<LabeledSpan>, ConfigError>)
    requires n in cfg.environments
    ensures r.Ok? ==> |r.value| == SourceCount(cfg, n, f)
    ensures r.Ok? ==> Numbered(r.value)
    ensures r.Ok? ==>
              var own := if EnvScalar(cfg.environments[n], f) != "" then [n] else [];
              && SpansAt(doc, EnvironmentSection, f, own, r.value, 0)
              && SpansAt(doc, PresetSection, f, SortedSetters(cfg, f), r.value, |own|)
    ensures r.Err? ==> r.error == Unexpected(UnexpectedNone)
    ensures Locates(doc, cfg) ==> r.Ok?
  {
    var own :- OwnSource(cfg, doc, n, f);
    PresetSources(cfg, doc, f, own);
    var r := CollectPresetSources(cfg, doc, f, SortedNames(cfg.presets.Keys), own);
    if r.Ok? then
      SpansAtPrefix(doc, EnvironmentSection, f, if EnvScalar(cfg.environments[n], f) != "" then [n] else [], own, r.value);
      r
    else r
  }

  /** Spans stay where they are when more are appended. */
  lemma SpansAtPrefix(doc: Document, section: Section, f: Scalar, names: seq<string>, spans: seq<LabeledSpan>, longer: seq<LabeledSpan>)
    requires SpansAt(doc, section, f, names, spans, 0)
    requires |spans| <= |longer| && longer[..|spans|] == spans
    ensures SpansAt(doc, section, f, names, longer, 0)
  {
    forall k | 0 <= k < |names| ensures longer[k] == spans[k] {
      assert longer[..|spans|][k] == longer[k];
    }
  }

  /** Collecting over every preset of the file, in sorted-name order, after
      the spans `own`: one span per preset that sets `f`, each at its entry. */
  lemma PresetSources(cfg: TomlConfiguration, doc: Document, f: Scalar, own: seq<LabeledSpan>)
    ensures var r := CollectPresetSources(cfg, doc, f, SortedNames(cfg.presets.Keys), own);
            r.Ok? ==>
              && |r.value| == |own| + |SettingPresets(cfg, f)|
              && r.value[..|own|] == own
              && (Numbered(own) ==> Numbered(r.value))
              && SpansAt(doc, PresetSection, f, SortedSetters(cfg, f), r.value, |own|)
  {
    PresetSourcesCount(cfg, doc, f, own);
    CollectedExtends(cfg, doc, f, SortedNames(cfg.presets.Keys), own);
    CollectedSpans(cfg, doc, f, SortedNames(cfg.presets.Keys), own);
  }

  lemma PresetSourcesCount(cfg: TomlConfiguration, doc: Document, f: Scalar, own: seq<LabeledSpan>)
    ensures var r := CollectPresetSources(cfg, doc, f, SortedNames(cfg.presets.Keys), own);
            r.Ok? ==> |r.value| == |own| + |SettingPresets(cfg, f)|
  {
    SortedNamesSorted(cfg.presets.Keys);
    CountSettingIsCardinality(cfg, f, SortedNames(cfg.presets.Keys), cfg.presets.Keys);
  }

  /** `check_unique` for one field of one environment: more than one source is
      a `DuplicateFieldsFromPresets` error listing every source and, last, the
      environment's `presets` list. */
  function CheckUnique(cfg: TomlConfiguration, doc: Document, n: string, f: Scalar): (r: Result<(), ConfigError>)
    requires n in cfg.environments
    ensures r.Ok? ==> SourceCount(cfg, n, f) <= 1
    ensures Locates(doc, cfg) && SourceCount(cfg, n, f) <= 1 ==> r.Ok?
    ensures Locates(doc, cfg) && SourceCount(cfg, n, f) > 1 && cfg.environments[n].presets != [] ==>
              r.Err? && r.error.DuplicateFieldsFromPresets?
    ensures r.Err? ==> r.error == Unexpected(UnexpectedNone) || r.error.DuplicateFieldsFromPresets?
    ensures r.Err? && r.error.DuplicateFieldsFromPresets? ==>
              var spans := r.error.spans;
              && |spans| == SourceCount(cfg, n, f) + 1
              && SourceCount(cfg, n, f) >= 2
              && Numbered(spans[..|spans| - 1])
              && Sources(cfg, doc, n, f) == Ok(spans[..|spans| - 1])
              && spans[|spans| - 1].text == DuplicateLabel(f)
              && Some(spans[|spans| - 1].span) == (
                   var presets := doc.entry(EnvironmentSection, n, "presets");
                   if presets.Some? then Some(presets.value.value) else None)
  {
    var spans :- Sources(cfg, doc, n, f);
    if |spans| > 1 then
      var presets :- Located(doc.entry(EnvironmentSection, n, "presets"));
      var all := spans + [LabeledSpan(DuplicateLabel(f), presets.value)];
      assert all[..|all| - 1] == spans;
      Err(DuplicateFieldsFromPresets(all))
    else Ok(())
  }

  /** No single-valued field of environment `n` has two sources. */
  predicate UniqueSources(cfg: TomlConfiguration, n: string)
    requires n in cfg.environments
  {
    forall f: Scalar :: SourceCount(cfg, n, f) <= 1
  }

  lemma UniqueSourcesByField(cfg: TomlConfiguration, n: string)
    requires n in cfg.environments
    ensures UniqueSources(cfg, n) <==>
              SourceCount(cfg, n, EntryCmd) <= 1 && SourceCount(cfg, n, Image) <= 1 && SourceCount(cfg, n, Dockerfile) <= 1
  {
    if SourceCount(cfg, n, EntryCmd) <= 1 && SourceCount(cfg, n, Image) <= 1 && SourceCount(cfg, n, Dockerfile) <= 1 {
      forall f: Scalar ensures SourceCount(cfg, n, f) <= 1 {
        match f
        case EntryCmd =>
        case Image =>
        case Dockerfile =>
      }
    }
  }

  /** `check_unique` for `entry_cmd`, `image` and `dockerfile`, in that order. */
  function CheckEnvironmentUnique(cfg: TomlConfiguration, doc: Document, n: string): (r: Result<(), ConfigError>)
    requires n in cfg.environments
    ensures r.Ok? ==> UniqueSources(cfg, n)
    ensures Locates(doc, cfg) && UniqueSources(cfg, n) ==> r.Ok?
    ensures r.Err? ==> r.error == Unexpected(UnexpectedNone) || r.error.DuplicateFieldsFromPresets?
  {
    var a := CheckUnique(cfg, doc, n, EntryCmd);
    if a.Err? then a
    else
      var b := CheckUnique(cfg, doc, n, Image);
      if b.Err? then b
      else
        var c := CheckUnique(cfg, doc, n, Dockerfile);
        UniqueSourcesByField(cfg, n);
        c
  }

  /** `valid_unique_fields`, visiting the environments in `order`. */
  function ValidUniqueFields(cfg: TomlConfiguration, doc: Document, order: seq<string>): (r: Result<TomlConfiguration, ConfigError>)
    requires Within(order, cfg.environments)
    ensures r.Ok? ==> r.value == cfg
    ensures r.Ok? ==> forall i | 0 <= i < |order| :: UniqueSources(cfg, order[i])
    ensures Locates(doc, cfg) ==> (r.Ok? <==> forall i | 0 <= i < |order| :: UniqueSources(cfg, order[i]))
    ensures r.Err? ==> r.error == Unexpected(UnexpectedNone) || r.error.DuplicateFieldsFromPresets?
  {
    if order == [] then Ok(cfg)
    else
      var _ :- CheckEnvironmentUnique(cfg, doc, order[0]);
      var rest := ValidUniqueFields(cfg, doc, order[1..]);
      assert forall i | 1 <= i < |order| :: order[i] == order[1..][i - 1];
      rest
  }

  /** A file that sets `image` in an environment and in a preset that
      environment never references is still rejected: every preset of the file
      counts as a source. */
  lemma UnreferencedPresetCounts(doc: Document)
    requires var cfg := TomlConfiguration(
               map["Env" := TomlEnvironment("true", "alpine", "", [], [], [], [], [], [])],
               map["Unused" := TomlPreset("", "debian", "", [], [], [], [], [])]);
             Locates(doc, cfg)
    ensures var cfg := TomlConfiguration(
              map["Env" := TomlEnvironment("true", "alpine", "", [], [], [], [], [], [])],
              map["Unused" := TomlPreset("", "debian", "", [], [], [], [], [])]);
            ValidUniqueFields(cfg, doc, ["Env"]).Err?
  {
    var cfg := TomlConfiguration(
      map["Env" := TomlEnvironment("true", "alpine", "", [], [], [], [], [], [])],
      map["Unused" := TomlPreset("", "debian", "", [], [], [], [], [])]);
    assert SettingPresets(cfg, Image) == {"Unused"};
    assert SourceCount(cfg, "Env", Image) == 2;
    assert !UniqueSources(cfg, "Env");
  }

  // ------------------------------------------------------------ merge_presets

  /** The five list-valued fields, which presets extend. */
  datatype ListField = EntryOptions | CpCmds | ExecCmds | ExecOptions | CreateOptions

  function EnvList(e: TomlEnvironment, l: ListField): seq<string>
  {
    match l
    case EntryOptions => e.entryOptions
    case CpCmds => e.cpCmds
    case ExecCmds => e.execCmds
    case ExecOptions => e.execOptions
    case CreateOptions => e.createOptions
  }

  function PresetList(p: TomlPreset, l: ListField): seq<string>
  {
    match l
    case EntryOptions => p.entryOptions
    case CpCmds => p.cpCmds
    case ExecCmds => p.execCmds
    case ExecOptions => p.execOptions
    case CreateOptions => p.createOptions
  }

  /** One step of the merge loop: a non-empty scalar of the preset replaces the
      environment's, and each list of the preset is appended. */
  function ApplyPreset(e: TomlEnvironment, p: TomlPreset): (r: TomlEnvironment)
    ensures forall f: Scalar :: EnvScalar(r, f) == (if PresetScalar(p, f) != "" then PresetScalar(p, f) else EnvScalar(e, f))
    ensures forall l: ListField :: EnvList(r, l) == EnvList(e, l) + PresetList(p, l)
    ensures r.presets == e.presets
  {
    e.(entryCmd := if p.entryCmd != "" then p.entryCmd else e.entryCmd,
       image := if p.image != "" then p.image else e.image,
       dockerfile := if p.dockerfile != "" then p.dockerfile else e.dockerfile,
       entryOptions := e.entryOptions + p.entryOptions,
       execCmds := e.execCmds + p.execCmds,
       execOptions := e.execOptions + p.execOptions,
       createOptions := e.createOptions + p.createOptions,
       cpCmds := e.cpCmds + p.cpCmds)
  }

  /** Applies the presets `names` left to right. */
  function MergeFrom(e: TomlEnvironment, names: seq<string>, presets: map<string, TomlPreset>): (r: TomlEnvironment)
    requires forall i | 0 <= i < |names| :: names[i] in presets
    ensures r.presets == e.presets
    decreases |names|
  {
    if names == [] then e else MergeFrom(ApplyPreset(e, presets[names[0]]), names[1..], presets)
  }

  /** An environment with its own presets folded in. */
  function MergeEnvironment(e: TomlEnvironment, presets: map<string, TomlPreset>): TomlEnvironment
    requires forall p | p in e.presets :: p in presets
  {
    assert forall i | 0 <= i < |e.presets| :: e.presets[i] in e.presets;
    MergeFrom(e, e.presets, presets)
  }

  /** `merge_presets`: every environment merged; a reference to a missing
      preset is an unexpected error (the earlier check rules it out). */
  function MergePresets(cfg: TomlConfiguration): (r: Result<map<string, TomlEnvironment>, ConfigError>)
    ensures r.Ok? <==> forall n | n in cfg.environments :: ReferencesKnown(cfg, n)
    ensures r.Err? ==> r.error == Unexpected(UnexpectedNone)
    ensures r.Ok? ==> r.value == Merged(cfg)
  {
    if forall n | n in cfg.environments :: ReferencesKnown(cfg, n) then Ok(Merged(cfg))
    else Err(Unexpected(UnexpectedNone))
  }

  /** The file's environments, each with its own presets folded in. */
  function Merged(cfg: TomlConfiguration): (r: map<string, TomlEnvironment>)
    requires forall n | n in cfg.environments :: ReferencesKnown(cfg, n)
    ensures r.Keys == cfg.environments.Keys
    ensures forall n | n in r :: ReferencesKnown(cfg, n) && r[n] == MergeEnvironment(cfg.environments[n], cfg.presets)
  {
    map n | n in cfg.environments && ReferencesKnown(cfg, n) :: MergeEnvironment(cfg.environments[n], cfg.presets)
  }

  // --------------------------------------------- independent merge reference

  /** The last non-empty string of `values`, or `base` if there is none. */
  function Override(base: string, values: seq<string>): string
  {
    if values == [] then base
    else if values[|values| - 1] != "" then values[|values| - 1]
    else Override(base, values[..|values| - 1])
  }

  /** `Override` picks exactly the last non-empty value. */
  lemma {:induction false} OverrideIsLastNonEmpty(base: string, values: seq<string>)
    ensures (forall i | 0 <= i < |values| :: values[i] == "") ==> Override(base, values) == base
    ensures forall i | 0 <= i < |values| && values[i] != "" && (forall j | i < j < |values| :: values[j] == "") ::
              Override(base, values) == values[i]
  {
    if values != [] {
      var front := values[..|values| - 1];
      OverrideIsLastNonEmpty(base, front);
      forall i | 0 <= i < |values| && values[i] != "" && (forall j | i < j < |values| :: values[j] == "")
        ensures Override(base, values) == values[i]
      {
        if i < |values| - 1 {
          assert front[i] == values[i];
          assert forall j | i < j < |front| :: front[j] == values[j];
        }
      }
    }
  }

  lemma {:induction false} OverrideAppend(base: string, xs: seq<string>, ys: seq<string>)
    ensures Override(base, xs + ys) == Override(Override(base, xs), ys)
    decreases |ys|
  {
    if ys == [] {
      assert xs + ys == xs;
    } else {
      assert (xs + ys)[..|xs + ys| - 1] == xs + ys[..|ys| - 1];
      OverrideAppend(base, xs, ys[..|ys| - 1]);
    }
  }

  function Flatten(ls: seq<seq<string>>): seq<string>
  {
    if ls == [] then [] else ls[0] + Flatten(ls[1..])
  }

  /** The values of field `f` in the presets `names`, in order. */
  function PresetValues(names: seq<string>, presets: map<string, TomlPreset>, f: Scalar): (r: seq<string>)
    requires forall i | 0 <= i < |names| :: names[i] in presets
    ensures |r| == |names|
    ensures forall i | 0 <= i < |names| :: r[i] == PresetScalar(presets[names[i]], f)
  {
    seq(|names|, i requires 0 <= i < |names| => PresetScalar(presets[names[i]], f))
  }

  /** The lists `l` of the presets `names`, in order. */
  function PresetLists(names: seq<string>, presets: map<string, TomlPreset>, l: ListField): (r: seq<seq<string>>)
    requires forall i | 0 <= i < |names| :: names[i] in presets
    ensures |r| == |names|
    ensures forall i | 0 <= i < |names| :: r[i] == PresetList(presets[names[i]], l)
  {
    seq(|names|, i requires 0 <= i < |names| => PresetList(presets[names[i]], l))
  }

  /** The merge, stated without the loop: each single-valued field is the last
      non-empty value among the environment and its presets in list order, and
      each list is the environment's own entries followed by every preset's
      entries, preset by preset. */
  lemma {:induction false} MergeFromScalars(e: TomlEnvironment, names: seq<string>, presets: map<string, TomlPreset>)
    requires forall i | 0 <= i < |names| :: names[i] in presets
    ensures forall f: Scalar :: EnvScalar(MergeFrom(e, names, presets), f) == Override(EnvScalar(e, f), PresetValues(names, presets, f))
    decreases |names|
  {
    if names != [] {
      var e' := ApplyPreset(e, presets[names[0]]);
      MergeFromScalars(e', names[1..], presets);
      forall f: Scalar
        ensures EnvScalar(MergeFrom(e, names, presets), f) == Override(EnvScalar(e, f), PresetValues(names, presets, f))
      {
        var vs := PresetValues(names, presets, f);
        assert vs == [vs[0]] + PresetValues(names[1..], presets, f);
        OverrideAppend(EnvScalar(e, f), [vs[0]], PresetValues(names[1..], presets, f));
        assert [vs[0]][..0] == [];
      }
    }
  }

  lemma {:induction false} MergeFromLists(e: TomlEnvironment, names: seq<string>, presets: map<string, TomlPreset>)
    requires forall i | 0 <= i < |names| :: names[i] in presets
    ensures forall l: ListField :: EnvList(MergeFrom(e, names, presets), l) == EnvList(e, l) + Flatten(PresetLists(names, presets, l))
    decreases |names|
  {
    if names != [] {
      var e' := ApplyPreset(e, presets[names[0]]);
      MergeFromLists(e', names[1..], presets);
      forall l: ListField
        ensures EnvList(MergeFrom(e, names, presets), l) == EnvList(e, l) + Flatten(PresetLists(names, presets, l))
      {
        var ls := PresetLists(names, presets, l);
        assert ls[1..] == PresetLists(names[1..], presets, l);
      }
    }
  }

  lemma MergeFromSpec(e: TomlEnvironment, names: seq<string>, presets: map<string, TomlPreset>)
    requires forall i | 0 <= i < |names| :: names[i] in presets
    ensures forall f: Scalar :: EnvScalar(MergeFrom(e, names, presets), f) == Override(EnvScalar(e, f), PresetValues(names, presets, f))
    ensures forall l: ListField :: EnvList(MergeFrom(e, names, presets), l) == EnvList(e, l) + Flatten(PresetLists(names, presets, l))
  {
    MergeFromScalars(e, names, presets);
    MergeFromLists(e, names, presets);
  }


  /** When at most one source sets a field (which `valid_unique_fields`
      ensures), the merge keeps that one value whatever the order of the
      presets: the environment's own value if set, otherwise the value every
      setting preset agrees on. */
  lemma OverrideOfSingleSource(base: string, values: seq<string>)
    requires base != "" ==> forall i | 0 <= i < |values| :: values[i] == ""
    requires forall i, j | 0 <= i < |values| && 0 <= j < |values| && values[i] != "" && values[j] != "" :: values[i] == values[j]
    ensures base != "" ==> Override(base, values) == base
    ensures forall i | 0 <= i < |values| && values[i] != "" :: Override(base, values) == values[i]
    ensures (forall i | 0 <= i < |values| :: values[i] == "") ==> Override(base, values) == base
  {
    OverrideIsLastNonEmpty(base, values);
    forall i | 0 <= i < |values| && values[i] != "" ensures Override(base, values) == values[i] {
      var k := LastNonEmpty(values, i);
      assert Override(base, values) == values[k];
    }
  }

  /** The index of the last non-empty value, given that `values[i]` is one. */
  ghost function LastNonEmpty(values: seq<string>, i: nat): (k: nat)
    requires i < |values| && values[i] != ""
    ensures i <= k < |values| && values[k] != ""
    ensures forall j | k < j < |values| :: values[j] == ""
    decreases |values| - i
  {
    if exists j | i < j < |values| :: values[j] != "" then
      var j :| i < j < |values| && values[j] != "";
      LastNonEmpty(values, j)
    else i
  }
}
