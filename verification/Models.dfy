/** Which model and reasoning effort a session runs with, and which the picker offers. */
module Models {
  import opened Wrappers
  import opened Text

  const U32_LIMIT: nat := 0x1_0000_0000

  datatype Effort = High | XHigh | Max | Ultra | Lower(name: string)

  datatype Preset = Preset(
    id: string, model: string, efforts: seq<Effort>, defaultEffort: Effort, showInPicker: bool, isDefault: bool)

  datatype Config = Config(model: Option<string>, effort: Option<Effort>)

  datatype Selection = Selection(model: string, effort: Option<Effort>)

  // ---------------------------------------------------------------------------------------------
  // The picker

  function LeadingDigits(s: string): (r: string)
    ensures r <= s && AllDigits(r)
    ensures |r| < |s| ==> !IsDigit(s[|r|])
  {
    if s != "" && IsDigit(s[0]) then [s[0]] + LeadingDigits(s[1..]) else ""
  }

  /** Reads `gpt-<major>.<minor>`, whatever follows the digits of the minor version. */
  function GptVersion(model: string): Option<(nat, nat)> {
    match StripPrefix(model, "gpt-")
    case None => None
    case Some(version) =>
      match SplitOnce(version, '.')
      case None => None
      case Some((major, rest)) =>
        match (ParseUnsigned(major, U32_LIMIT), ParseUnsigned(LeadingDigits(rest), U32_LIMIT))
        case (Some(major), Some(minor)) => Some((major, minor))
        case _ => None
  }

  predicate IsGpt53OrNewer(model: string) {
    match GptVersion(model)
    case Some((major, minor)) => major > 5 || (major == 5 && minor >= 3)
    case None => false
  }

  predicate IsHigh(e: Effort) {
    !e.Lower?
  }

  function HighEfforts(efforts: seq<Effort>): (r: seq<Effort>)
    ensures forall e :: e in r <==> e in efforts && IsHigh(e)
  {
    if efforts == [] then []
    else
      var rest := HighEfforts(efforts[1..]);
      assert efforts == [efforts[0]] + efforts[1..];
      if IsHigh(efforts[0]) then [efforts[0]] + rest else rest
  }

  function Edited(p: Preset): Preset
    requires HighEfforts(p.efforts) != []
  {
    var efforts := HighEfforts(p.efforts);
    p.(efforts := efforts, defaultEffort := if IsHigh(p.defaultEffort) then p.defaultEffort else efforts[0])
  }

  predicate Offered(p: Preset, current: string) {
    && IsGpt53OrNewer(p.model)
    && (p.showInPicker || p.isDefault || current == p.model || current == p.id)
    && HighEfforts(p.efforts) != []
  }

  function Filter(presets: seq<Preset>, current: string): seq<Preset> {
    if presets == [] then []
    else
      (if Offered(presets[0], current) then [Edited(presets[0])] else []) + Filter(presets[1..], current)
  }

  /** One preset, edited in place when it is offered. */
  method EditForPicker(p: Preset, current: string) returns (r: Option<Preset>)
    ensures r == if Offered(p, current) then Some(Edited(p)) else None
  {
    var preset := p;
    var isCurrent := current == preset.model || current == preset.id;
    if !IsGpt53OrNewer(preset.model) || !(preset.showInPicker || preset.isDefault || isCurrent) {
      return None;
    }
    preset := preset.(efforts := HighEfforts(preset.efforts));
    if preset.efforts == [] {
      return None;
    }
    if !IsHigh(preset.defaultEffort) {
      preset := preset.(defaultEffort := preset.efforts[0]);
    }
    return Some(preset);
  }

  method FilterModelPresetsForPicker(presets: seq<Preset>, current: string) returns (r: seq<Preset>)
    ensures r == Filter(presets, current)
  {
    r := [];
    for i := 0 to |presets|
      invariant r + Filter(presets[i..], current) == Filter(presets, current)
    {
      assert presets[i..][0] == presets[i] && presets[i..][1..] == presets[i + 1..];
      var edited := EditForPicker(presets[i], current);
      if edited.Some? {
        AppendAssoc(r, [edited.value], Filter(presets[i + 1..], current));
        r := r + [edited.value];
      }
    }
  }

  // ---------------------------------------------------------------------------------------------
  // Selection

  ghost predicate IsFirstOfModel(presets: seq<Preset>, model: string, p: Preset) {
    exists i: nat :: i < |presets| && presets[i] == p && p.model == model && forall j: nat :: j < i ==> presets[j].model != model
  }

  ghost predicate IsFirstDefault(presets: seq<Preset>, p: Preset) {
    exists i: nat :: i < |presets| && presets[i] == p && p.isDefault && forall j: nat :: j < i ==> !presets[j].isDefault
  }

  lemma FirstFurtherOn(presets: seq<Preset>, model: string, p: Preset)
    requires presets != []
    ensures presets[0].model != model && IsFirstOfModel(presets[1..], model, p) ==> IsFirstOfModel(presets, model, p)
    ensures !presets[0].isDefault && IsFirstDefault(presets[1..], p) ==> IsFirstDefault(presets, p)
  {
    var rest := presets[1..];
    if presets[0].model != model && IsFirstOfModel(rest, model, p) {
      var i: nat :| i < |rest| && rest[i] == p && forall j: nat :: j < i ==> rest[j].model != model;
      assert presets[i + 1] == p;
      assert forall j: nat :: 0 < j < i + 1 ==> presets[j] == rest[j - 1];
    }
    if !presets[0].isDefault && IsFirstDefault(rest, p) {
      var i: nat :| i < |rest| && rest[i] == p && forall j: nat :: j < i ==> !rest[j].isDefault;
      assert presets[i + 1] == p;
      assert forall j: nat :: 0 < j < i + 1 ==> presets[j] == rest[j - 1];
    }
  }

  function FindModel(presets: seq<Preset>, model: string): (r: Option<Preset>)
    ensures r.Some? ==> r.value in presets && r.value.model == model && IsFirstOfModel(presets, model, r.value)
    ensures r.None? ==> forall p :: p in presets ==> p.model != model
  {
    if presets == [] then None
    else if presets[0].model == model then Some(presets[0])
    else
      var r := FindModel(presets[1..], model);
      if r.Some? then FirstFurtherOn(presets, model, r.value); r else r
  }

  function FindDefault(presets: seq<Preset>): (r: Option<Preset>)
    ensures r.Some? ==> r.value in presets && r.value.isDefault && IsFirstDefault(presets, r.value)
    ensures r.None? ==> forall p :: p in presets ==> !p.isDefault
  {
    if presets == [] then None
    else if presets[0].isDefault then Some(presets[0])
    else
      var r := FindDefault(presets[1..]);
      if r.Some? then FirstFurtherOn(presets, "", r.value); r else r
  }

  function FindId(presets: seq<Preset>, id: string): (r: Option<Preset>)
    ensures r.Some? ==> r.value in presets && r.value.id == id
    ensures r.None? ==> forall p :: p in presets ==> p.id != id
  {
    if presets == [] then None
    else if presets[0].id == id then Some(presets[0])
    else FindId(presets[1..], id)
  }

  /** The fallback chain: the first preset of the current model, else the first default, else the first of all. */
  function Resolve(presets: seq<Preset>, current: string): (r: Option<Preset>)
    ensures r.Some? <==> presets != []
    ensures r.Some? ==> r.value in presets
    ensures (exists p :: p in presets && p.model == current) ==> r.Some? && IsFirstOfModel(presets, current, r.value)
    ensures (forall p :: p in presets ==> p.model != current) && (exists p :: p in presets && p.isDefault) ==>
              r.Some? && IsFirstDefault(presets, r.value)
    ensures presets != [] && (forall p :: p in presets ==> p.model != current && !p.isDefault) ==> r == Some(presets[0])
  {
    var byModel := FindModel(presets, current);
    if byModel.Some? then byModel
    else if FindDefault(presets).Some? then FindDefault(presets)
    else if presets != [] then Some(presets[0]) else None
  }

  function EffectiveEffort(p: Preset, configured: Option<Effort>): Effort {
    if configured.Some? && configured.value in p.efforts then configured.value else p.defaultEffort
  }

  /** What normalizing changes: nothing when the model is offered with the effort it has. */
  function Normalized(presets: seq<Preset>, current: string, configured: Option<Effort>): Option<Selection> {
    match Resolve(presets, current)
    case None => None
    case Some(p) =>
      var effort := EffectiveEffort(p, configured);
      if p.model == current && configured == Some(effort) then None else Some(Selection(p.model, Some(effort)))
  }

  function SelectConfigModel(id: string, presets: seq<Preset>, configured: Option<Effort>): Option<Selection> {
    match FindId(presets, id)
    case None => if id == "" then None else Some(Selection(id, configured))
    case Some(p) => if p.model == "" then None else Some(Selection(p.model, Some(EffectiveEffort(p, configured))))
  }

  /** Codex may refuse the change, which then has no effect. */
  function Apply(c: Config, s: Option<Selection>, accepted: bool): Config {
    if s.Some? && accepted then Config(Some(s.value.model), s.value.effort) else c
  }

  /** A command, with the models listed and the model current when it runs. */
  datatype Command =
    | EnsureSelection(presets: seq<Preset>, current: string, accepted: bool)
    | SetModel(id: string, presets: seq<Preset>, current: string, accepted: bool)
    | SetEffort(effort: Effort, presets: seq<Preset>, current: string, accepted: bool)

  function Step(c: Config, command: Command): Config {
    match command
    case EnsureSelection(presets, current, accepted) =>
      Apply(c, Normalized(Filter(presets, current), current, c.effort), accepted)
    case SetModel(id, presets, current, accepted) =>
      Apply(c, SelectConfigModel(id, Filter(presets, current), c.effort), accepted)
    case SetEffort(effort, presets, current, accepted) =>
      var p := FindModel(Filter(presets, current), current);
      if p.Some? && effort in p.value.efforts && accepted then c.(effort := Some(effort)) else c
  }

  function Run(c: Config, commands: seq<Command>): Config {
    if commands == [] then c else Step(Run(c, commands[..|commands| - 1]), commands[|commands| - 1])
  }

  /** The configuration, updated in place. */
  class ModelConfig {
    var model: Option<string>
    var effort: Option<Effort>

    ghost function View(): Config
      reads this
    {
      Config(model, effort)
    }

    method ApplySelectedModel(s: Selection, accepted: bool)
      modifies this
      ensures View() == Apply(old(View()), Some(s), accepted)
    {
      if accepted {
        model := Some(s.model);
        effort := s.effort;
      }
    }

    method Perform(command: Command)
      modifies this
      ensures View() == Step(old(View()), command)
    {
      var presets := FilterModelPresetsForPicker(command.presets, command.current);
      match command
      case EnsureSelection(_, current, accepted) =>
        var s := Normalized(presets, current, effort);
        if s.Some? {
          ApplySelectedModel(s.value, accepted);
        }
      case SetModel(id, _, _, accepted) =>
        var s := SelectConfigModel(id, presets, effort);
        if s.Some? {
          ApplySelectedModel(s.value, accepted);
        }
      case SetEffort(wanted, _, current, accepted) =>
        var p := FindModel(presets, current);
        if p.Some? && wanted in p.value.efforts && accepted {
          effort := Some(wanted);
        }
    }
  }

  // ---------------------------------------------------------------------------------------------
  // The version test

  lemma {:induction false} LeadingDigitsOf(digits: string, rest: string)
    requires AllDigits(digits) && (rest != "" ==> !IsDigit(rest[0]))
    ensures LeadingDigits(digits + rest) == digits
    decreases |digits|
  {
    if digits == "" {
      assert digits + rest == rest;
    } else {
      assert digits[0] in digits;
      assert (digits + rest)[1..] == digits[1..] + rest;
      LeadingDigitsOf(digits[1..], rest);
    }
  }

  function ModelName(major: nat, minor: nat, rest: string): string {
    "gpt-" + (PrintNat(major) + ['.'] + (PrintNat(minor) + rest))
  }

  /** A printed version is read back, and decides alone whether the model is new enough. */
  lemma VersionDecides(major: nat, minor: nat, rest: string)
    requires major < U32_LIMIT && minor < U32_LIMIT
    requires rest != "" ==> !IsDigit(rest[0])
    ensures GptVersion(ModelName(major, minor, rest)) == Some((major, minor))
    ensures IsGpt53OrNewer(ModelName(major, minor, rest)) <==> major > 5 || (major == 5 && minor >= 3)
  {
    var tail := PrintNat(minor) + rest;
    var version := PrintNat(major) + ['.'] + tail;
    PrefixStripped("gpt-", version);
    assert '.' !in PrintNat(major);
    SplitOnceAt(PrintNat(major), '.', tail);
    LeadingDigitsOf(PrintNat(minor), rest);
    ParseOfPrint(major, U32_LIMIT);
    ParseOfPrint(minor, U32_LIMIT);
  }

  lemma PrefixStripped(prefix: string, s: string)
    ensures StripPrefix(prefix + s, prefix) == Some(s)
  {
    assert (prefix + s)[|prefix|..] == s;
  }

  /** The version that the two parts of a name spell: digits, and the digits the rest starts with. */
  function VersionOf(major: string, rest: string): Option<(nat, nat)> {
    match (ParseUnsigned(major, U32_LIMIT), ParseUnsigned(LeadingDigits(rest), U32_LIMIT))
    case (Some(major), Some(minor)) => Some((major, minor))
    case _ => None
  }

  ghost predicate IsSpelled(model: string, major: string, rest: string) {
    model == "gpt-" + (major + ['.'] + rest) && '.' !in major
  }

  lemma VersionIsRead(model: string, major: string, rest: string)
    requires IsSpelled(model, major, rest)
    ensures GptVersion(model) == VersionOf(major, rest)
  {
    PrefixStripped("gpt-", major + ['.'] + rest);
    SplitOnceAt(major, '.', rest);
  }

  lemma VersionIsSpelled(model: string) returns (major: string, rest: string)
    requires GptVersion(model).Some?
    ensures IsSpelled(model, major, rest)
  {
    var name := model[|"gpt-"|..];
    var i := IndexOf(name, '.');
    major, rest := name[..i], name[i + 1..];
    assert model == "gpt-" + name;
    assert name == major + ['.'] + rest;
  }

  /** Only names spelled `gpt-<major>.<minor>`, with whatever follows the digits, have a version. */
  lemma VersionExactly(model: string, version: (nat, nat))
    ensures GptVersion(model) == Some(version) <==>
              exists major, rest :: IsSpelled(model, major, rest) && VersionOf(major, rest) == Some(version)
  {
    if GptVersion(model) == Some(version) {
      var major, rest := VersionIsSpelled(model);
      VersionIsRead(model, major, rest);
    }
    if major, rest :| IsSpelled(model, major, rest) && VersionOf(major, rest) == Some(version) {
      VersionIsRead(model, major, rest);
    }
  }

  // ---------------------------------------------------------------------------------------------
  // The filter

  /** The efforts kept are the four high ones, in their order. */
  lemma {:induction false} HighEffortsOfSnoc(efforts: seq<Effort>, e: Effort)
    ensures HighEfforts(efforts + [e])
         == HighEfforts(efforts) + if e in {High, XHigh, Max, Ultra} then [e] else []
  {
    var all := efforts + [e];
    if efforts == [] {
      assert all[1..] == [];
    } else {
      assert all[1..] == efforts[1..] + [e];
      HighEffortsOfSnoc(efforts[1..], e);
    }
  }

  /**
   A preset is offered when its model is new enough, it is shown, the default or the current one, and
   some of its efforts is high.
   */
  lemma OfferedExactly(p: Preset, current: string)
    ensures Offered(p, current) <==>
              && (exists major, minor :: GptVersion(p.model) == Some((major, minor))
                                         && (major > 5 || (major == 5 && minor >= 3)))
              && (p.showInPicker || p.isDefault || current in {p.model, p.id})
              && (exists e :: e in p.efforts && e in {High, XHigh, Max, Ultra})
  {
    if e :| e in p.efforts && e in {High, XHigh, Max, Ultra} {
      assert e in HighEfforts(p.efforts);
    }
    if HighEfforts(p.efforts) != [] {
      assert HighEfforts(p.efforts)[0] in HighEfforts(p.efforts);
    }
  }

  /** An offered preset keeps everything but its efforts, and defaults to a high one it supports or had. */
  lemma OfferedAs(p: Preset, current: string)
    requires Offered(p, current)
    ensures var q := Edited(p);
            && q.id == p.id && q.model == p.model && q.showInPicker == p.showInPicker && q.isDefault == p.isDefault
            && q.efforts == HighEfforts(p.efforts)
            && q.defaultEffort == if p.defaultEffort in {High, XHigh, Max, Ultra} then p.defaultEffort else q.efforts[0]
  {}

  lemma {:induction false} HighIsAll(efforts: seq<Effort>)
    requires forall e :: e in efforts ==> IsHigh(e)
    ensures HighEfforts(efforts) == efforts
  {
    if efforts != [] {
      assert efforts[0] in efforts;
      HighIsAll(efforts[1..]);
    }
  }

  lemma EditedIsEdited(p: Preset, current: string)
    requires Offered(p, current)
    ensures Offered(Edited(p), current) && Edited(Edited(p)) == Edited(p)
    ensures IsHigh(Edited(p).defaultEffort) && forall e :: e in Edited(p).efforts ==> IsHigh(e)
  {
    HighIsAll(HighEfforts(p.efforts));
    assert HighEfforts(p.efforts)[0] in HighEfforts(p.efforts);
  }

  lemma {:induction false} FilteredOffersHigh(presets: seq<Preset>, current: string, p: Preset)
    requires p in Filter(presets, current)
    ensures IsHigh(p.defaultEffort) && forall e :: e in p.efforts ==> IsHigh(e)
  {
    if Offered(presets[0], current) && p == Edited(presets[0]) {
      EditedIsEdited(presets[0], current);
    } else {
      FilteredOffersHigh(presets[1..], current, p);
    }
  }

  /** Filtering twice is filtering once. */
  lemma {:induction false} FilterIsIdempotent(presets: seq<Preset>, current: string)
    ensures Filter(Filter(presets, current), current) == Filter(presets, current)
  {
    if presets != [] {
      FilterIsIdempotent(presets[1..], current);
      if Offered(presets[0], current) {
        EditedIsEdited(presets[0], current);
        var r := Filter(presets, current);
        assert r[0] == Edited(presets[0]) && r[1..] == Filter(presets[1..], current);
      } else {
        assert Filter(presets, current) == Filter(presets[1..], current);
      }
    }
  }

  // ---------------------------------------------------------------------------------------------
  // Normalizing settles at once

  /** The first preset of a model that is offered while that model is current. */
  ghost predicate Settles(presets: seq<Preset>, s: Selection)
    requires s.effort.Some?
  {
    var p := FindModel(Filter(presets, s.model), s.model);
    p.Some? && (s.effort.value in p.value.efforts || p.value.defaultEffort == s.effort.value)
  }

  ghost predicate IsOfferedAt(presets: seq<Preset>, current: string, p: Preset, i: nat) {
    i < |presets| && Offered(presets[i], current) && p == Edited(presets[i])
  }

  lemma OfferedFurtherOn(presets: seq<Preset>, current: string, p: Preset, i: nat)
    requires presets != [] && IsOfferedAt(presets[1..], current, p, i)
    ensures IsOfferedAt(presets, current, p, i + 1)
  {
    assert presets[i + 1] == presets[1..][i];
  }

  lemma {:induction false} FilteredIsRaw(presets: seq<Preset>, current: string, p: Preset)
    requires p in Filter(presets, current)
    ensures exists i :: IsOfferedAt(presets, current, p, i)
  {
    if Offered(presets[0], current) && p == Edited(presets[0]) {
      assert IsOfferedAt(presets, current, p, 0);
    } else {
      FilteredIsRaw(presets[1..], current, p);
      var i :| IsOfferedAt(presets[1..], current, p, i);
      OfferedFurtherOn(presets, current, p, i);
    }
  }

  lemma {:induction false} OfferedIsFiltered(presets: seq<Preset>, current: string, i: nat)
    requires i < |presets| && Offered(presets[i], current)
    ensures Edited(presets[i]) in Filter(presets, current)
  {
    if i > 0 {
      assert presets[1..][i - 1] == presets[i];
      OfferedIsFiltered(presets[1..], current, i - 1);
    }
  }

  /** The chosen preset stays offered once its model is the current one. */
  lemma ChosenStaysOffered(presets: seq<Preset>, current: string, p: Preset)
    requires p in Filter(presets, current)
    ensures p in Filter(presets, p.model)
  {
    FilteredIsRaw(presets, current, p);
    var i :| IsOfferedAt(presets, current, p, i);
    OfferedIsFiltered(presets, p.model, i);
  }

  /**
   After a change was applied, normalizing again changes nothing exactly when the first preset now
   offered for the model has the chosen effort, or would choose it.
   */
  lemma SecondChangeExactlyWhen(presets: seq<Preset>, current: string, configured: Option<Effort>)
    requires Normalized(Filter(presets, current), current, configured).Some?
    ensures var s := Normalized(Filter(presets, current), current, configured).value;
            Normalized(Filter(presets, s.model), s.model, s.effort) == None <==> Settles(presets, s)
  {
    var p := Resolve(Filter(presets, current), current).value;
    ChosenStaysOffered(presets, current, p);
  }

  ghost predicate DistinctModels(presets: seq<Preset>) {
    forall i, j :: 0 <= i < j < |presets| ==> presets[i].model != presets[j].model
  }

  lemma OnePresetPerModel(presets: seq<Preset>, current: string, p: Preset, q: Preset)
    requires DistinctModels(presets) && p in Filter(presets, current) && q in Filter(presets, current)
    requires p.model == q.model
    ensures p == q
  {
    FilteredIsRaw(presets, current, p);
    FilteredIsRaw(presets, current, q);
  }

  /** With one preset per model name, one application settles the selection, although the filter depends on it. */
  lemma NormalizingSettlesAtOnce(presets: seq<Preset>, current: string, configured: Option<Effort>)
    requires DistinctModels(presets)
    ensures var s := Normalized(Filter(presets, current), current, configured);
            s.Some? ==> Normalized(Filter(presets, s.value.model), s.value.model, s.value.effort) == None
  {
    var s := Normalized(Filter(presets, current), current, configured);
    if s.Some? {
      var p := Resolve(Filter(presets, current), current).value;
      ChosenStaysOffered(presets, current, p);
      var q := FindModel(Filter(presets, p.model), p.model);
      OnePresetPerModel(presets, p.model, p, q.value);
    }
  }

  lemma FilterOfTwo(p: Preset, q: Preset, current: string)
    ensures Filter([p, q], current)
         == (if Offered(p, current) then [Edited(p)] else []) + (if Offered(q, current) then [Edited(q)] else [])
  {
    assert [p, q][1..] == [q] && [q][1..] == [];
    assert Filter([q], current) == if Offered(q, current) then [Edited(q)] else [];
  }

  /** Two presets of one model, the first offered only while its model is current. */
  const SHARED := ModelName(5, 3, "")
  const HIDDEN := Preset("a", SHARED, [High], High, false, false)
  const SHOWN := Preset("b", SHARED, [XHigh], XHigh, true, false)

  lemma SharedIsOffered(current: string)
    ensures Offered(SHOWN, current) && Edited(SHOWN) == SHOWN
    ensures Offered(HIDDEN, current) <==> current == SHARED || current == "a"
    ensures HighEfforts(HIDDEN.efforts) == HIDDEN.efforts
  {
    VersionDecides(5, 3, "");
    HighIsAll([High]);
    HighIsAll([XHigh]);
  }

  lemma SharedFilter(current: string)
    ensures Filter([HIDDEN, SHOWN], current) == if current == SHARED || current == "a" then [HIDDEN, SHOWN] else [SHOWN]
  {
    SharedIsOffered(current);
    FilterOfTwo(HIDDEN, SHOWN, current);
  }

  lemma FirstIsResolved(p: Preset, rest: seq<Preset>)
    ensures Resolve([p] + rest, p.model) == Some(p)
  {}

  lemma OnlyIsResolved(p: Preset, current: string)
    ensures Resolve([p], current) == Some(p)
  {
    assert p in [p] && [p][0] == p;
  }

  lemma ChoiceWhileHidden(current: string)
    requires current != SHARED && current != "a"
    ensures Normalized(Filter([HIDDEN, SHOWN], current), current, None) == Some(Selection(SHARED, Some(XHigh)))
  {
    SharedFilter(current);
    OnlyIsResolved(SHOWN, current);
  }

  lemma ChoiceWhenBothShow()
    ensures Normalized(Filter([HIDDEN, SHOWN], SHARED), SHARED, Some(XHigh)) == Some(Selection(SHARED, Some(High)))
  {
    SharedFilter(SHARED);
    FirstIsResolved(HIDDEN, [SHOWN]);
    assert [HIDDEN, SHOWN] == [HIDDEN] + [SHOWN];
    assert XHigh !in [High];
  }

  /** The choice made while one preset was hidden is revised when both are offered. */
  lemma SharedModelNameSettlesLater(current: string)
    requires current != SHARED && current != "a"
    ensures Normalized(Filter([HIDDEN, SHOWN], current), current, None) == Some(Selection(SHARED, Some(XHigh)))
    ensures Normalized(Filter([HIDDEN, SHOWN], SHARED), SHARED, Some(XHigh)) == Some(Selection(SHARED, Some(High)))
  {
    ChoiceWhileHidden(current);
    ChoiceWhenBothShow();
  }

  // ---------------------------------------------------------------------------------------------
  // The effort stays high

  lemma SelectedEffortIsHigh(presets: seq<Preset>, current: string, p: Preset, configured: Option<Effort>)
    requires p in Filter(presets, current)
    ensures IsHigh(EffectiveEffort(p, configured))
  {
    FilteredOffersHigh(presets, current, p);
  }

  /**
   Choosing a model: an id of the list selects that preset's model with an effort it supports, the
   configured one if possible; any other name is taken as it is; the empty name is refused.
   */
  lemma ChoiceFitsPreset(id: string, presets: seq<Preset>, configured: Option<Effort>)
    ensures var s := SelectConfigModel(id, presets, configured);
            if exists p :: p in presets && p.id == id
            then s.Some? ==> exists p :: p in presets && p.id == id && s.value.model == p.model
                                         && s.value.effort.Some?
                                         && (s.value.effort == configured || s.value.effort.value == p.defaultEffort)
                                         && (configured.Some? && configured.value in p.efforts ==> s.value.effort == configured)
            else s == if id == "" then None else Some(Selection(id, configured))
  {
    var p := FindId(presets, id);
    assert p.Some? ==> p.value in presets && p.value.id == id;
  }

  /** The effort a preset runs with: the configured one if it supports it, else its default. */
  ghost predicate Fits(effort: Effort, p: Preset, configured: Option<Effort>) {
    if configured.Some? && configured.value in p.efforts then Some(effort) == configured else effort == p.defaultEffort
  }

  lemma {:induction false} FindsFirstId(presets: seq<Preset>, id: string, i: nat)
    requires i < |presets| && presets[i].id == id && forall j :: 0 <= j < i ==> presets[j].id != id
    ensures FindId(presets, id) == Some(presets[i])
  {
    if i > 0 {
      FindsFirstId(presets[1..], id, i - 1);
    }
  }

  /** Choosing an id of the list takes the first preset with it, at an effort that fits; a nameless model is refused. */
  lemma ChosenExactly(id: string, presets: seq<Preset>, configured: Option<Effort>, i: nat)
    requires i < |presets| && presets[i].id == id && forall j :: 0 <= j < i ==> presets[j].id != id
    ensures var s := SelectConfigModel(id, presets, configured);
            && (s.None? <==> presets[i].model == "")
            && (s.Some? ==> s.value.model == presets[i].model && s.value.effort.Some?
                            && Fits(s.value.effort.value, presets[i], configured))
  {
    FindsFirstId(presets, id, i);
  }

  /** Normalizing keeps to the resolved preset, and changes nothing exactly when it already runs as it fits. */
  lemma NormalizedExactly(presets: seq<Preset>, current: string, configured: Option<Effort>)
    ensures var s := Normalized(presets, current, configured);
            match Resolve(presets, current)
            case None => s.None?
            case Some(p) =>
              && (s.None? <==> p.model == current && configured.Some? && Fits(configured.value, p, configured))
              && (s.Some? ==> s.value.model == p.model && s.value.effort.Some?
                              && Fits(s.value.effort.value, p, configured))
  {}

  /** The effort is set exactly when Codex accepts it and the offered preset of the current model supports it. */
  lemma SetEffortExactly(c: Config, effort: Effort, presets: seq<Preset>, current: string, accepted: bool)
    ensures var c' := Step(c, SetEffort(effort, presets, current, accepted));
            && c'.model == c.model
            && (c'.effort == Some(effort) <==>
                  || c.effort == Some(effort)
                  || (accepted && exists p :: IsFirstOfModel(Filter(presets, current), current, p) && effort in p.efforts))
            && (c'.effort != Some(effort) ==> c'.effort == c.effort)
  {
    var offered := Filter(presets, current);
    var found := FindModel(offered, current);
    forall p | IsFirstOfModel(offered, current, p) ensures found == Some(p) {
      var i: nat :| i < |offered| && offered[i] == p && p.model == current
                    && forall j: nat :: j < i ==> offered[j].model != current;
      assert p in offered;
    }
  }

  /** A change Codex refuses, or none, leaves the configuration; an accepted one sets model and effort. */
  lemma AppliedExactly(c: Config, s: Option<Selection>, accepted: bool)
    ensures Apply(c, s, accepted) != c ==> accepted && s.Some?
    ensures accepted && s.Some? ==> Apply(c, s, accepted) == Config(Some(s.value.model), s.value.effort)
  {}

  ghost predicate RunsHigh(c: Config) {
    c.effort.Some? && IsHigh(c.effort.value)
  }

  lemma NormalizingMakesHigh(c: Config, presets: seq<Preset>, current: string)
    requires Filter(presets, current) != []
    ensures RunsHigh(Step(c, EnsureSelection(presets, current, true)))
  {
    var p := Resolve(Filter(presets, current), current).value;
    SelectedEffortIsHigh(presets, current, p, c.effort);
  }

  lemma StepStaysHigh(c: Config, command: Command)
    requires RunsHigh(c)
    ensures RunsHigh(Step(c, command))
  {
    var presets := Filter(command.presets, command.current);
    match command
    case EnsureSelection(_, current, _) =>
      if presets != [] {
        SelectedEffortIsHigh(command.presets, current, Resolve(presets, current).value, c.effort);
      }
    case SetModel(id, _, current, _) =>
      var p := FindId(presets, id);
      if p.Some? {
        SelectedEffortIsHigh(command.presets, current, p.value, c.effort);
      }
    case SetEffort(effort, _, current, _) =>
      var p := FindModel(presets, current);
      if p.Some? {
        FilteredOffersHigh(command.presets, current, p.value);
      }
  }

  /**
   Once normalized against a list that offers something, the session runs with a high effort after
   every later run of commands, whatever models are listed and current by then.
   */
  lemma {:induction false} EffortStaysHigh(c: Config, presets: seq<Preset>, current: string, commands: seq<Command>)
    requires Filter(presets, current) != []
    ensures RunsHigh(Run(Step(c, EnsureSelection(presets, current, true)), commands))
    decreases |commands|
  {
    if commands == [] {
      NormalizingMakesHigh(c, presets, current);
    } else {
      var init := commands[..|commands| - 1];
      EffortStaysHigh(c, presets, current, init);
      StepStaysHigh(Run(Step(c, EnsureSelection(presets, current, true)), init), commands[|commands| - 1]);
    }
  }
}
