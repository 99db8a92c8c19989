/** The two warning checks of `RSPValidator`: `_check_completeness` and
    `_check_consistency`. Both read a raw record and return the warnings in
    the order they are appended; an operation that makes Python raise (a
    section that is not iterable, an item that is not a dict, an unhashable
    set member, `.lower()` on a non-string) gives `Raised`. */
module Checks {
  import opened Optional
  import opened Dicts
  import opened Strings
  import opened Json
  import opened Validator

  /** `data.get(key, [])` as a loop visits it. */
  function Section(data: Dict<Value>, key: string): Result<seq<Value>> {
    Iter(GetOr(data, key, Arr([])))
  }

  // ---------------------------------------------------------------------
  // _check_completeness

  const NoThresholds := "No capability thresholds defined"
  const NoDomains := "No risk domains defined"
  const NoSafeguards := "No safeguards defined"
  const NoCommitments := "No commitments defined"

  /** The warning for the `n`-th threshold (counted from 1) that has no
      description. */
  function MissingDescription(n: nat): string {
    "Threshold " + NatToString(n) + " missing description"
  }

  /** Distinct thresholds get distinct warnings. */
  lemma MissingDescriptionInjective(a: nat, b: nat)
    requires MissingDescription(a) == MissingDescription(b)
    ensures a == b
  {
    var s := MissingDescription(a);
    assert s[10..|s| - 20] == NatToString(a);
    assert MissingDescription(b)[10..|s| - 20] == NatToString(b);
    NatToStringRoundTrip(a);
    NatToStringRoundTrip(b);
  }

  /** `not data.get(key)`: the key is absent or its value is falsy. */
  predicate Empty(data: Dict<Value>, key: string) {
    !Truthy(GetOr(data, key, Null))
  }

  /** The warnings for the four sections that are absent or empty, in the
      order the source checks them. */
  function SectionWarnings(data: Dict<Value>): (r: seq<string>)
    ensures NoThresholds in r <==> Empty(data, "capability_thresholds")
    ensures NoDomains in r <==> Empty(data, "risk_domains")
    ensures NoSafeguards in r <==> Empty(data, "safeguards")
    ensures NoCommitments in r <==> Empty(data, "commitments")
    ensures |r| <= 4
  {
    SectionWarningsDistinct();
    (if Empty(data, "capability_thresholds") then [NoThresholds] else [])
    + (if Empty(data, "risk_domains") then [NoDomains] else [])
    + (if Empty(data, "safeguards") then [NoSafeguards] else [])
    + (if Empty(data, "commitments") then [NoCommitments] else [])
  }

  /** The four section warnings are different texts. */
  lemma SectionWarningsDistinct()
    ensures NoThresholds != NoDomains && NoThresholds != NoSafeguards && NoThresholds != NoCommitments
    ensures NoDomains != NoSafeguards && NoDomains != NoCommitments && NoSafeguards != NoCommitments
  {
    assert NoThresholds[3] == 'c' && NoDomains[3] == 'r' && NoSafeguards[3] == 's' && NoCommitments[3] == 'c';
    assert NoThresholds[4] == 'a' && NoCommitments[4] == 'o';
  }

  /** A threshold dict without a truthy description. */
  predicate Undescribed(t: Value)
    requires t.Obj?
  {
    !Truthy(GetOr(t.fields, "description", Null))
  }

  /** The per-threshold warnings of the `enumerate` loop; `threshold.get`
      raises on an item that is not a dict. */
  function DescriptionWarnings(ts: seq<Value>): (r: Result<seq<string>>)
    ensures r.Ok? <==> forall i | 0 <= i < |ts| :: ts[i].Obj?
    ensures r.Ok? ==> |r.value| <= |ts|
  {
    if ts == [] then Ok([])
    else
      var init := DescriptionWarnings(ts[..|ts| - 1]);
      var t := ts[|ts| - 1];
      assert forall i | 0 <= i < |ts| - 1 :: ts[..|ts| - 1][i] == ts[i];
      if init.Raised? || !t.Obj? then Raised
      else if Undescribed(t) then Ok(init.value + [MissingDescription(|ts|)])
      else init
  }

  /** There is a warning numbered `n` exactly when the `n`-th threshold has
      no description. */
  lemma {:induction false} DescriptionWarningsExact(ts: seq<Value>)
    requires DescriptionWarnings(ts).Ok?
    ensures forall n: nat :: MissingDescription(n) in DescriptionWarnings(ts).value <==>
      1 <= n <= |ts| && Undescribed(ts[n - 1])
  {
    if ts != [] {
      var init := ts[..|ts| - 1];
      DescriptionWarningsExact(init);
      forall n: nat ensures MissingDescription(n) in DescriptionWarnings(ts).value <==>
        1 <= n <= |ts| && Undescribed(ts[n - 1])
      {
        if MissingDescription(n) == MissingDescription(|ts|) {
          MissingDescriptionInjective(n, |ts|);
        }
        if 1 <= n < |ts| {
          assert init[n - 1] == ts[n - 1];
        }
      }
    }
  }

  /** The numbers (counted from `k`) of the thresholds without a
      description, in increasing order. */
  function UndescribedFrom(ts: seq<Value>, k: nat): (ns: seq<nat>)
    requires forall i | 0 <= i < |ts| :: ts[i].Obj?
    ensures forall i | 0 <= i < |ns| :: k <= ns[i] < k + |ts|
    ensures forall i, j | 0 <= i < j < |ns| :: ns[i] < ns[j]
  {
    if ts == [] then []
    else
      var rest := UndescribedFrom(ts[1..], k + 1);
      if Undescribed(ts[0]) then [k] + rest else rest
  }

  /** Counting thresholds from the front agrees with adding one at the end. */
  lemma {:induction false} UndescribedFromSnoc(ts: seq<Value>, t: Value, k: nat)
    requires forall i | 0 <= i < |ts| :: ts[i].Obj?
    requires t.Obj?
    ensures UndescribedFrom(ts + [t], k) == UndescribedFrom(ts, k) + (if Undescribed(t) then [k + |ts|] else [])
  {
    if ts == [] {
      assert ([] + [t])[1..] == [];
    } else {
      assert (ts + [t])[0] == ts[0];
      assert (ts + [t])[1..] == ts[1..] + [t];
      UndescribedFromSnoc(ts[1..], t, k + 1);
    }
  }

  /** The description warnings in closed form: one per undescribed threshold,
      numbered from 1, in increasing threshold order. */
  lemma {:induction false} DescriptionWarningsInOrder(ts: seq<Value>)
    requires DescriptionWarnings(ts).Ok?
    ensures |DescriptionWarnings(ts).value| == |UndescribedFrom(ts, 1)|
    ensures forall i | 0 <= i < |UndescribedFrom(ts, 1)| ::
      DescriptionWarnings(ts).value[i] == MissingDescription(UndescribedFrom(ts, 1)[i])
  {
    if ts != [] {
      var init := ts[..|ts| - 1];
      assert forall i | 0 <= i < |init| :: init[i] == ts[i];
      DescriptionWarningsInOrder(init);
      UndescribedFromSnoc(init, ts[|ts| - 1], 1);
      assert init + [ts[|ts| - 1]] == ts;
    }
  }

  /** `_check_completeness(data)` */
  function CompletenessWarnings(data: Dict<Value>): (r: Result<seq<string>>)
    ensures r.Ok? <==> (Section(data, "capability_thresholds").Ok? &&
                        DescriptionWarnings(Section(data, "capability_thresholds").value).Ok?)
    ensures r.Ok? ==> forall w | w in SectionWarnings(data) :: w in r.value
  {
    match Section(data, "capability_thresholds")
    case Raised => Raised
    case Ok(ts) =>
      match DescriptionWarnings(ts)
      case Raised => Raised
      case Ok(ws) => Ok(SectionWarnings(data) + ws)
  }

  /** The completeness check warns about the `n`-th threshold exactly when
      it has no description. */
  lemma CompletenessExact(data: Dict<Value>, n: nat)
    requires CompletenessWarnings(data).Ok?
    ensures var ts := Section(data, "capability_thresholds").value;
      MissingDescription(n) in CompletenessWarnings(data).value <==> 1 <= n <= |ts| && Undescribed(ts[n - 1])
  {
    var ts := Section(data, "capability_thresholds").value;
    DescriptionWarningsExact(ts);
    NotASectionWarning(data, n);
    assert CompletenessWarnings(data).value == SectionWarnings(data) + DescriptionWarnings(ts).value;
  }

  /** A threshold warning is none of the four section warnings. */
  lemma NotASectionWarning(data: Dict<Value>, n: nat)
    ensures MissingDescription(n) !in SectionWarnings(data)
  {
    assert MissingDescription(n)[0] == 'T';
  }

  /** `_check_completeness` as the source writes it: four tests, then the
      `enumerate` loop over the thresholds. */
  method CheckCompleteness(data: Dict<Value>) returns (r: Result<seq<string>>)
    ensures r == CompletenessWarnings(data)
  {
    var warnings: seq<string> := [];
    if Empty(data, "capability_thresholds") {
      warnings := warnings + [NoThresholds];
    }
    ghost var w1 := warnings;
    if Empty(data, "risk_domains") {
      warnings := warnings + [NoDomains];
    }
    ghost var w2 := warnings;
    if Empty(data, "safeguards") {
      warnings := warnings + [NoSafeguards];
    }
    ghost var w3 := warnings;
    if Empty(data, "commitments") {
      warnings := warnings + [NoCommitments];
    }
    SectionWarningsSteps(data, w1, w2, w3, warnings);
    var it := Section(data, "capability_thresholds");
    if it.Raised? {
      return Raised;
    }
    r := AppendDescriptionWarnings(warnings, it.value);
  }

  /** The `enumerate` loop of `_check_completeness`, appending to the
      warnings found so far. */
  method AppendDescriptionWarnings(found: seq<string>, ts: seq<Value>) returns (r: Result<seq<string>>)
    ensures DescriptionWarnings(ts).Raised? ==> r.Raised?
    ensures DescriptionWarnings(ts).Ok? ==> r == Ok(found + DescriptionWarnings(ts).value)
  {
    var warnings := found;
    for i := 0 to |ts|
      invariant DescriptionWarnings(ts[..i]).Ok?
      invariant warnings == found + DescriptionWarnings(ts[..i]).value
    {
      DescriptionStep(ts, i);
      if !ts[i].Obj? {
        return Raised;
      }
      if Undescribed(ts[i]) {
        warnings := warnings + [MissingDescription(i + 1)];
      }
    }
    assert ts[..|ts|] == ts;
    return Ok(warnings);
  }


  lemma SectionWarningsSteps(data: Dict<Value>, w1: seq<string>, w2: seq<string>, w3: seq<string>, w4: seq<string>)
    requires w1 == if Empty(data, "capability_thresholds") then [NoThresholds] else []
    requires w2 == if Empty(data, "risk_domains") then w1 + [NoDomains] else w1
    requires w3 == if Empty(data, "safeguards") then w2 + [NoSafeguards] else w2
    requires w4 == if Empty(data, "commitments") then w3 + [NoCommitments] else w3
    ensures w4 == SectionWarnings(data)
  {
    var a := if Empty(data, "capability_thresholds") then [NoThresholds] else [];
    var b := if Empty(data, "risk_domains") then [NoDomains] else [];
    var c := if Empty(data, "safeguards") then [NoSafeguards] else [];
    var d := if Empty(data, "commitments") then [NoCommitments] else [];
    assert w2 == a + b;
    assert w3 == a + b + c;
    assert w4 == a + b + c + d;
  }

  lemma DescriptionStep(ts: seq<Value>, i: int)
    requires 0 <= i < |ts| && DescriptionWarnings(ts[..i]).Ok?
    ensures !ts[i].Obj? ==> DescriptionWarnings(ts).Raised?
    ensures ts[i].Obj? && Undescribed(ts[i]) ==>
      DescriptionWarnings(ts[..i + 1]) == Ok(DescriptionWarnings(ts[..i]).value + [MissingDescription(i + 1)])
    ensures ts[i].Obj? && !Undescribed(ts[i]) ==> DescriptionWarnings(ts[..i + 1]) == DescriptionWarnings(ts[..i])
  {
    var p := ts[..i + 1];
    assert p[..|p| - 1] == ts[..i] && p[|p| - 1] == ts[i];
    if !ts[i].Obj? {
      assert !(forall j | 0 <= j < |ts| :: ts[j].Obj?);
    }
  }

  /** A repaired record always passes the completeness check without
      raising: its thresholds are a list of dicts. */
  lemma CompletenessAfterRepair(data: Dict<Value>)
    requires Validator.Fixed(data).Ok?
    ensures CompletenessWarnings(Validator.Fixed(data).value).Ok?
  {
    var ts := RepairedThresholds(data);
    assert DescriptionWarnings(ts).Ok?;
  }

  /** The thresholds section of a repaired record: a list of dicts. */
  lemma RepairedThresholds(data: Dict<Value>) returns (ts: seq<Value>)
    requires Validator.Fixed(data).Ok?
    ensures Section(Validator.Fixed(data).value, "capability_thresholds") == Ok(ts)
    ensures forall i | 0 <= i < |ts| :: ts[i].Obj?
  {
    Validator.FixedSections(data);
    var r := Validator.Fixed(data).value;
    ts := Validator.FixedThresholds(Validator.WithDefaults(data)).value;
    assert GetOr(r, "capability_thresholds", Arr([])) == Arr(ts);
    forall i | 0 <= i < |ts| ensures ts[i].Obj? {
      assert ts[i] in ts;
    }
  }

  // ---------------------------------------------------------------------
  // _check_consistency

  /** `item.get(key)` neither raises nor gives an unhashable value. */
  predicate HasHashableField(item: Value, key: string) {
    item.Obj? && Hashable(GetOr(item.fields, key, Null))
  }

  /** `{item.get(key) for item in items}`, each member up to Python's `==`;
      raises on an item that is not a dict or a value that is not hashable. */
  function FieldSet(items: seq<Value>, key: string): (r: Result<set<Value>>)
    ensures r.Ok? <==> forall i | 0 <= i < |items| :: HasHashableField(items[i], key)
    ensures r.Ok? ==> forall i | 0 <= i < |items| :: Canon(GetOr(items[i].fields, key, Null)) in r.value
    ensures r.Ok? ==> forall x | x in r.value :: exists i | 0 <= i < |items| :: x == Canon(GetOr(items[i].fields, key, Null))
    ensures r.Ok? ==> (r.value == {} <==> items == [])
  {
    if items == [] then Ok({})
    else
      var init := FieldSet(items[..|items| - 1], key);
      var t := items[|items| - 1];
      assert forall i | 0 <= i < |items| - 1 :: items[..|items| - 1][i] == items[i];
      if init.Raised? || !HasHashableField(t, key) then Raised
      else Ok(init.value + {Canon(GetOr(t.fields, key, Null))})
  }

  /** The warnings of each item, concatenated in order; raises as soon as
      one item's step raises. */
  function ConcatMap(vs: seq<Value>, f: Value -> Result<seq<string>>): (r: Result<seq<string>>)
    ensures r.Ok? <==> forall i | 0 <= i < |vs| :: f(vs[i]).Ok?
    ensures r.Ok? ==> forall i, w | 0 <= i < |vs| && w in f(vs[i]).value :: w in r.value
    ensures r.Ok? ==> forall w | w in r.value :: exists i | 0 <= i < |vs| :: w in f(vs[i]).value
  {
    if vs == [] then Ok([])
    else
      var init := ConcatMap(vs[..|vs| - 1], f);
      var last := f(vs[|vs| - 1]);
      assert forall i | 0 <= i < |vs| - 1 :: vs[..|vs| - 1][i] == vs[i];
      if init.Raised? || last.Raised? then Raised
      else Ok(init.value + last.value)
  }

  lemma ConcatMapStep(vs: seq<Value>, f: Value -> Result<seq<string>>, i: int)
    requires 0 <= i < |vs| && ConcatMap(vs[..i], f).Ok?
    ensures ConcatMap(vs[..i + 1], f) ==
      if f(vs[i]).Raised? then Raised else Ok(ConcatMap(vs[..i], f).value + f(vs[i]).value)
    ensures f(vs[i]).Raised? ==> ConcatMap(vs, f).Raised?
  {
    assert vs[..i + 1][..i] == vs[..i];
  }

  /** The warning for a safeguard level that no threshold declares. */
  function UnknownLevel(level: Value): string {
    "Safeguard references unknown level: " + Show(level)
  }

  /** The warning for a trigger domain that no risk domain declares. */
  function UnknownDomain(domain: string): string {
    "Trigger references domain not in risk_domains: " + domain
  }

  /** One step of the inner safeguard loop: `level not in threshold_levels`
      raises on an unhashable level; the warning needs a non-empty set. */
  function LevelWarning(levels: set<Value>, level: Value): (r: Result<seq<string>>)
    ensures r.Ok? <==> Hashable(level)
    ensures r.Ok? ==> (r.value != [] <==> Canon(level) !in levels && levels != {})
    ensures r.Ok? ==> forall w | w in r.value :: w == UnknownLevel(level)
  {
    if !Hashable(level) then Raised
    else if Canon(level) !in levels && levels != {} then Ok([UnknownLevel(level)])
    else Ok([])
  }

  /** The steps of the inner safeguard loop over a list of levels. */
  function LevelWarnings(levels: set<Value>, ls: seq<Value>): (r: Result<seq<string>>)
    ensures r.Ok? <==> forall i | 0 <= i < |ls| :: Hashable(ls[i])
    ensures r.Ok? ==> forall w :: w in r.value <==> exists i | 0 <= i < |ls| && Hashable(ls[i]) :: w in LevelWarning(levels, ls[i]).value
  {
    ConcatMap(ls, l => LevelWarning(levels, l))
  }

  lemma LevelWarningsStep(levels: set<Value>, ls: seq<Value>, i: int)
    requires 0 <= i < |ls| && LevelWarnings(levels, ls[..i]).Ok?
    ensures !Hashable(ls[i]) ==> LevelWarnings(levels, ls).Raised?
    ensures Hashable(ls[i]) ==>
      LevelWarnings(levels, ls[..i + 1]) == Ok(LevelWarnings(levels, ls[..i]).value + LevelWarning(levels, ls[i]).value)
  {
    ConcatMapStep(ls, l => LevelWarning(levels, l), i);
  }

  /** The inner safeguard loop over `safeguard.get("applicable_levels", [])`. */
  function SafeguardWarnings(levels: set<Value>, safeguard: Value): (r: Result<seq<string>>)
    ensures r.Ok? ==> safeguard.Obj? && Iter(GetOr(safeguard.fields, "applicable_levels", Arr([]))).Ok?
    ensures r.Ok? ==>
      var ls := Iter(GetOr(safeguard.fields, "applicable_levels", Arr([]))).value;
      forall w :: w in r.value <==> exists i | 0 <= i < |ls| && Hashable(ls[i]) :: w in LevelWarning(levels, ls[i]).value
    ensures r.Ok? && levels == {} ==> forall w :: w !in r.value
  {
    if !safeguard.Obj? then Raised
    else match Iter(GetOr(safeguard.fields, "applicable_levels", Arr([])))
      case Raised => Raised
      case Ok(ls) => LevelWarnings(levels, ls)
  }

  /** A safeguard warns about a level exactly when it lists a level outside
      a non-empty set of threshold levels. */
  lemma SafeguardWarningsExact(levels: set<Value>, safeguard: Value, w: string)
    requires SafeguardWarnings(levels, safeguard).Ok?
    ensures w in SafeguardWarnings(levels, safeguard).value <==>
      levels != {} && exists l | l in Iter(GetOr(safeguard.fields, "applicable_levels", Arr([]))).value ::
        Canon(l) !in levels && w == UnknownLevel(l)
  {
    var ls := Iter(GetOr(safeguard.fields, "applicable_levels", Arr([]))).value;
    if w in SafeguardWarnings(levels, safeguard).value {
      var i :| 0 <= i < |ls| && Hashable(ls[i]) && w in LevelWarning(levels, ls[i]).value;
      assert ls[i] in ls;
    }
    if levels != {} && exists l | l in ls :: Canon(l) !in levels && w == UnknownLevel(l) {
      var l :| l in ls && Canon(l) !in levels && w == UnknownLevel(l);
      var i :| 0 <= i < |ls| && ls[i] == l;
      assert w in LevelWarning(levels, ls[i]).value;
    }
  }

  /** One step of the inner trigger loop: a falsy domain is skipped, a truthy
      one must be a string; the warning names the domain as written. */
  function TriggerWarning(covered: set<Value>, trigger: Value): (r: Result<seq<string>>)
    ensures r.Ok? <==> trigger.Obj? && (Truthy(GetOr(trigger.fields, "domain", Null)) ==> GetOr(trigger.fields, "domain", Null).Str?)
    ensures r.Ok? ==> forall w :: w in r.value <==> WarnsAbout(covered, trigger, w)
  {
    if !trigger.Obj? then Raised
    else
      var domain := GetOr(trigger.fields, "domain", Null);
      if !Truthy(domain) then Ok([])
      else if !domain.Str? then Raised
      else if Str(Lower(domain.s)) !in covered && Lower(domain.s) != "any" then Ok([UnknownDomain(domain.s)])
      else Ok([])
  }

  /** A trigger whose domain is a non-empty string that, lower-cased, is
      neither a declared domain nor "any", and `w` is the warning about it. */
  predicate WarnsAbout(covered: set<Value>, trigger: Value, w: string) {
    trigger.Obj? && GetOr(trigger.fields, "domain", Null).Str? &&
    var s := GetOr(trigger.fields, "domain", Null).s;
    s != [] && Str(Lower(s)) !in covered && Lower(s) != "any" && w == UnknownDomain(s)
  }

  /** The steps of the inner trigger loop over a list of triggers. */
  function EachTriggerWarning(covered: set<Value>, trs: seq<Value>): (r: Result<seq<string>>)
    ensures r.Ok? <==> forall i | 0 <= i < |trs| :: TriggerWarning(covered, trs[i]).Ok?
    ensures r.Ok? ==> forall w :: w in r.value <==> exists i | 0 <= i < |trs| :: WarnsAbout(covered, trs[i], w)
  {
    ConcatMap(trs, tr => TriggerWarning(covered, tr))
  }

  lemma EachTriggerWarningStep(covered: set<Value>, trs: seq<Value>, i: int)
    requires 0 <= i < |trs| && EachTriggerWarning(covered, trs[..i]).Ok?
    ensures TriggerWarning(covered, trs[i]).Raised? ==> EachTriggerWarning(covered, trs).Raised?
    ensures TriggerWarning(covered, trs[i]).Ok? ==>
      EachTriggerWarning(covered, trs[..i + 1]) == Ok(EachTriggerWarning(covered, trs[..i]).value + TriggerWarning(covered, trs[i]).value)
  {
    ConcatMapStep(trs, tr => TriggerWarning(covered, tr), i);
  }

  /** The inner trigger loop over `threshold.get("triggers", [])`. */
  function TriggerWarnings(covered: set<Value>, threshold: Value): (r: Result<seq<string>>)
    ensures r.Ok? ==> threshold.Obj? && Iter(GetOr(threshold.fields, "triggers", Arr([]))).Ok?
    ensures r.Ok? ==>
      var trs := Iter(GetOr(threshold.fields, "triggers", Arr([]))).value;
      forall w :: w in r.value <==> exists i | 0 <= i < |trs| :: WarnsAbout(covered, trs[i], w)
  {
    if !threshold.Obj? then Raised
    else match Iter(GetOr(threshold.fields, "triggers", Arr([])))
      case Raised => Raised
      case Ok(trs) => EachTriggerWarning(covered, trs)
  }


  /** The outer safeguard loop over `data.get("safeguards", [])`. */
  function AllSafeguardWarnings(levels: set<Value>, sgs: seq<Value>): (r: Result<seq<string>>)
    ensures r.Ok? <==> forall i | 0 <= i < |sgs| :: SafeguardWarnings(levels, sgs[i]).Ok?
    ensures r.Ok? ==> forall w :: w in r.value <==>
      exists i | 0 <= i < |sgs| && SafeguardWarnings(levels, sgs[i]).Ok? :: w in SafeguardWarnings(levels, sgs[i]).value
  {
    ConcatMap(sgs, sg => SafeguardWarnings(levels, sg))
  }

  /** The outer trigger loop over `data.get("capability_thresholds", [])`. */
  function AllTriggerWarnings(covered: set<Value>, cts: seq<Value>): (r: Result<seq<string>>)
    ensures r.Ok? <==> forall i | 0 <= i < |cts| :: TriggerWarnings(covered, cts[i]).Ok?
    ensures r.Ok? ==> forall w :: w in r.value <==>
      exists i | 0 <= i < |cts| && TriggerWarnings(covered, cts[i]).Ok? :: w in TriggerWarnings(covered, cts[i]).value
  {
    ConcatMap(cts, t => TriggerWarnings(covered, t))
  }

  /** `_check_consistency(data)`: the threshold levels, the safeguard loop,
      the covered domains, then the trigger loop. */
  function ConsistencyWarnings(data: Dict<Value>): (r: Result<seq<string>>)
  {
    var cts := Section(data, "capability_thresholds");
    var sgs := Section(data, "safeguards");
    var rds := Section(data, "risk_domains");
    if cts.Raised? then Raised
    else
      var levels := FieldSet(cts.value, "level_name");
      if levels.Raised? || sgs.Raised? then Raised
      else
        var sw := AllSafeguardWarnings(levels.value, sgs.value);
        if sw.Raised? || rds.Raised? then Raised
        else
          var covered := FieldSet(rds.value, "domain");
          if covered.Raised? then Raised
          else
            var tw := AllTriggerWarnings(covered.value, cts.value);
            if tw.Raised? then Raised
            else Ok(sw.value + tw.value)
  }

  /** The check raises exactly when a loop or a set it builds raises. */
  lemma ConsistencyRaises(data: Dict<Value>)
    ensures ConsistencyWarnings(data).Ok? <==>
      && Section(data, "capability_thresholds").Ok? && Section(data, "safeguards").Ok? && Section(data, "risk_domains").Ok?
      && var cts := Section(data, "capability_thresholds").value;
      && FieldSet(cts, "level_name").Ok?
      && FieldSet(Section(data, "risk_domains").value, "domain").Ok?
      && AllSafeguardWarnings(FieldSet(cts, "level_name").value, Section(data, "safeguards").value).Ok?
      && AllTriggerWarnings(FieldSet(Section(data, "risk_domains").value, "domain").value, cts).Ok?
  {
  }

  /** A warning of the consistency check is a safeguard's warning about a
      level outside the threshold levels, or a threshold's warning about a
      trigger domain outside the covered domains. */
  lemma ConsistencyExact(data: Dict<Value>, w: string)
    requires ConsistencyWarnings(data).Ok?
    ensures var cts := Section(data, "capability_thresholds").value;
      var sgs := Section(data, "safeguards").value;
      var levels := FieldSet(cts, "level_name").value;
      var covered := FieldSet(Section(data, "risk_domains").value, "domain").value;
      w in ConsistencyWarnings(data).value <==>
        (exists i | 0 <= i < |sgs| && SafeguardWarnings(levels, sgs[i]).Ok? :: w in SafeguardWarnings(levels, sgs[i]).value) ||
        (exists i | 0 <= i < |cts| && TriggerWarnings(covered, cts[i]).Ok? :: w in TriggerWarnings(covered, cts[i]).value)
  {
    ConsistencyRaises(data);
    var cts := Section(data, "capability_thresholds").value;
    var levels := FieldSet(cts, "level_name").value;
    var covered := FieldSet(Section(data, "risk_domains").value, "domain").value;
    var sw := AllSafeguardWarnings(levels, Section(data, "safeguards").value);
    var tw := AllTriggerWarnings(covered, cts);
    assert ConsistencyWarnings(data).value == sw.value + tw.value;
  }

  /** Without thresholds there is nothing to check: no level is unknown
      (the set of levels is empty) and there are no triggers. */
  lemma NoThresholdsNoWarnings(data: Dict<Value>)
    requires Section(data, "capability_thresholds") == Ok([])
    requires ConsistencyWarnings(data).Ok?
    ensures forall w :: w !in ConsistencyWarnings(data).value
  {
    assert FieldSet([], "level_name") == Ok({});
    forall w ensures w !in ConsistencyWarnings(data).value {
      ConsistencyExact(data, w);
    }
  }

  // ---------------------------------------------------------------------
  // The loops of _check_consistency

  /** `_check_consistency` as the source writes it: a set comprehension,
      the nested safeguard loop, a set comprehension, the nested trigger
      loop. */
  method CheckConsistency(data: Dict<Value>) returns (r: Result<seq<string>>)
    ensures r == ConsistencyWarnings(data)
  {
    var cts := Section(data, "capability_thresholds");
    if cts.Raised? {
      return Raised;
    }
    var levels := CollectField(cts.value, "level_name");
    if levels.Raised? {
      return Raised;
    }
    var sgs := Section(data, "safeguards");
    if sgs.Raised? {
      return Raised;
    }
    var sw := CheckSafeguards(levels.value, sgs.value);
    if sw.Raised? {
      return Raised;
    }
    var rds := Section(data, "risk_domains");
    if rds.Raised? {
      return Raised;
    }
    var covered := CollectField(rds.value, "domain");
    if covered.Raised? {
      return Raised;
    }
    var tw := CheckTriggers(covered.value, cts.value);
    if tw.Raised? {
      return Raised;
    }
    return Ok(sw.value + tw.value);
  }

  /** A set comprehension `{item.get(key) for item in items}`. */
  method CollectField(items: seq<Value>, key: string) returns (r: Result<set<Value>>)
    ensures r == FieldSet(items, key)
  {
    var seen: set<Value> := {};
    for i := 0 to |items|
      invariant FieldSet(items[..i], key) == Ok(seen)
    {
      var p := items[..i + 1];
      assert p[..|p| - 1] == items[..i] && p[|p| - 1] == items[i];
      if !HasHashableField(items[i], key) {
        assert !(forall j | 0 <= j < |items| :: HasHashableField(items[j], key));
        return Raised;
      }
      seen := seen + {Canon(GetOr(items[i].fields, key, Null))};
    }
    assert items[..|items|] == items;
    return Ok(seen);
  }

  /** The outer safeguard loop. */
  method CheckSafeguards(levels: set<Value>, sgs: seq<Value>) returns (r: Result<seq<string>>)
    ensures r == AllSafeguardWarnings(levels, sgs)
  {
    var warnings := [];
    for i := 0 to |sgs|
      invariant AllSafeguardWarnings(levels, sgs[..i]) == Ok(warnings)
    {
      ConcatMapStep(sgs, sg => SafeguardWarnings(levels, sg), i);
      var w := CheckSafeguard(levels, sgs[i]);
      if w.Raised? {
        return Raised;
      }
      warnings := warnings + w.value;
    }
    assert sgs[..|sgs|] == sgs;
    return Ok(warnings);
  }

  /** The inner loop over one safeguard's `applicable_levels`. */
  method CheckSafeguard(levels: set<Value>, safeguard: Value) returns (r: Result<seq<string>>)
    ensures r == SafeguardWarnings(levels, safeguard)
  {
    if !safeguard.Obj? {
      return Raised;
    }
    var it := Iter(GetOr(safeguard.fields, "applicable_levels", Arr([])));
    if it.Raised? {
      return Raised;
    }
    var ls := it.value;
    var warnings := [];
    for i := 0 to |ls|
      invariant LevelWarnings(levels, ls[..i]) == Ok(warnings)
    {
      LevelWarningsStep(levels, ls, i);
      var level := ls[i];
      if !Hashable(level) {
        return Raised;
      }
      if Canon(level) !in levels && levels != {} {
        assert LevelWarning(levels, level) == Ok([UnknownLevel(level)]);
        warnings := warnings + [UnknownLevel(level)];
      } else {
        assert LevelWarning(levels, level) == Ok([]);
        assert warnings + [] == warnings;
      }
    }
    assert ls[..|ls|] == ls;
    return Ok(warnings);
  }

  /** The outer trigger loop. */
  method CheckTriggers(covered: set<Value>, cts: seq<Value>) returns (r: Result<seq<string>>)
    ensures r == AllTriggerWarnings(covered, cts)
  {
    var warnings := [];
    for i := 0 to |cts|
      invariant AllTriggerWarnings(covered, cts[..i]) == Ok(warnings)
    {
      ConcatMapStep(cts, t => TriggerWarnings(covered, t), i);
      var w := CheckThresholdTriggers(covered, cts[i]);
      if w.Raised? {
        return Raised;
      }
      warnings := warnings + w.value;
    }
    assert cts[..|cts|] == cts;
    return Ok(warnings);
  }

  /** The inner loop over one threshold's `triggers`. */
  method CheckThresholdTriggers(covered: set<Value>, threshold: Value) returns (r: Result<seq<string>>)
    ensures r == TriggerWarnings(covered, threshold)
  {
    if !threshold.Obj? {
      return Raised;
    }
    var it := Iter(GetOr(threshold.fields, "triggers", Arr([])));
    if it.Raised? {
      return Raised;
    }
    var trs := it.value;
    var warnings := [];
    for i := 0 to |trs|
      invariant EachTriggerWarning(covered, trs[..i]) == Ok(warnings)
    {
      EachTriggerWarningStep(covered, trs, i);
      var trigger := trs[i];
      if !trigger.Obj? {
        return Raised;
      }
      var domain := GetOr(trigger.fields, "domain", Null);
      if Truthy(domain) && !domain.Str? {
        return Raised;
      }
      if Truthy(domain) && Str(Lower(domain.s)) !in covered && Lower(domain.s) != "any" {
        warnings := warnings + [UnknownDomain(domain.s)];
      } else {
        assert TriggerWarning(covered, trigger) == Ok([]);
        assert warnings + [] == warnings;
      }
    }
    assert trs[..|trs|] == trs;
    return Ok(warnings);
  }
}
