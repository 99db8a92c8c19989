/** `RSPValidator`'s repair of raw extraction records (`fix_common_issues`
    with `_fix_threshold` and `_fix_domain`) and its two warning checks
    (`_check_completeness`, `_check_consistency`). Records are JSON objects;
    an operation that makes Python raise gives `Raised`. */
module Validator {
  import opened Optional
  import opened Dicts
  import opened Strings
  import opened Json
  import Enums

  /** The five list sections of a record. */
  const ListKeys: seq<string> := ["capability_thresholds", "risk_domains", "safeguards", "evaluation_requirements", "commitments"]

  const DefaultLabInfo: Value := Obj([("name", Str("Unknown"))])

  /** `d.get(k, default)` */
  function GetOr(d: Dict<Value>, k: string, default: Value): Value {
    Get(d, k).GetOr(default)
  }

  /** `key not in d or d[key] is None` */
  predicate Missing(d: Dict<Value>, k: string) {
    Get(d, k).None? || Get(d, k).value.Null?
  }

  // ---------------------------------------------------------------------
  // Dictionary steps of the repair

  /** `if k not in d: d[k] = v` */
  function SetDefault(d: Dict<Value>, k: string, v: Value): (r: Dict<Value>)
    ensures Get(r, k) == Some(Get(d, k).GetOr(v))
    ensures Get(d, k).Some? ==> r == d
    ensures IsDict(d) ==> IsDict(r)
  {
    if Get(d, k).None? then PutIsDictIf(d, k, v); Put(d, k, v) else d
  }

  /** `if k not in d or d[k] is None: d[k] = []` */
  function EnsureList(d: Dict<Value>, k: string): (r: Dict<Value>)
    ensures Get(r, k) == (if Missing(d, k) then Some(Arr([])) else Get(d, k))
    ensures !Missing(d, k) ==> r == d
    ensures IsDict(d) ==> IsDict(r)
  {
    if Missing(d, k) then PutIsDictIf(d, k, Arr([])); Put(d, k, Arr([])) else d
  }

  /** `SetDefault` and `EnsureList` leave the other keys alone. */
  lemma DefaultsKeep(d: Dict<Value>, k: string, v: Value, k': string)
    requires k' != k
    ensures Get(SetDefault(d, k, v), k') == Get(d, k')
    ensures Get(EnsureList(d, k), k') == Get(d, k')
  {
  }

  lemma PutIsDictIf(d: Dict<Value>, k: string, v: Value)
    ensures IsDict(d) ==> IsDict(Put(d, k, v))
  {
    if IsDict(d) {
      PutIsDict(d, k, v);
    }
  }

  /** `level_name.lower().replace(" ", "_").replace("-", "_")` */
  function LevelId(name: string): (r: string)
    ensures |r| == |name|
    ensures forall i | 0 <= i < |r| :: r[i] != ' ' && r[i] != '-' && !IsUpperChar(r[i])
  {
    ReplaceChar(ReplaceChar(Lower(name), ' ', '_'), '-', '_')
  }

  /** `name.lower().replace(" ", "_")`: hyphens are kept. */
  function DomainName(name: string): (r: string)
    ensures |r| == |name|
    ensures forall i | 0 <= i < |r| :: r[i] != ' ' && !IsUpperChar(r[i]) && (r[i] == '-' <==> name[i] == '-')
  {
    ReplaceChar(Lower(name), ' ', '_')
  }

  /** Normalising a normalised domain name changes nothing. */
  lemma DomainNameIdempotent(name: string)
    ensures DomainName(DomainName(name)) == DomainName(name)
  {
    var n := DomainName(name);
    assert Lower(n) == n;
  }

  /** The schema's `RiskDomain` field validator normalises a domain name the
      way `_fix_threshold` derives a level id. Applied after the repair's own
      normalisation it gives what it gives on the raw name. */
  lemma SchemaAfterRepair(name: string)
    ensures LevelId(DomainName(name)) == LevelId(name)
  {
    var a := LevelId(DomainName(name));
    var b := LevelId(name);
    forall i | 0 <= i < |name| ensures a[i] == b[i] {
      assert Lower(name)[i] == LowerChar(name[i]);
      assert DomainName(name)[i] == ReplaceChar(Lower(name), ' ', '_')[i];
      assert Lower(DomainName(name))[i] == LowerChar(DomainName(name)[i]);
    }
  }

  /** The repair keeps a hyphen that the schema turns into an underscore: a
      hyphenated domain name comes out of `fix_common_issues` as a string
      that is not a `RiskDomainType` value, while the schema maps it to one. */
  lemma RepairKeepsHyphen()
    ensures DomainName("Model-Autonomy") == "model-autonomy"
    ensures Enums.ParseRiskDomainType(DomainName("Model-Autonomy")).None?
    ensures LevelId("Model-Autonomy") == "model_autonomy"
    ensures Enums.ParseRiskDomainType(LevelId("Model-Autonomy")) == Some(Enums.ModelAutonomy)
  {
    assert DomainName("Model-Autonomy") == "model-autonomy";
    assert LevelId("Model-Autonomy") == "model_autonomy";
  }

  // ---------------------------------------------------------------------
  // _fix_threshold and _fix_domain

  /** `_fix_threshold`: a copy of the threshold dict with `level_name`,
      `level_id`, `triggers` and `required_safeguards` filled in (see
      `FixThresholdFields`). Raises when the threshold is not a dict, or when
      `level_id` is absent and the level name is not a string. */
  function FixThreshold(t: Value): (r: Result<Value>)
    ensures r.Ok? <==> t.Obj? && (Get(t.fields, "level_id").Some? || LevelNameOf(t.fields).Str?)
    ensures r.Ok? ==> r.value.Obj?
  {
    if !t.Obj? then Raised
    else
      var f1 := SetDefault(t.fields, "level_name", GetOr(t.fields, "name", Str("Unknown Level")));
      var name := Get(f1, "level_name").value;
      DefaultsKeep(t.fields, "level_name", GetOr(t.fields, "name", Str("Unknown Level")), "level_id");
      if Get(f1, "level_id").None? && !name.Str? then Raised
      else
        var f2 := if Get(f1, "level_id").None? then SetDefault(f1, "level_id", Str(LevelId(name.s))) else f1;
        var f3 := EnsureList(f2, "triggers");
        Ok(Obj(EnsureList(f3, "required_safeguards")))
  }

  /** The level name `_fix_threshold` settles on: the present `level_name`,
      else `name`, else "Unknown Level". */
  function LevelNameOf(f: Dict<Value>): Value {
    Get(f, "level_name").GetOr(GetOr(f, "name", Str("Unknown Level")))
  }

  /** `_fix_threshold` fills each of its four fields only where it is absent
      (the two lists also where they are `None`): the level name from
      `name` or "Unknown Level", the level id from the level name. */
  lemma FixThresholdFields(t: Value)
    requires FixThreshold(t).Ok?
    ensures var f := t.fields; var g := FixThreshold(t).value.fields;
      && Get(g, "level_name") == Some(LevelNameOf(f))
      && Get(g, "level_id") == (if Get(f, "level_id").Some? then Get(f, "level_id") else Some(Str(LevelId(LevelNameOf(f).s))))
      && Get(g, "triggers") == (if Missing(f, "triggers") then Some(Arr([])) else Get(f, "triggers"))
      && Get(g, "required_safeguards") == (if Missing(f, "required_safeguards") then Some(Arr([])) else Get(f, "required_safeguards"))
  {
    var f := t.fields;
    var f1 := SetDefault(f, "level_name", GetOr(f, "name", Str("Unknown Level")));
    var name := Get(f1, "level_name").value;
    var f2 := if Get(f1, "level_id").None? then SetDefault(f1, "level_id", Str(LevelId(name.s))) else f1;
    var f3 := EnsureList(f2, "triggers");
    var g := EnsureList(f3, "required_safeguards");
    assert FixThreshold(t) == Ok(Obj(g));
    DefaultsKeep(f, "level_name", GetOr(f, "name", Str("Unknown Level")), "level_id");
    DefaultsKeep(f, "level_name", GetOr(f, "name", Str("Unknown Level")), "triggers");
    DefaultsKeep(f, "level_name", GetOr(f, "name", Str("Unknown Level")), "required_safeguards");
    if Get(f1, "level_id").None? {
      DefaultsKeep(f1, "level_id", Str(LevelId(name.s)), "level_name");
      DefaultsKeep(f1, "level_id", Str(LevelId(name.s)), "triggers");
      DefaultsKeep(f1, "level_id", Str(LevelId(name.s)), "required_safeguards");
    }
    DefaultsKeep(f2, "triggers", Null, "level_name");
    DefaultsKeep(f2, "triggers", Null, "level_id");
    DefaultsKeep(f2, "triggers", Null, "required_safeguards");
    DefaultsKeep(f3, "required_safeguards", Null, "level_name");
    DefaultsKeep(f3, "required_safeguards", Null, "level_id");
    DefaultsKeep(f3, "required_safeguards", Null, "triggers");
  }

  /** `_fix_threshold` leaves every other key alone and keeps keys distinct. */
  lemma FixThresholdKeeps(t: Value)
    requires FixThreshold(t).Ok?
    ensures var f := t.fields; var g := FixThreshold(t).value.fields;
      && (forall k | k != "level_name" && k != "level_id" && k != "triggers" && k != "required_safeguards" :: Get(g, k) == Get(f, k))
      && (IsDict(f) ==> IsDict(g))
  {
    var f := t.fields;
    var f1 := SetDefault(f, "level_name", GetOr(f, "name", Str("Unknown Level")));
    var name := Get(f1, "level_name").value;
    var f2 := if Get(f1, "level_id").None? then SetDefault(f1, "level_id", Str(LevelId(name.s))) else f1;
    var f3 := EnsureList(f2, "triggers");
    var g := EnsureList(f3, "required_safeguards");
    assert FixThreshold(t) == Ok(Obj(g));
    forall k | k != "level_name" && k != "level_id" && k != "triggers" && k != "required_safeguards"
      ensures Get(g, k) == Get(f, k)
    {
      DefaultsKeep(f, "level_name", GetOr(f, "name", Str("Unknown Level")), k);
      if Get(f1, "level_id").None? {
        DefaultsKeep(f1, "level_id", Str(LevelId(name.s)), k);
      }
      DefaultsKeep(f2, "triggers", Null, k);
      DefaultsKeep(f3, "required_safeguards", Null, k);
    }
  }

  /** `_fix_domain`: a copy with `domain`, `coverage` and `thresholds`
      filled in (see `FixDomainFields`). Raises when the domain is not a
      dict. */
  function FixDomain(d: Value): (r: Result<Value>)
    ensures r.Ok? <==> d.Obj?
    ensures r.Ok? ==> r.value.Obj?
  {
    if !d.Obj? then Raised
    else
      var f1 := SetDefault(d.fields, "domain", Str("other"));
      var f2 := SetDefault(f1, "coverage", Str("partial"));
      Ok(Obj(EnsureList(f2, "thresholds")))
  }

  /** `_fix_domain` defaults `domain` to "other" and `coverage` to "partial"
      only when the key is absent, and `thresholds` to [] when it is absent
      or `None`. */
  lemma FixDomainFields(d: Value)
    requires d.Obj?
    ensures var f := d.fields; var g := FixDomain(d).value.fields;
      && Get(g, "domain") == Some(GetOr(f, "domain", Str("other")))
      && Get(g, "coverage") == Some(GetOr(f, "coverage", Str("partial")))
      && Get(g, "thresholds") == (if Missing(f, "thresholds") then Some(Arr([])) else Get(f, "thresholds"))
  {
    var f := d.fields;
    var f1 := SetDefault(f, "domain", Str("other"));
    var f2 := SetDefault(f1, "coverage", Str("partial"));
    var g := EnsureList(f2, "thresholds");
    assert FixDomain(d) == Ok(Obj(g));
    DefaultsKeep(f1, "coverage", Str("partial"), "domain");
    DefaultsKeep(f2, "thresholds", Arr([]), "domain");
    DefaultsKeep(f2, "thresholds", Arr([]), "coverage");
    DefaultsKeep(f, "domain", Str("other"), "coverage");
    DefaultsKeep(f, "domain", Str("other"), "thresholds");
    DefaultsKeep(f1, "coverage", Str("partial"), "thresholds");
  }

  /** `_fix_domain` leaves every other key alone and keeps keys distinct. */
  lemma FixDomainKeeps(d: Value)
    requires d.Obj?
    ensures var f := d.fields; var g := FixDomain(d).value.fields;
      && (forall k | k != "domain" && k != "coverage" && k != "thresholds" :: Get(g, k) == Get(f, k))
      && (IsDict(f) ==> IsDict(g))
  {
    var f := d.fields;
    var f1 := SetDefault(f, "domain", Str("other"));
    var f2 := SetDefault(f1, "coverage", Str("partial"));
    var g := EnsureList(f2, "thresholds");
    assert FixDomain(d) == Ok(Obj(g));
    forall k | k != "domain" && k != "coverage" && k != "thresholds"
      ensures Get(g, k) == Get(f, k)
    {
      DefaultsKeep(f, "domain", Str("other"), k);
      DefaultsKeep(f1, "coverage", Str("partial"), k);
      DefaultsKeep(f2, "thresholds", Null, k);
    }
  }

  /** One step of the normalisation loop of `fix_common_issues`:
      `domain["domain"] = domain["domain"].lower().replace(" ", "_")` on a
      dict `_fix_domain` produced. Raises when the name is not a string. */
  function NormalizeDomain(d: Value): (r: Result<Value>)
    ensures r.Ok? <==> d.Obj? && (Get(d.fields, "domain").Some? ==> Get(d.fields, "domain").value.Str?)
    ensures r.Ok? && Get(d.fields, "domain").Some? ==>
      r.value.Obj? && Get(r.value.fields, "domain") == Some(Str(DomainName(Get(d.fields, "domain").value.s)))
    ensures r.Ok? ==> r.value.Obj?
    ensures r.Ok? && IsDict(d.fields) ==> IsDict(r.value.fields)
  {
    if !d.Obj? then Raised
    else match Get(d.fields, "domain")
      case None => Ok(d)
      case Some(name) =>
        if !name.Str? then Raised
        else
          PutIsDictIf(d.fields, "domain", Str(DomainName(name.s)));
          Ok(Obj(Put(d.fields, "domain", Str(DomainName(name.s)))))
  }

  /** The normalisation changes no key but `domain`. */
  lemma NormalizeDomainKeeps(d: Value, k: string)
    requires NormalizeDomain(d).Ok? && k != "domain"
    ensures Get(NormalizeDomain(d).value.fields, k) == Get(d.fields, k)
  {
  }

  /** A threshold `_fix_threshold` produced is left as it is by a second
      repair. */
  lemma FixThresholdIdempotent(t: Value)
    requires FixThreshold(t).Ok?
    ensures FixThreshold(FixThreshold(t).value) == FixThreshold(t)
  {
    var g := FixThreshold(t).value.fields;
    FixThresholdFields(t);
    assert SetDefault(g, "level_name", GetOr(g, "name", Str("Unknown Level"))) == g;
    assert EnsureList(g, "triggers") == g;
    assert EnsureList(g, "required_safeguards") == g;
  }

  /** A domain `_fix_domain` and the normalisation produced is left as it is
      by a second pass through both. */
  lemma FixDomainIdempotent(d: Value)
    requires Wf(d) && FixDomain(d).Ok? && NormalizeDomain(FixDomain(d).value).Ok?
    ensures var n := NormalizeDomain(FixDomain(d).value).value;
      FixDomain(n) == Ok(n) && NormalizeDomain(n) == Ok(n)
  {
    var g := FixDomain(d).value;
    var n := NormalizeDomain(g).value;
    FixDomainFields(d);
    FixDomainKeeps(d);
    var name := Get(g.fields, "domain").value.s;
    var h := n.fields;
    assert Get(h, "domain") == Some(Str(DomainName(name)));
    NormalizeDomainKeeps(g, "coverage");
    NormalizeDomainKeeps(g, "thresholds");
    assert SetDefault(h, "domain", Str("other")) == h;
    assert SetDefault(h, "coverage", Str("partial")) == h;
    assert EnsureList(h, "thresholds") == h;
    assert FixDomain(n) == Ok(n);
    DomainNameIdempotent(name);
    PutSame(h, "domain", Str(DomainName(DomainName(name))));
  }

  // ---------------------------------------------------------------------
  // fix_common_issues

  /** `[f(x) for x in vs]`, raising when any `f(x)` raises. */
  function MapResult(vs: seq<Value>, f: Value -> Result<Value>): (r: Result<seq<Value>>)
    ensures r.Ok? <==> forall i | 0 <= i < |vs| :: f(vs[i]).Ok?
    ensures r.Ok? ==> |r.value| == |vs| && forall i | 0 <= i < |vs| :: r.value[i] == f(vs[i]).value
  {
    if vs == [] then Ok([])
    else
      var init := MapResult(vs[..|vs| - 1], f);
      var last := f(vs[|vs| - 1]);
      assert forall i | 0 <= i < |vs| - 1 :: vs[..|vs| - 1][i] == vs[i];
      if init.Raised? || last.Raised? then Raised
      else Ok(init.value + [last.value])
  }

  /** A comprehension whose every step gives back its item returns the list
      itself. */
  lemma {:induction false} MapResultIdentity(vs: seq<Value>, f: Value -> Result<Value>)
    requires forall i | 0 <= i < |vs| :: f(vs[i]) == Ok(vs[i])
    ensures MapResult(vs, f) == Ok(vs)
  {
    if vs != [] {
      var init := vs[..|vs| - 1];
      assert forall i | 0 <= i < |init| :: init[i] == vs[i];
      MapResultIdentity(init, f);
      assert init + [vs[|vs| - 1]] == vs;
    }
  }

  /** The loop `for key in keys: if key not in d or d[key] is None: d[key] = []`. */
  function EnsureLists(d: Dict<Value>, keys: seq<string>): (r: Dict<Value>)
    ensures forall k :: Get(r, k) == if k in keys && Missing(d, k) then Some(Arr([])) else Get(d, k)
    ensures (forall k | k in keys :: !Missing(d, k)) ==> r == d
    ensures IsDict(d) ==> IsDict(r)
  {
    if keys == [] then d
    else
      var init := keys[..|keys| - 1];
      var last := keys[|keys| - 1];
      var rest := EnsureLists(d, init);
      var r := EnsureList(rest, last);
      assert forall k | k in init :: k in keys;
      forall k ensures Get(r, k) == if k in keys && Missing(d, k) then Some(Arr([])) else Get(d, k) {
        if k != last {
          DefaultsKeep(rest, last, Null, k);
          assert k in keys <==> k in init;
        }
      }
      r
  }

  /** The record after the lab-info default and the list defaults. */
  function WithDefaults(data: Dict<Value>): (r: Dict<Value>)
    ensures forall k | k in ListKeys :: !Missing(r, k)
    ensures forall k | k in ListKeys :: Get(r, k) == if Missing(data, k) then Some(Arr([])) else Get(data, k)
    ensures Get(r, "lab_info").Some? && Truthy(Get(r, "lab_info").value)
    ensures Get(data, "lab_info").Some? && Truthy(Get(data, "lab_info").value) ==> Get(r, "lab_info") == Get(data, "lab_info")
    ensures forall k | k !in ListKeys && k != "lab_info" :: Get(r, k) == Get(data, k)
    ensures IsDict(data) ==> IsDict(r)
  {
    LabInfoNotAList();
    EnsureLists(WithLabInfo(data), ListKeys)
  }

  /** The record with `lab_info` defaulted when it is absent or falsy. */
  function WithLabInfo(data: Dict<Value>): (r: Dict<Value>)
    ensures Get(r, "lab_info") == if Get(data, "lab_info").None? || !Truthy(Get(data, "lab_info").value)
      then Some(DefaultLabInfo) else Get(data, "lab_info")
    ensures forall k | k != "lab_info" :: Get(r, k) == Get(data, k)
    ensures IsDict(data) ==> IsDict(r)
  {
    if Get(data, "lab_info").None? || !Truthy(Get(data, "lab_info").value) then
      PutIsDictIf(data, "lab_info", DefaultLabInfo);
      Put(data, "lab_info", DefaultLabInfo)
    else data
  }

  lemma LabInfoNotAList()
    ensures "lab_info" !in ListKeys
  {
  }

  lemma DefaultsHaveLists(data: Dict<Value>)
    ensures !Missing(WithDefaults(data), "capability_thresholds") && !Missing(WithDefaults(data), "risk_domains")
  {
    assert ListKeys[0] == "capability_thresholds" && ListKeys[1] == "risk_domains";
    assert ListKeys[0] in ListKeys && ListKeys[1] in ListKeys;
  }

  /** A record that already has a truthy `lab_info` and all five lists is
      left as it is by the defaults. */
  lemma WithDefaultsNoop(data: Dict<Value>)
    requires Get(data, "lab_info").Some? && Truthy(Get(data, "lab_info").value)
    requires forall k | k in ListKeys :: !Missing(data, k)
    ensures WithDefaults(data) == data
  {
  }

  /** The repaired thresholds: `[_fix_threshold(t) for t in thresholds]`. */
  function FixedThresholds(f: Dict<Value>): (r: Result<seq<Value>>)
    ensures r.Ok? ==> forall t | t in r.value :: t.Obj?
  {
    match Iter(GetOr(f, "capability_thresholds", Null))
    case Raised => Raised
    case Ok(ts) => MapResult(ts, FixThreshold)
  }

  /** The repaired risk domains: `[_fix_domain(d) for d in domains]`, then
      the normalisation of every domain name. */
  function FixedDomains(f: Dict<Value>): (r: Result<seq<Value>>)
    ensures r.Ok? ==> forall d | d in r.value :: d.Obj?
  {
    match Iter(GetOr(f, "risk_domains", Null))
    case Raised => Raised
    case Ok(ds) =>
      match MapResult(ds, FixDomain)
      case Raised => Raised
      case Ok(fs) => MapResult(fs, NormalizeDomain)
  }

  /** `fix_common_issues`: the repaired copy of a record, or `Raised`. */
  function Fixed(data: Dict<Value>): (r: Result<Dict<Value>>)
  {
    var f1 := WithDefaults(data);
    var ts := FixedThresholds(f1);
    var ds := FixedDomains(f1);
    if ts.Raised? || ds.Raised? then Raised
    else Ok(Put(Put(f1, "capability_thresholds", Arr(ts.value)), "risk_domains", Arr(ds.value)))
  }

  /** A comprehension `[f(v) for v in vs]`, stopping at the first step that
      raises. */
  method MapEach(vs: seq<Value>, f: Value -> Result<Value>) returns (r: Result<seq<Value>>)
    ensures r == MapResult(vs, f)
  {
    var acc := [];
    for i := 0 to |vs|
      invariant MapResult(vs[..i], f) == Ok(acc)
    {
      var y := f(vs[i]);
      MapResultStep(vs, f, i);
      if y.Raised? {
        return Raised;
      }
      acc := acc + [y.value];
    }
    assert vs[..|vs|] == vs;
    return Ok(acc);
  }

  lemma MapResultStep(vs: seq<Value>, f: Value -> Result<Value>, i: int)
    requires 0 <= i < |vs| && MapResult(vs[..i], f).Ok?
    ensures MapResult(vs[..i + 1], f) ==
      if f(vs[i]).Raised? then Raised else Ok(MapResult(vs[..i], f).value + [f(vs[i]).value])
    ensures f(vs[i]).Raised? ==> MapResult(vs, f).Raised?
  {
    assert vs[..i + 1][..i] == vs[..i];
  }

  /** `fix_common_issues`, step by step: the defaults on a copy, the two
      comprehensions, then the loop that normalises each repaired domain in
      place. */
  method FixCommonIssues(data: Dict<Value>) returns (r: Result<Dict<Value>>)
    ensures r == Fixed(data)
  {
    var f1 := AddDefaults(data);
    var ts := RepairThresholds(f1);
    if ts.Raised? {
      return Raised;
    }
    var fixed := Put(f1, "capability_thresholds", Arr(ts.value));
    DomainsAfterThresholds(f1, Arr(ts.value));
    r := RepairDomains(fixed);
  }

  /** Repairing the thresholds leaves the risk domains to repair as they were. */
  lemma DomainsAfterThresholds(f: Dict<Value>, v: Value)
    ensures FixedDomains(Put(f, "capability_thresholds", v)) == FixedDomains(f)
  {
    assert "risk_domains"[0] != "capability_thresholds"[0];
    assert Get(Put(f, "capability_thresholds", v), "risk_domains") == Get(f, "risk_domains");
  }

  /** `[_fix_threshold(t) for t in fixed["capability_thresholds"]]`. */
  method RepairThresholds(fixed: Dict<Value>) returns (r: Result<seq<Value>>)
    ensures r == FixedThresholds(fixed)
  {
    var cts := Iter(GetOr(fixed, "capability_thresholds", Null));
    if cts.Raised? {
      return Raised;
    }
    r := MapEach(cts.value, FixThreshold);
  }

  /** `fixed["risk_domains"] = [_fix_domain(d) for d in fixed["risk_domains"]]`,
      then the loop that normalises each repaired domain name in place. */
  method RepairDomains(fixed: Dict<Value>) returns (r: Result<Dict<Value>>)
    ensures r.Raised? <==> FixedDomains(fixed).Raised?
    ensures r.Ok? ==> r.value == Put(fixed, "risk_domains", Arr(FixedDomains(fixed).value))
  {
    var rds := Iter(GetOr(fixed, "risk_domains", Null));
    if rds.Raised? {
      return Raised;
    }
    var fs := MapEach(rds.value, FixDomain);
    if fs.Raised? {
      return Raised;
    }
    var f2 := Put(fixed, "risk_domains", Arr(fs.value));
    var ns := NormalizeEach(fs.value);
    if ns.Raised? {
      return Raised;
    }
    PutOverwrite(fixed, "risk_domains", Arr(fs.value), Arr(ns.value));
    return Ok(Put(f2, "risk_domains", Arr(ns.value)));
  }

  /** The defaults of `fix_common_issues` applied to a copy of the record:
      `lab_info`, then each of the five lists in turn. */
  method AddDefaults(data: Dict<Value>) returns (fixed: Dict<Value>)
    ensures fixed == WithDefaults(data)
  {
    fixed := data;
    if Get(fixed, "lab_info").None? || !Truthy(Get(fixed, "lab_info").value) {
      fixed := Put(fixed, "lab_info", DefaultLabInfo);
    }
    assert fixed == WithLabInfo(data);
    fixed := EnsureEach(fixed);
  }

  /** The loop of `fix_common_issues` that gives each of the five lists its
      empty default. */
  method EnsureEach(d: Dict<Value>) returns (fixed: Dict<Value>)
    ensures fixed == EnsureLists(d, ListKeys)
  {
    fixed := d;
    var keys := ListKeys;
    for i := 0 to |keys|
      invariant fixed == EnsureLists(d, keys[..i])
    {
      EnsureListsStep(d, keys, i);
      fixed := EnsureList(fixed, keys[i]);
    }
    assert keys[..|keys|] == keys;
  }

  lemma EnsureListsStep(d: Dict<Value>, keys: seq<string>, i: int)
    requires 0 <= i < |keys|
    ensures EnsureLists(d, keys[..i + 1]) == EnsureList(EnsureLists(d, keys[..i]), keys[i])
  {
    assert keys[..i + 1][..i] == keys[..i];
  }

  /** The loop that lower-cases each domain name of the repaired list in
      place, stopping where a name is not a string. */
  method NormalizeEach(fs: seq<Value>) returns (r: Result<seq<Value>>)
    ensures r == MapResult(fs, NormalizeDomain)
  {
    var ns := fs;
    for i := 0 to |ns|
      invariant |ns| == |fs|
      invariant forall j | i <= j < |fs| :: ns[j] == fs[j]
      invariant MapResult(fs[..i], NormalizeDomain) == Ok(ns[..i])
    {
      var n := NormalizeDomain(ns[i]);
      MapResultStep(fs, NormalizeDomain, i);
      if n.Raised? {
        return Raised;
      }
      InPlaceStep(fs, ns, NormalizeDomain, i);
      ns := ns[i := n.value];
    }
    assert ns[..|ns|] == ns && fs[..|fs|] == fs;
    return Ok(ns);
  }

  /** Replacing item `i` by its image extends the mapped prefix by one. */
  lemma InPlaceStep(fs: seq<Value>, ns: seq<Value>, f: Value -> Result<Value>, i: int)
    requires 0 <= i < |fs| == |ns| && forall j | i <= j < |fs| :: ns[j] == fs[j]
    requires MapResult(fs[..i], f) == Ok(ns[..i]) && f(fs[i]).Ok?
    ensures forall j | i + 1 <= j < |fs| :: ns[i := f(fs[i]).value][j] == fs[j]
    ensures MapResult(fs[..i + 1], f) == Ok(ns[i := f(fs[i]).value][..i + 1])
  {
    MapResultStep(fs, f, i);
    assert ns[i := f(fs[i]).value][..i + 1] == ns[..i] + [f(fs[i]).value];
  }



  /** A repaired record is the record with its defaults (`WithDefaults`)
      whose thresholds and risk domains are replaced by their repaired
      lists; every other key keeps its value. */
  lemma FixedSections(data: Dict<Value>)
    requires Fixed(data).Ok?
    ensures var r := Fixed(data).value; var f1 := WithDefaults(data);
      && Get(r, "capability_thresholds") == Some(Arr(FixedThresholds(f1).value))
      && Get(r, "risk_domains") == Some(Arr(FixedDomains(f1).value))
      && (forall k | k != "capability_thresholds" && k != "risk_domains" :: Get(r, k) == Get(f1, k))
  {
    var f1 := WithDefaults(data);
    var g := Put(f1, "capability_thresholds", Arr(FixedThresholds(f1).value));
    assert Fixed(data) == Ok(Put(g, "risk_domains", Arr(FixedDomains(f1).value)));
  }

  /** The repair keeps every key of the record with its defaults in its
      position. */
  lemma FixedKeepsOrder(data: Dict<Value>)
    requires Fixed(data).Ok?
    ensures var r := Fixed(data).value; var f1 := WithDefaults(data);
      |r| == |f1| && forall i | 0 <= i < |r| :: r[i].0 == f1[i].0
  {
    var f1 := WithDefaults(data);
    DefaultsHaveLists(data);
    PutTwiceKeys(f1, "capability_thresholds", Arr(FixedThresholds(f1).value), "risk_domains", Arr(FixedDomains(f1).value));
  }

  /** Every repaired threshold has a level name, a level id and both lists. */
  lemma FixedThresholdsRepaired(f: Dict<Value>)
    requires FixedThresholds(f).Ok?
    ensures forall i | 0 <= i < |FixedThresholds(f).value| :: RepairedThreshold(FixedThresholds(f).value[i])
  {
    var ts := Iter(GetOr(f, "capability_thresholds", Null)).value;
    forall i | 0 <= i < |FixedThresholds(f).value| ensures RepairedThreshold(FixedThresholds(f).value[i]) {
      FixThresholdFields(ts[i]);
    }
  }


  /** Every repaired risk domain has a normalised domain name, a coverage
      and a thresholds list. */
  lemma FixedDomainsRepaired(f: Dict<Value>)
    requires FixedDomains(f).Ok?
    ensures forall d | d in FixedDomains(f).value :: RepairedDomain(d)
  {
    var ds := Iter(GetOr(f, "risk_domains", Null)).value;
    var fs := MapResult(ds, FixDomain).value;
    var r := FixedDomains(f).value;
    assert r == MapResult(fs, NormalizeDomain).value;
    forall d | d in r ensures RepairedDomain(d) {
      var i :| 0 <= i < |r| && r[i] == d;
      assert FixDomain(ds[i]).Ok? && fs[i] == FixDomain(ds[i]).value;
      assert NormalizeDomain(fs[i]).Ok? && d == NormalizeDomain(fs[i]).value;
      DomainRepaired(ds[i]);
    }
  }

  lemma DomainRepaired(d: Value)
    requires d.Obj? && NormalizeDomain(FixDomain(d).value).Ok?
    ensures RepairedDomain(NormalizeDomain(FixDomain(d).value).value)
  {
    var g := FixDomain(d).value;
    FixDomainFields(d);
    NormalizeDomainKeeps(g, "coverage");
    NormalizeDomainKeeps(g, "thresholds");
    DomainNameIdempotent(Get(g.fields, "domain").value.s);
  }

  /** A threshold that `_fix_threshold` leaves as it is. */
  predicate RepairedThreshold(t: Value) {
    t.Obj? && Get(t.fields, "level_name").Some? && Get(t.fields, "level_id").Some?
    && !Missing(t.fields, "triggers") && !Missing(t.fields, "required_safeguards")
  }

  /** A risk domain that `_fix_domain` and the normalisation leave as they are. */
  predicate RepairedDomain(d: Value) {
    d.Obj? && Get(d.fields, "coverage").Some? && !Missing(d.fields, "thresholds")
    && Get(d.fields, "domain").Some? && Get(d.fields, "domain").value.Str?
    && DomainName(Get(d.fields, "domain").value.s) == Get(d.fields, "domain").value.s
  }

  /** Repairing a repaired record changes nothing. */
  lemma FixedIdempotent(data: Dict<Value>)
    requires Wf(Obj(data)) && Fixed(data).Ok?
    ensures Fixed(Fixed(data).value) == Fixed(data)
  {
    var r := Fixed(data).value;
    var f1 := WithDefaults(data);
    var ts := FixedThresholds(f1).value;
    var ns := FixedDomains(f1).value;
    FixedSections(data);
    FixedDefaultsKept(data);
    WithDefaultsNoop(r);
    FixedThresholdsAgain(f1);
    DefaultsWf(data);
    FixedDomainsAgain(f1);
    PutTwiceIsDict(f1, "capability_thresholds", Arr(ts), "risk_domains", Arr(ns));
    PutSame(r, "capability_thresholds", Arr(ts));
    PutSame(r, "risk_domains", Arr(ns));
  }

  /** The defaults a repaired record has stay in place. */
  lemma FixedDefaultsKept(data: Dict<Value>)
    requires Fixed(data).Ok?
    ensures var r := Fixed(data).value;
      && Get(r, "lab_info").Some? && Truthy(Get(r, "lab_info").value)
      && forall k | k in ListKeys :: !Missing(r, k)
  {
    var r := Fixed(data).value;
    var f1 := WithDefaults(data);
    FixedSections(data);
    LabInfoNotAList();
    assert Get(r, "lab_info") == Get(f1, "lab_info");
    forall k | k in ListKeys ensures !Missing(r, k) {
      if k != "capability_thresholds" && k != "risk_domains" {
        assert Get(r, k) == Get(f1, k);
      }
    }
  }


  /** The record with its defaults has well-formed thresholds and domains. */
  lemma DefaultsWf(data: Dict<Value>)
    requires Wf(Obj(data))
    ensures Wf(GetOr(WithDefaults(data), "risk_domains", Null))
  {
    assert ListKeys[1] == "risk_domains";
    if !Missing(data, "risk_domains") {
      GetWf(data, "risk_domains");
    }
  }

  /** Repaired thresholds come out of a second repair unchanged. */
  lemma FixedThresholdsAgain(f: Dict<Value>)
    requires FixedThresholds(f).Ok?
    ensures var ts := FixedThresholds(f).value;
      forall g | Get(g, "capability_thresholds") == Some(Arr(ts)) :: FixedThresholds(g) == Ok(ts)
  {
    var orig := Iter(GetOr(f, "capability_thresholds", Null)).value;
    var ts := FixedThresholds(f).value;
    forall i | 0 <= i < |ts| ensures FixThreshold(ts[i]) == Ok(ts[i]) {
      FixThresholdIdempotent(orig[i]);
    }
    MapResultIdentity(ts, FixThreshold);
  }

  /** Repaired risk domains come out of a second repair unchanged. */
  lemma FixedDomainsAgain(f: Dict<Value>)
    requires FixedDomains(f).Ok? && Wf(GetOr(f, "risk_domains", Null))
    ensures var ns := FixedDomains(f).value;
      forall g | Get(g, "risk_domains") == Some(Arr(ns)) :: FixedDomains(g) == Ok(ns)
  {
    var orig := Iter(GetOr(f, "risk_domains", Null)).value;
    IterWf(GetOr(f, "risk_domains", Null));
    var fs := MapResult(orig, FixDomain).value;
    var ns := FixedDomains(f).value;
    forall i | 0 <= i < |ns| ensures FixDomain(ns[i]) == Ok(ns[i]) && NormalizeDomain(ns[i]) == Ok(ns[i]) {
      FixDomainIdempotent(orig[i]);
    }
    MapResultIdentity(ns, FixDomain);
    MapResultIdentity(ns, NormalizeDomain);
  }
}
