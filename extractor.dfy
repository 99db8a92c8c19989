/** `RSPExtractor`'s merge of the records extracted from the chunks of one
    document (`_merge_extractions`, `_deduplicate_list`,
    `_default_extraction`). The record values are JSON (module Json); the
    list objects of the records, which the merge extends in place, are
    objects of class `ListObj`. */
module Extractor {
  import opened Optional
  import opened Dicts
  import opened Json
  import opened Seqs
  import Validator

  /** The five list sections, which the merge concatenates. */
  const MergedKeys: seq<string> := Validator.ListKeys

  lemma MergedKeysDistinct()
    ensures Distinct(MergedKeys)
  {
  }

  /** The three sections the merge deduplicates. */
  const DeduplicatedKeys: seq<string> := ["capability_thresholds", "risk_domains", "safeguards"]

  lemma DeduplicatedKeysDistinct()
    ensures Distinct(DeduplicatedKeys)
  {
  }

  /** `_default_extraction()`: `lab_info`, the five lists and `metadata`,
      all empty. */
  function DefaultExtraction(): (r: Dict<Value>)
    ensures IsDict(r)
    ensures Keys(r) == ["lab_info"] + MergedKeys + ["metadata"]
    ensures forall i | 0 <= i < |r| :: !Truthy(r[i].1)
  {
    var r := [("lab_info", Obj([])), ("capability_thresholds", Arr([])), ("risk_domains", Arr([])),
              ("safeguards", Arr([])), ("evaluation_requirements", Arr([])), ("commitments", Arr([])),
              ("metadata", Obj([]))];
    assert Keys(r) == ["lab_info"] + MergedKeys + ["metadata"];
    KeysListed(r, Keys(r));
    r
  }

  /** Each of the five lists of the default record is an empty list. */
  lemma DefaultListsEmpty(k: string)
    requires k in MergedKeys
    ensures Get(DefaultExtraction(), k) == Some(Arr([]))
  {
    var r := DefaultExtraction();
    var i :| 0 <= i < 5 && MergedKeys[i] == k;
    assert r[i + 1] == (k, Arr([]));
    GetFirst(r, i + 1);
  }

  // ---------------------------------------------------------------------
  // _deduplicate_list

  /** The fields whose first truthy value identifies an item. */
  const KeyFields: seq<string> := ["level_name", "domain", "name", "type"]

  /** `f.get(keys[0]) or f.get(keys[1]) or … or fallback` */
  function FirstTruthy(f: Dict<Value>, keys: seq<string>, fallback: Value): (r: Value)
    ensures (forall i | 0 <= i < |keys| :: !Truthy(Validator.GetOr(f, keys[i], Null))) ==> r == fallback
    ensures r == fallback || exists i | 0 <= i < |keys| ::
      r == Validator.GetOr(f, keys[i], Null) && Truthy(r) &&
      forall j | 0 <= j < i :: !Truthy(Validator.GetOr(f, keys[j], Null))
  {
    if keys == [] then fallback
    else if Truthy(Validator.GetOr(f, keys[0], Null)) then Validator.GetOr(f, keys[0], Null)
    else
      var r := FirstTruthy(f, keys[1..], fallback);
      assert forall i | 0 <= i < |keys| - 1 :: keys[1..][i] == keys[i + 1];
      r
  }

  /** The key `_deduplicate_list` files an item under, up to Python's `==`:
      the first truthy of its `level_name`, `domain`, `name` and `type`, else
      `str(item)`. An item that is not a dict has none (it raises). */
  function DedupKey(item: Value): Value {
    if item.Obj? then Canon(FirstTruthy(item.fields, KeyFields, Str(Repr(item)))) else Null
  }

  /** `item.get` raises on an item that is not a dict, and `key not in seen`
      on a key that is not hashable. */
  predicate KeyRaises(item: Value) {
    !item.Obj? || !Hashable(DedupKey(item))
  }

  /** No item of `items` makes `_deduplicate_list` raise. */
  predicate NoneRaise(items: seq<Value>) {
    forall i | 0 <= i < |items| :: !KeyRaises(items[i])
  }

  /** `_deduplicate_list(items)`: the first item of every key, in order. */
  function DedupList(items: seq<Value>): (r: Result<seq<Value>>)
    ensures r.Ok? <==> NoneRaise(items)
  {
    if !NoneRaise(items) then Raised
    else Ok(DedupFrom(items, DedupKey, {}))
  }

  /** The deduplicated list is an order-preserving subsequence of the items
      with pairwise distinct keys; it keeps the first item of every key and
      nothing else, and has every key of the items. */
  lemma DedupListSpec(items: seq<Value>)
    requires DedupList(items).Ok?
    ensures var r := DedupList(items).value;
      && IsSubsequence(r, items)
      && DistinctKeys(r, DedupKey)
      && KeySet(r, DedupKey) == KeySet(items, DedupKey)
      && (forall i | 0 <= i < |items| && FirstWithKey(items, DedupKey, i) :: items[i] in r)
      && (forall x | x in r :: exists i | 0 <= i < |items| :: items[i] == x && FirstWithKey(items, DedupKey, i))
  {
    var r := DedupList(items).value;
    DedupSubsequence(items, DedupKey, {});
    DedupKeys(items, DedupKey, {});
    forall i | 0 <= i < |items| && FirstWithKey(items, DedupKey, i) ensures items[i] in r {
      DedupKeepsFirst(items, DedupKey, {}, i);
    }
    forall x | x in r ensures exists i | 0 <= i < |items| :: items[i] == x && FirstWithKey(items, DedupKey, i) {
      DedupOnlyFirst(items, DedupKey, {}, x);
    }
  }

  /** `_deduplicate_list` as the source writes it: a `seen` set and an
      `unique` list grown in one pass. */
  method DeduplicateList(items: seq<Value>) returns (r: Result<seq<Value>>)
    ensures r == DedupList(items)
  {
    var seen: set<Value> := {};
    var unique: seq<Value> := [];
    for i := 0 to |items|
      invariant unique + DedupFrom(items[i..], DedupKey, seen) == DedupFrom(items, DedupKey, {})
      invariant NoneRaise(items[..i])
    {
      var item := items[i];
      if KeyRaises(item) {
        return Raised;
      }
      var key := DedupKey(item);
      ghost var goal := DedupFrom(items, DedupKey, {});
      DedupLoopStep(items, DedupKey, i, seen, unique, goal);
      if key !in seen {
        seen := seen + {key};
        unique := unique + [item];
      }
      assert unique + DedupFrom(items[i + 1..], DedupKey, seen) == goal;
      PrefixStep(items, i);
    }
    assert items[|items|..] == [];
    assert unique + DedupFrom(items[|items|..], DedupKey, seen) == unique;
    assert items[..|items|] == items;
    assert DedupList(items) == Ok(DedupFrom(items, DedupKey, {}));
    return Ok(unique);
  }

  // ---------------------------------------------------------------------
  // _merge_extractions on values

  /** What one later chunk adds to the list at `k`: the items of a truthy
      value (`extend` takes any iterable), nothing for an absent or falsy
      one. */
  function Contribution(ext: Dict<Value>, k: string): seq<Value> {
    match Get(ext, k)
    case None => []
    case Some(v) => if Truthy(v) && Iter(v).Ok? then Iter(v).value else []
  }

  /** The list at `k`, or nothing. */
  function ListAt(m: Dict<Value>, k: string): seq<Value> {
    if Get(m, k).Some? && Get(m, k).value.Arr? then Get(m, k).value.items else []
  }

  /** One step of the inner loop: `merged[k].extend(ext[k])` when `ext[k]`
      is truthy, creating `merged[k] = []` first when it is absent. It
      raises when `merged[k]` is not a list or `ext[k]` not iterable. */
  function ExtendKey(m: Dict<Value>, ext: Dict<Value>, k: string): (r: Result<Dict<Value>>)
    ensures r.Raised? <==> (Get(ext, k).Some? && Truthy(Get(ext, k).value) &&
      ((Get(m, k).Some? && !Get(m, k).value.Arr?) || Iter(Get(ext, k).value).Raised?))
    ensures r.Ok? && IsDict(m) ==> IsDict(r.value)
  {
    match Get(ext, k)
    case None => Ok(m)
    case Some(v) =>
      if !Truthy(v) then Ok(m)
      else if Get(m, k).Some? && !Get(m, k).value.Arr? then Raised
      else match Iter(v)
        case Raised => Raised
        case Ok(add) =>
          Validator.PutIsDictIf(m, k, Arr(ListAt(m, k) + add));
          Ok(Put(m, k, Arr(ListAt(m, k) + add)))
  }

  /** `extend` appends the chunk's items to the list at `k` and changes no
      other key. */
  lemma ExtendKeyAt(m: Dict<Value>, ext: Dict<Value>, k: string, k': string)
    requires ExtendKey(m, ext, k).Ok?
    ensures Get(ExtendKey(m, ext, k).value, k') ==
      if k' == k && Contribution(ext, k) != [] then Some(Arr(ListAt(m, k) + Contribution(ext, k))) else Get(m, k')
  {
  }

  /** The inner loop over the keys for one later chunk: each key in turn,
      stopping at the first that raises. */
  function ExtendChunk(m: Dict<Value>, ext: Dict<Value>, keys: seq<string>): (r: Result<Dict<Value>>)
    ensures r.Ok? && IsDict(m) ==> IsDict(r.value)
    decreases keys
  {
    if keys == [] then Ok(m)
    else
      match ExtendKey(m, ext, keys[0])
      case Raised => Raised
      case Ok(m1) => ExtendChunk(m1, ext, keys[1..])
  }

  /** One later chunk appends its items to each of the keys, in any order
      since the keys are distinct. */
  lemma {:induction false} ExtendChunkAt(m: Dict<Value>, ext: Dict<Value>, keys: seq<string>, k: string)
    requires Distinct(keys) && ExtendChunk(m, ext, keys).Ok?
    ensures Get(ExtendChunk(m, ext, keys).value, k) ==
      if k in keys && Contribution(ext, k) != [] then Some(Arr(ListAt(m, k) + Contribution(ext, k))) else Get(m, k)
    decreases keys
  {
    if keys != [] {
      var rest := keys[1..];
      var m1 := ExtendKey(m, ext, keys[0]).value;
      assert Distinct(rest) by {
        forall i, j | 0 <= i < j < |rest| ensures rest[i] != rest[j] {
          assert rest[i] == keys[i + 1] && rest[j] == keys[j + 1];
        }
      }
      ExtendKeyAt(m, ext, keys[0], k);
      ExtendChunkAt(m1, ext, rest, k);
      if k == keys[0] {
        assert k !in rest by {
          forall i | 0 <= i < |rest| ensures rest[i] != k {
            assert rest[i] == keys[i + 1];
          }
        }
      } else {
        assert k in keys <==> k in rest;
      }
    }
  }

  /** The outer loop over the later chunks. */
  function ExtendAll(m: Dict<Value>, exts: seq<Dict<Value>>): (r: Result<Dict<Value>>)
    ensures r.Ok? && IsDict(m) ==> IsDict(r.value)
    decreases exts
  {
    if exts == [] then Ok(m)
    else
      match ExtendChunk(m, exts[0], MergedKeys)
      case Raised => Raised
      case Ok(m1) => ExtendAll(m1, exts[1..])
  }

  /** What all the later chunks add to the list at `k`, in chunk order. */
  function Added(exts: seq<Dict<Value>>, k: string): seq<Value> {
    if exts == [] then [] else Contribution(exts[0], k) + Added(exts[1..], k)
  }

  /** The value at `k` once the later chunks are appended to `base`: the
      base list followed by everything they add, if they add anything. */
  function Extended(base: Dict<Value>, exts: seq<Dict<Value>>, k: string): Option<Value> {
    if k in MergedKeys && Added(exts, k) != [] then Some(Arr(ListAt(base, k) + Added(exts, k))) else Get(base, k)
  }

  /** After the extend loops each of the five lists is the base record's
      list followed by the later chunks' items in chunk order, and every
      other key keeps its value. */
  lemma {:induction false} ExtendAllAt(m: Dict<Value>, exts: seq<Dict<Value>>, k: string)
    requires ExtendAll(m, exts).Ok?
    ensures Get(ExtendAll(m, exts).value, k) == Extended(m, exts, k)
    decreases exts
  {
    if exts != [] {
      var ext := exts[0];
      var rest := exts[1..];
      MergedKeysDistinct();
      var m1 := ExtendChunk(m, ext, MergedKeys).value;
      ExtendChunkAt(m, ext, MergedKeys, k);
      ExtendAllAt(m1, rest, k);
      var c, a := Contribution(ext, k), Added(rest, k);
      assert Added(exts, k) == c + a;
      if k in MergedKeys {
        assert Get(m1, k) == if c != [] then Some(Arr(ListAt(m, k) + c)) else Get(m, k);
        ExtendedStep(m, m1, k, c, a);
      } else {
        assert Get(m1, k) == Get(m, k);
      }
    }
  }

  /** Extending by `c` and then by `a` is extending by `c + a`. */
  lemma ExtendedStep(m: Dict<Value>, m1: Dict<Value>, k: string, c: seq<Value>, a: seq<Value>)
    requires Get(m1, k) == if c != [] then Some(Arr(ListAt(m, k) + c)) else Get(m, k)
    ensures (if c + a != [] then Some(Arr(ListAt(m, k) + (c + a))) else Get(m, k))
         == (if a != [] then Some(Arr(ListAt(m1, k) + a)) else Get(m1, k))
  {
    if c != [] && a != [] {
      AppendAssoc(ListAt(m, k), c, a);
    } else if c == [] {
      assert c + a == a;
    } else {
      assert c + a == c;
    }
  }

  /** `_deduplicate_list(v)` stored back as a list. */
  function DedupValue(v: Value): (r: Result<Value>)
    ensures r.Ok? <==> Iter(v).Ok? && DedupList(Iter(v).value).Ok?
  {
    match Iter(v)
    case Raised => Raised
    case Ok(items) =>
      match DedupList(items)
      case Raised => Raised
      case Ok(d) => Ok(Arr(d))
  }

  /** `merged[k] = _deduplicate_list(merged[k])` when `k` is present. */
  function DedupField(m: Dict<Value>, k: string): (r: Result<Dict<Value>>)
    ensures r.Ok? && IsDict(m) ==> IsDict(r.value)
  {
    match Get(m, k)
    case None => Ok(m)
    case Some(v) =>
      match DedupValue(v)
      case Raised => Raised
      case Ok(w) =>
        Validator.PutIsDictIf(m, k, w);
        Ok(Put(m, k, w))
  }

  /** `DedupField` by cases on the value stored under `k`. */
  lemma DedupFieldOf(m: Dict<Value>, k: string)
    ensures Get(m, k).None? ==> DedupField(m, k) == Ok(m)
    ensures Get(m, k).Some? && DedupValue(Get(m, k).value).Raised? ==> DedupField(m, k) == Raised
    ensures Get(m, k).Some? && DedupValue(Get(m, k).value).Ok? ==>
      DedupField(m, k) == Ok(Put(m, k, DedupValue(Get(m, k).value).value))
  {
  }

  /** Deduplicating `k` replaces its value and nothing else. */
  lemma DedupFieldAt(m: Dict<Value>, k: string, k': string)
    requires DedupField(m, k).Ok?
    ensures k' == k && Get(m, k).Some? ==> DedupValue(Get(m, k).value).Ok?
    ensures Get(DedupField(m, k).value, k') ==
      if k' == k && Get(m, k).Some? then Some(DedupValue(Get(m, k).value).value) else Get(m, k')
  {
  }

  /** The dedup loop over the given sections, in order. */
  function DedupSections(m: Dict<Value>, keys: seq<string>): (r: Result<Dict<Value>>)
    ensures r.Ok? && IsDict(m) ==> IsDict(r.value)
    decreases keys
  {
    if keys == [] then Ok(m)
    else
      match DedupField(m, keys[0])
      case Raised => Raised
      case Ok(m1) => DedupSections(m1, keys[1..])
  }

  /** The dedup loop replaces each present section among distinct `keys`
      by its deduplicated list and changes nothing else. */
  lemma {:induction false} DedupSectionsAt(m: Dict<Value>, keys: seq<string>, k: string)
    requires Distinct(keys) && DedupSections(m, keys).Ok?
    ensures k !in keys || Get(m, k).None? ==> Get(DedupSections(m, keys).value, k) == Get(m, k)
    ensures k in keys && Get(m, k).Some? ==>
      DedupValue(Get(m, k).value).Ok? && Get(DedupSections(m, keys).value, k) == Some(DedupValue(Get(m, k).value).value)
    decreases keys
  {
    if keys != [] {
      var rest := keys[1..];
      var m1 := DedupField(m, keys[0]).value;
      assert Distinct(rest) by {
        forall i, j | 0 <= i < j < |rest| ensures rest[i] != rest[j] {
          assert rest[i] == keys[i + 1] && rest[j] == keys[j + 1];
        }
      }
      DedupFieldAt(m, keys[0], k);
      DedupSectionsAt(m1, rest, k);
      if k == keys[0] {
        assert k !in rest by {
          forall i | 0 <= i < |rest| ensures rest[i] != k {
            assert rest[i] == keys[i + 1];
          }
        }
      } else {
        assert k in keys <==> k in rest;
      }
    }
  }

  /** The dedup loop over the three deduplicated sections. */
  function DedupAll(m: Dict<Value>): (r: Result<Dict<Value>>)
    ensures r.Ok? && IsDict(m) ==> IsDict(r.value)
  {
    DedupSections(m, DeduplicatedKeys)
  }

  /** `_merge_extractions` on the records' values: the default record for
      no chunks, the one chunk itself, else the first chunk extended by the
      later ones, three of its lists deduplicated. */
  function MergeValues(views: seq<Dict<Value>>): (r: Result<Dict<Value>>)
    ensures views == [] ==> r == Ok(DefaultExtraction())
    ensures |views| == 1 ==> r == Ok(views[0])
    ensures |views| >= 2 && r.Ok? && IsDict(views[0]) ==> IsDict(r.value)
  {
    if views == [] then Ok(DefaultExtraction())
    else if |views| == 1 then Ok(views[0])
    else
      match ExtendAll(views[0], views[1..])
      case Raised => Raised
      case Ok(m) => DedupAll(m)
  }

  /** A merge of several chunks: `evaluation_requirements`, `commitments`
      and every key outside the five lists hold the concatenated (or
      untouched) value, duplicates kept; the three deduplicated sections
      hold that value deduplicated. */
  lemma MergeAt(views: seq<Dict<Value>>, k: string)
    requires |views| >= 2 && MergeValues(views).Ok?
    ensures var e := Extended(views[0], views[1..], k);
      k !in DeduplicatedKeys || e.None? ==> Get(MergeValues(views).value, k) == e
    ensures var e := Extended(views[0], views[1..], k);
      k in DeduplicatedKeys && e.Some? ==>
        DedupValue(e.value).Ok? && Get(MergeValues(views).value, k) == Some(DedupValue(e.value).value)
  {
    var m := ExtendAll(views[0], views[1..]).value;
    assert MergeValues(views) == DedupAll(m);
    ExtendAllAt(views[0], views[1..], k);
    DeduplicatedKeysDistinct();
    DedupSectionsAt(m, DeduplicatedKeys, k);
  }

  /** Each deduplicated section of a merge is an order-preserving
      subsequence of the concatenated lists with pairwise distinct keys,
      keeping the first item of every key. */
  lemma MergeDeduplicates(views: seq<Dict<Value>>, k: string)
    requires |views| >= 2 && MergeValues(views).Ok?
    requires k in DeduplicatedKeys && Added(views[1..], k) != []
    ensures Get(MergeValues(views).value, k).Some? && Get(MergeValues(views).value, k).value.Arr?
    ensures var all := ListAt(views[0], k) + Added(views[1..], k);
      var d := Get(MergeValues(views).value, k).value.items;
      && IsSubsequence(d, all)
      && DistinctKeys(d, DedupKey)
      && (forall i | 0 <= i < |all| && FirstWithKey(all, DedupKey, i) :: all[i] in d)
  {
    var all := ListAt(views[0], k) + Added(views[1..], k);
    assert k in MergedKeys;
    MergeAt(views, k);
    assert Iter(Arr(all)) == Ok(all);
    DedupListSpec(all);
  }

  // ---------------------------------------------------------------------
  // _merge_extractions on list objects

  /** A Python list object. The merge's base record is a shallow copy of
      the first chunk, so the first chunk and the merge share its lists and
      `extend` changes both. */
  class ListObj {
    var items: seq<Value>

    constructor(xs: seq<Value>)
      ensures items == xs
    {
      items := xs;
    }

    /** `list.extend(xs)` */
    method Extend(xs: seq<Value>)
      modifies this
      ensures items == old(items) + xs
    {
      items := items + xs;
    }
  }

  /** A top-level value of a parsed record: a list object or any other
      JSON value. */
  datatype Field = ListField(list: ListObj) | Plain(v: Value)

  /** A parsed record, whose top-level lists are objects. */
  type Chunk = Dict<Field>

  /** A field as a JSON value in the current heap. */
  function FieldView(f: Field): Value
    reads if f.ListField? then {f.list} else {}
  {
    if f.ListField? then Arr(f.list.items) else f.v
  }

  /** The list objects a record holds. */
  function Refs(c: Chunk): set<ListObj> {
    set i | 0 <= i < |c| && c[i].1.ListField? :: c[i].1.list
  }

  /** A record as a JSON value in the current heap. */
  function ViewOf(c: Chunk): (r: Dict<Value>)
    reads Refs(c)
    ensures |r| == |c| && forall i | 0 <= i < |c| :: r[i] == (c[i].0, FieldView(c[i].1))
  {
    seq(|c|, i requires 0 <= i < |c| reads Refs(c) => (c[i].0, FieldView(c[i].1)))
  }

  /** The list objects of all the records. */
  function AllRefs(cs: seq<Chunk>): set<ListObj> {
    set i, l | 0 <= i < |cs| && l in Refs(cs[i]) :: l
  }

  /** The records as JSON values in the current heap. */
  function Views(cs: seq<Chunk>): (r: seq<Dict<Value>>)
    reads AllRefs(cs)
    ensures |r| == |cs| && forall i | 0 <= i < |cs| :: r[i] == ViewOf(cs[i])
  {
    seq(|cs|, i requires 0 <= i < |cs| reads AllRefs(cs) => ViewOf(cs[i]))
  }

  /** What `json.loads` gives: distinct keys, every top-level list a list
      object, and no list object held under two keys. */
  predicate Parsed(c: Chunk) {
    && IsDict(c)
    && (forall i | 0 <= i < |c| && c[i].1.Plain? :: !c[i].1.v.Arr?)
    && (forall i, j | 0 <= i < j < |c| && c[i].1.ListField? && c[j].1.ListField? :: c[i].1.list != c[j].1.list)
  }

  /** `d.get(k)` on a record, read as JSON. */
  lemma GetView(c: Chunk, k: string)
    ensures Get(ViewOf(c), k) == if Get(c, k).Some? then Some(FieldView(Get(c, k).value)) else None
  {
    var v := ViewOf(c);
    if Get(c, k).Some? {
      var i :| 0 <= i < |c| && c[i] == (k, Get(c, k).value) && forall j | 0 <= j < i :: c[j].0 != k;
      GetFirst(v, i);
    }
  }

  /** The default record over the given list objects. */
  function DefaultChunk(ct: ListObj, rd: ListObj, sg: ListObj, er: ListObj, cm: ListObj): Chunk {
    [("lab_info", Plain(Obj([]))), ("capability_thresholds", ListField(ct)),
     ("risk_domains", ListField(rd)), ("safeguards", ListField(sg)),
     ("evaluation_requirements", ListField(er)), ("commitments", ListField(cm)),
     ("metadata", Plain(Obj([])))]
  }

  /** Over five distinct empty lists the default record is parsed and reads
      as `_default_extraction()`. */
  lemma DefaultChunkReads(ct: ListObj, rd: ListObj, sg: ListObj, er: ListObj, cm: ListObj)
    requires ct.items == rd.items == sg.items == er.items == cm.items == []
    requires ct != rd && ct != sg && ct != er && ct != cm && rd != sg && rd != er && rd != cm
    requires sg != er && sg != cm && er != cm
    ensures var r := DefaultChunk(ct, rd, sg, er, cm); Parsed(r) && ViewOf(r) == DefaultExtraction()
    ensures Refs(DefaultChunk(ct, rd, sg, er, cm)) <= {ct, rd, sg, er, cm}
  {
    var r := DefaultChunk(ct, rd, sg, er, cm);
    DefaultChunkRefs(ct, rd, sg, er, cm);
    var ks := Keys(DefaultExtraction());
    assert Keys(r) == ks;
    KeysListed(DefaultExtraction(), ks);
    KeysListed(r, ks);
  }

  /** The default record holds no list objects but the five given. */
  lemma DefaultChunkRefs(ct: ListObj, rd: ListObj, sg: ListObj, er: ListObj, cm: ListObj)
    ensures Refs(DefaultChunk(ct, rd, sg, er, cm)) <= {ct, rd, sg, er, cm}
  {
    var r := DefaultChunk(ct, rd, sg, er, cm);
    forall x | x in Refs(r) ensures x in {ct, rd, sg, er, cm} {
      var i :| 0 <= i < |r| && r[i].1.ListField? && r[i].1.list == x;
      assert 1 <= i <= 5;
    }
  }

  /** `_default_extraction()` with fresh list objects. */
  method NewDefault() returns (r: Chunk)
    ensures fresh(Refs(r))
    ensures Parsed(r) && ViewOf(r) == DefaultExtraction()
  {
    var ct := new ListObj([]);
    var rd := new ListObj([]);
    var sg := new ListObj([]);
    var er := new ListObj([]);
    var cm := new ListObj([]);
    DefaultChunkReads(ct, rd, sg, er, cm);
    r := DefaultChunk(ct, rd, sg, er, cm);
  }

  /** One step of the inner loop on list objects: `merged[k].extend(ext[k])`
      when `ext[k]` is truthy, on a new empty list when `merged` has no `k`.
      The list of `merged` is extended in place. */
  method ExtendOne(merged: Chunk, ext: Chunk, k: string) returns (r: Result<Chunk>)
    requires Parsed(merged) && Refs(ext) !! Refs(merged)
    modifies Refs(merged)
    ensures r.Raised? <==> ExtendKey(old(ViewOf(merged)), old(ViewOf(ext)), k).Raised?
    ensures r.Ok? ==> Parsed(r.value) && merged <= r.value && fresh(Refs(r.value) - Refs(merged))
    ensures r.Ok? ==> ViewOf(r.value) == ExtendKey(old(ViewOf(merged)), old(ViewOf(ext)), k).value
  {
    ghost var before := ViewOf(merged);
    ghost var expected := ExtendKey(before, ViewOf(ext), k);
    GetView(ext, k);
    GetView(merged, k);
    var f := Get(ext, k);
    if f.None? || !Truthy(FieldView(f.value)) {
      assert expected == Ok(before);
      return Ok(merged);
    }
    var cur := Get(merged, k);
    if cur.Some? && cur.value.Plain? {
      assert expected == Raised;
      return Raised;
    }
    var add := Iter(FieldView(f.value));
    if add.Raised? {
      assert expected == Raised;
      return Raised;
    }
    assert expected == Ok(Put(before, k, Arr(ListAt(before, k) + add.value)));
    var m := ExtendList(merged, k, add.value);
    r := Ok(m);
  }

  /** `merged.setdefault(k, []).extend(xs)` when `merged[k]` is absent or
      a list object. */
  method ExtendList(merged: Chunk, k: string, xs: seq<Value>) returns (m: Chunk)
    requires Parsed(merged) && (Get(merged, k).None? || Get(merged, k).value.ListField?)
    modifies Refs(merged)
    ensures Parsed(m) && merged <= m && fresh(Refs(m) - Refs(merged))
    ensures ViewOf(m) == Put(old(ViewOf(merged)), k, Arr(ListAt(old(ViewOf(merged)), k) + xs))
  {
    ghost var before := ViewOf(merged);
    GetView(merged, k);
    var cur := Get(merged, k);
    if cur.None? {
      assert ListAt(before, k) + xs == xs;
      m := AppendList(merged, k, xs);
    } else {
      assert ListAt(before, k) == cur.value.list.items;
      ghost var j :| 0 <= j < |merged| && merged[j] == (k, cur.value);
      ExtendAt(merged, j, cur.value.list, xs);
      m := merged;
    }
  }

  /** The inner loop of the merge on list objects: the five keys of one
      later chunk in turn. */
  method ExtendFrom(merged: Chunk, ext: Chunk) returns (r: Result<Chunk>)
    requires Parsed(merged) && Refs(ext) !! Refs(merged)
    modifies Refs(merged)
    ensures r.Raised? <==> ExtendChunk(old(ViewOf(merged)), old(ViewOf(ext)), MergedKeys).Raised?
    ensures r.Ok? ==> Parsed(r.value) && merged <= r.value && fresh(Refs(r.value) - Refs(merged))
    ensures r.Ok? ==> ViewOf(r.value) == ExtendChunk(old(ViewOf(merged)), old(ViewOf(ext)), MergedKeys).value
  {
    ghost var e := ViewOf(ext);
    ghost var goal := ExtendChunk(ViewOf(merged), e, MergedKeys);
    var keys := MergedKeys;
    var m := merged;
    for i := 0 to |keys|
      invariant Parsed(m) && merged <= m && fresh(Refs(m) - Refs(merged))
      invariant Refs(ext) !! Refs(m)
      invariant ViewOf(ext) == e
      invariant ExtendChunk(ViewOf(m), e, keys[i..]) == goal
    {
      ghost var v := ViewOf(m);
      assert keys[i..][1..] == keys[i + 1..];
      var step := ExtendOne(m, ext, keys[i]);
      if step.Raised? {
        return Raised;
      }
      m := step.value;
    }
    assert keys[|keys|..] == [];
    return Ok(m);
  }

  /** `merged[k] = []` then `merged[k].extend(xs)` for a missing key: a new
      list object at the end of the record. */
  method AppendList(merged: Chunk, k: string, xs: seq<Value>) returns (m: Chunk)
    requires Parsed(merged) && Get(merged, k).None?
    ensures Parsed(m) && merged <= m && fresh(Refs(m) - Refs(merged))
    ensures ViewOf(m) == Put(old(ViewOf(merged)), k, Arr(xs))
  {
    var l := new ListObj(xs);
    m := merged + [(k, ListField(l))];
    GetView(merged, k);
    PutAbsent(ViewOf(merged), k, Arr(xs));
    ViewAppend(merged, k, ListField(l));
    AppendParsed(merged, k, l);
  }

  /** `merged[k].extend(xs)` on the list object at index `j`: the record
      reads as before with that list extended. */
  method ExtendAt(merged: Chunk, ghost j: int, l: ListObj, xs: seq<Value>)
    requires Parsed(merged) && 0 <= j < |merged| && merged[j].1 == ListField(l)
    modifies l
    ensures ViewOf(merged) == Put(old(ViewOf(merged)), merged[j].0, Arr(old(l.items) + xs))
  {
    ghost var before := ViewOf(merged);
    ghost var x := (merged[j].0, Arr(l.items + xs));
    PutAt(before, j, Arr(l.items + xs));
    l.Extend(xs);
    forall i | 0 <= i < |merged| ensures ViewOf(merged)[i] == before[j := x][i] {
      if i != j && merged[i].1.ListField? {
        assert merged[i].1.list != l;
      }
    }
    assert ViewOf(merged) == before[j := x];
  }

  /** `merged[k] = _deduplicate_list(merged[k])` when `k` is present: a
      new list object replaces the old one, which keeps its items. */
  method DedupOne(m: Chunk, k: string) returns (r: Result<Chunk>)
    requires Parsed(m)
    ensures r.Raised? <==> DedupField(old(ViewOf(m)), k).Raised?
    ensures r.Ok? ==> Parsed(r.value) && ViewOf(r.value) == DedupField(old(ViewOf(m)), k).value
    ensures r.Ok? ==> forall k' | k' != k :: Get(r.value, k') == Get(m, k')
    ensures r.Ok? && Get(r.value, k).Some? ==> Get(r.value, k).value.ListField? && fresh(Get(r.value, k).value.list)
    ensures r.Ok? ==> fresh(Refs(r.value) - Refs(m))
  {
    var cur := Get(m, k);
    if cur.None? {
      GetView(m, k);
      DedupFieldOf(ViewOf(m), k);
      return Ok(m);
    }
    ghost var j :| 0 <= j < |m| && m[j] == (k, cur.value);
    r := DedupPresent(m, j, k, FieldView(cur.value));
  }

  /** `DedupOne` for a key present at index `j`, whose value reads as `v`. */
  method DedupPresent(m: Chunk, ghost j: int, k: string, v: Value) returns (r: Result<Chunk>)
    requires Parsed(m) && 0 <= j < |m| && m[j].0 == k && Get(m, k) == Some(m[j].1)
    requires FieldView(m[j].1) == v
    ensures r.Raised? <==> DedupField(old(ViewOf(m)), k).Raised?
    ensures r.Ok? ==> Parsed(r.value) && ViewOf(r.value) == DedupField(old(ViewOf(m)), k).value
    ensures r.Ok? ==> forall k' | k' != k :: Get(r.value, k') == Get(m, k')
    ensures r.Ok? ==> Get(r.value, k).Some? && Get(r.value, k).value.ListField? && fresh(Get(r.value, k).value.list)
    ensures r.Ok? ==> fresh(Refs(r.value) - Refs(m))
  {
    GetView(m, k);
    DedupFieldOf(ViewOf(m), k);
    var d := DedupItems(v);
    if d.Raised? {
      return Raised;
    }
    var m' := ReplaceList(m, j, k, d.value);
    r := Ok(m');
  }

  /** `_deduplicate_list(v)` on any value: its items deduplicated. */
  method DedupItems(v: Value) returns (r: Result<seq<Value>>)
    ensures r.Raised? <==> DedupValue(v).Raised?
    ensures r.Ok? ==> DedupValue(v) == Ok(Arr(r.value))
  {
    var items := Iter(v);
    if items.Raised? {
      return Raised;
    }
    r := DeduplicateList(items.value);
  }

  /** `merged[k] = xs` for a present key, as a new list object. */
  method ReplaceList(m: Chunk, ghost j: int, k: string, xs: seq<Value>) returns (r: Chunk)
    requires Parsed(m) && 0 <= j < |m| && m[j].0 == k
    ensures Parsed(r) && ViewOf(r) == Put(old(ViewOf(m)), k, Arr(xs))
    ensures forall k' | k' != k :: Get(r, k') == Get(m, k')
    ensures Get(r, k).Some? && Get(r, k).value.ListField? && fresh(Get(r, k).value.list)
    ensures fresh(Refs(r) - Refs(m))
  {
    var l := new ListObj(xs);
    PutAt(m, j, ListField(l));
    PutAt(ViewOf(m), j, Arr(xs));
    ViewReplace(m, j, ListField(l));
    ReplaceParsed(m, j, l);
    r := Put(m, k, ListField(l));
  }

  /** The dedup loop of the merge on list objects. */
  method DedupLists(merged: Chunk) returns (r: Result<Chunk>)
    requires Parsed(merged)
    ensures r.Raised? <==> DedupAll(old(ViewOf(merged))).Raised?
    ensures r.Ok? ==> Parsed(r.value) && ViewOf(r.value) == DedupAll(old(ViewOf(merged))).value
    ensures r.Ok? ==> forall k | k !in DeduplicatedKeys :: Get(r.value, k) == Get(merged, k)
    ensures r.Ok? ==> forall k | k in DeduplicatedKeys && Get(r.value, k).Some? ::
      Get(r.value, k).value.ListField? && fresh(Get(r.value, k).value.list)
  {
    ghost var goal := DedupAll(ViewOf(merged));
    var keys := DeduplicatedKeys;
    var m := merged;
    for i := 0 to |keys|
      invariant Parsed(m) && fresh(Refs(m) - Refs(merged))
      invariant DedupSections(ViewOf(m), keys[i..]) == goal
      invariant forall k | k !in keys[..i] :: Get(m, k) == Get(merged, k)
      invariant forall k | k in keys[..i] && Get(m, k).Some? :: Get(m, k).value.ListField? && fresh(Get(m, k).value.list)
    {
      assert keys[i..][1..] == keys[i + 1..];
      assert forall k :: k in keys[..i + 1] <==> k in keys[..i] || k == keys[i];
      var step := DedupOne(m, keys[i]);
      if step.Raised? {
        return Raised;
      }
      m := step.value;
    }
    assert keys[|keys|..] == [] && keys[..|keys|] == keys;
    return Ok(m);
  }

  /** `_merge_extractions` on list objects. No chunks give a fresh default
      record and one chunk is returned itself. Otherwise the merge is a
      shallow copy of the first chunk: its lists are extended in place, so
      afterwards the first chunk's own lists hold the concatenation, while
      the three deduplicated sections of the merge are new lists. */
  method MergeExtractions(chunks: seq<Chunk>) returns (r: Result<Chunk>)
    requires chunks != [] ==> Parsed(chunks[0])
    requires forall i | 1 <= i < |chunks| :: Refs(chunks[i]) !! Refs(chunks[0])
    modifies if chunks == [] then {} else Refs(chunks[0])
    ensures r.Raised? <==> MergeValues(old(Views(chunks))).Raised?
    ensures r.Ok? ==> ViewOf(r.value) == MergeValues(old(Views(chunks))).value
    ensures chunks == [] ==> r.Ok? && fresh(Refs(r.value))
    ensures |chunks| == 1 ==> r == Ok(chunks[0])
    ensures |chunks| >= 2 && r.Ok? ==> forall k | k in KeySetOf(chunks[0]) ::
      Get(ViewOf(chunks[0]), k) == Extended(old(ViewOf(chunks[0])), old(Views(chunks))[1..], k)
    ensures |chunks| >= 2 && r.Ok? ==> forall k | k in KeySetOf(chunks[0]) && k !in DeduplicatedKeys ::
      Get(r.value, k) == Get(chunks[0], k)
    ensures |chunks| >= 2 && r.Ok? ==> forall k | k in DeduplicatedKeys && Get(r.value, k).Some? ::
      Get(r.value, k).value.ListField? && fresh(Get(r.value, k).value.list)
  {
    if chunks == [] {
      var d := NewDefault();
      return Ok(d);
    }
    if |chunks| == 1 {
      return Ok(chunks[0]);
    }
    r := MergeSeveral(chunks);
  }

  /** `_merge_extractions` of two or more chunks. */
  method MergeSeveral(chunks: seq<Chunk>) returns (r: Result<Chunk>)
    requires |chunks| >= 2 && Parsed(chunks[0])
    requires forall i | 1 <= i < |chunks| :: Refs(chunks[i]) !! Refs(chunks[0])
    modifies Refs(chunks[0])
    ensures r.Raised? <==> MergeValues(old(Views(chunks))).Raised?
    ensures r.Ok? ==> ViewOf(r.value) == MergeValues(old(Views(chunks))).value
    ensures r.Ok? ==> forall k | k in KeySetOf(chunks[0]) ::
      Get(ViewOf(chunks[0]), k) == Extended(old(ViewOf(chunks[0])), old(Views(chunks))[1..], k)
    ensures r.Ok? ==> forall k | k in KeySetOf(chunks[0]) && k !in DeduplicatedKeys ::
      Get(r.value, k) == Get(chunks[0], k)
    ensures r.Ok? ==> forall k | k in DeduplicatedKeys && Get(r.value, k).Some? ::
      Get(r.value, k).value.ListField? && fresh(Get(r.value, k).value.list)
  {
    ghost var views := Views(chunks);
    var ext := ExtendChunks(chunks);
    if ext.Raised? {
      return Raised;
    }
    var merged := ext.value;
    FirstChunkExtended(chunks[0], merged, views[0], views[1..]);
    ghost var first := ViewOf(chunks[0]);
    r := DedupLists(merged);
    assert ViewOf(chunks[0]) == first;
    if r.Ok? {
      forall k | k in KeySetOf(chunks[0]) && k !in DeduplicatedKeys ensures Get(r.value, k) == Get(chunks[0], k) {
        GetPrefix(chunks[0], merged, k);
      }
    }
  }

  /** After the extend loop the first chunk's own lists hold the
      concatenations too, since the merge shares them. */
  lemma FirstChunkExtended(c0: Chunk, merged: Chunk, base: Dict<Value>, exts: seq<Dict<Value>>)
    requires c0 <= merged && ExtendAll(base, exts).Ok? && ViewOf(merged) == ExtendAll(base, exts).value
    ensures forall k | k in KeySetOf(c0) :: Get(ViewOf(c0), k) == Extended(base, exts, k)
  {
    forall k | k in KeySetOf(c0) ensures Get(ViewOf(c0), k) == Extended(base, exts, k) {
      ViewPrefix(c0, merged);
      GetView(c0, k);
      GetPrefix(ViewOf(c0), ViewOf(merged), k);
      ExtendAllAt(base, exts, k);
    }
  }

  /** The extend loop of the merge: every later chunk extends a shallow
      copy of the first one, in order. */
  method ExtendChunks(chunks: seq<Chunk>) returns (r: Result<Chunk>)
    requires |chunks| >= 2 && Parsed(chunks[0])
    requires forall i | 1 <= i < |chunks| :: Refs(chunks[i]) !! Refs(chunks[0])
    modifies Refs(chunks[0])
    ensures r.Raised? <==> ExtendAll(old(Views(chunks))[0], old(Views(chunks))[1..]).Raised?
    ensures r.Ok? ==> Parsed(r.value) && chunks[0] <= r.value && fresh(Refs(r.value) - Refs(chunks[0]))
    ensures r.Ok? ==> ViewOf(r.value) == ExtendAll(old(Views(chunks))[0], old(Views(chunks))[1..]).value
  {
    ghost var views := Views(chunks);
    var merged := chunks[0];
    var n := 1;
    while n < |chunks|
      invariant 1 <= n <= |chunks|
      invariant Parsed(merged) && chunks[0] <= merged && fresh(Refs(merged) - Refs(chunks[0]))
      invariant forall i | 1 <= i < |chunks| :: ViewOf(chunks[i]) == views[i]
      invariant ExtendAll(ViewOf(merged), views[n..]) == ExtendAll(views[0], views[1..])
    {
      assert Refs(chunks[n]) !! Refs(merged);
      assert views[n..][1..] == views[n + 1..];
      var step := ExtendFrom(merged, chunks[n]);
      if step.Raised? {
        return Raised;
      }
      merged := step.value;
      n := n + 1;
    }
    assert views[|chunks|..] == [];
    return Ok(merged);
  }

  /** Replacing an entry's value replaces its view. */
  lemma ViewReplace(c: Chunk, j: int, f: Field)
    requires 0 <= j < |c|
    ensures ViewOf(c[j := (c[j].0, f)]) == ViewOf(c)[j := (c[j].0, FieldView(f))]
  {
  }

  /** A prefix of a record reads as a prefix of its view. */
  lemma ViewPrefix(a: Chunk, b: Chunk)
    requires a <= b
    ensures ViewOf(a) <= ViewOf(b)
  {
    assert forall i | 0 <= i < |a| :: a[i] == b[i];
  }

  /** A fresh list object in place of the entry at `j` keeps a record
      parsed. */
  lemma ReplaceParsed(c: Chunk, j: int, l: ListObj)
    requires Parsed(c) && 0 <= j < |c| && l !in Refs(c)
    ensures Parsed(c[j := (c[j].0, ListField(l))])
    ensures Refs(c[j := (c[j].0, ListField(l))]) <= Refs(c) + {l}
  {
    var m := c[j := (c[j].0, ListField(l))];
    forall i | 0 <= i < |c| && c[i].1.ListField? ensures c[i].1.list != l {
      assert c[i].1.list in Refs(c);
    }
    forall x | x in Refs(m) ensures x in Refs(c) + {l} {
      var i :| 0 <= i < |m| && m[i].1.ListField? && m[i].1.list == x;
      if i != j {
        assert c[i].1.list == x;
      }
    }
  }

  /** Appending an entry appends its view. */
  lemma ViewAppend(c: Chunk, k: string, f: Field)
    ensures ViewOf(c + [(k, f)]) == ViewOf(c) + [(k, FieldView(f))]
  {
    var m := c + [(k, f)];
    assert forall i | 0 <= i < |c| :: m[i] == c[i];
  }

  /** A new key with a list object not yet held keeps a record parsed,
      and adds just that object. */
  lemma AppendParsed(c: Chunk, k: string, l: ListObj)
    requires Parsed(c) && Get(c, k).None? && l !in Refs(c)
    ensures Parsed(c + [(k, ListField(l))])
    ensures Refs(c + [(k, ListField(l))]) == Refs(c) + {l}
  {
    var m := c + [(k, ListField(l))];
    forall i | 0 <= i < |c| && c[i].1.ListField? ensures c[i].1.list != l {
      assert c[i].1.list in Refs(c);
    }
    assert forall i | 0 <= i < |c| :: m[i] == c[i];
    forall x | x in Refs(m) ensures x in Refs(c) + {l} {
      var i :| 0 <= i < |m| && m[i].1.ListField? && m[i].1.list == x;
      if i < |c| {
        assert c[i].1.list == x;
      }
    }
    forall x | x in Refs(c) + {l} ensures x in Refs(m) {
      if x == l {
        assert m[|c|].1.list == x;
      } else {
        var i :| 0 <= i < |c| && c[i].1.ListField? && c[i].1.list == x;
        assert m[i].1.list == x;
      }
    }
  }
}
