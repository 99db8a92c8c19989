/** JSON-like Python values: the dictionaries and lists that extraction
    records and exported reports are made of. An object keeps its keys in
    insertion order. */
module Json {
  import opened Optional
  import opened Dicts
  import opened Strings

  /** The outcome of Python code that may raise: a value, or an exception
      (`AttributeError`, `TypeError`, ...) that propagates to the caller. */
  datatype Result<+T> = Ok(value: T) | Raised

  datatype Value =
    | Null
    | Bool(b: bool)
    | Num(n: int)
    | Str(s: string)
    | Arr(items: seq<Value>)
    | Obj(fields: seq<(string, Value)>)

  /** A list of strings as a JSON list. */
  function Strs(xs: seq<string>): (r: seq<Value>)
    ensures |r| == |xs| && forall i | 0 <= i < |xs| :: r[i] == Str(xs[i])
  {
    seq(|xs|, i requires 0 <= i < |xs| => Str(xs[i]))
  }

  /** The strings of a JSON list of strings, or `None` when an item is not a string. */
  function AsStrs(vs: seq<Value>): (r: Option<seq<string>>)
    ensures r.Some? ==> |r.value| == |vs| && forall i | 0 <= i < |vs| :: vs[i] == Str(r.value[i])
  {
    if vs == [] then Some([])
    else if !vs[0].Str? then None
    else
      match AsStrs(vs[1..])
      case None => None
      case Some(rest) => Some([vs[0].s] + rest)
  }

  lemma {:induction false} AsStrsOfStrs(xs: seq<string>)
    ensures AsStrs(Strs(xs)) == Some(xs)
  {
    if xs != [] {
      assert Strs(xs)[1..] == Strs(xs[1..]);
      AsStrsOfStrs(xs[1..]);
      assert xs == [xs[0]] + xs[1..];
    }
  }

  /** An optional string as JSON: `None` becomes `null`. */
  function NullOr(o: Option<string>): Value {
    match o
    case None => Null
    case Some(s) => Str(s)
  }

  /** The inverse of `NullOr`; `None` when the value is neither null nor a string. */
  function AsNullOr(v: Value): (r: Option<Option<string>>)
    ensures forall o :: r == Some(o) <==> v == NullOr(o)
  {
    match v
    case Null => Some(None)
    case Str(s) => Some(Some(s))
    case _ => None
  }

  /** The string stored under `k` in an object's fields. */
  function StrField(fields: seq<(string, Value)>, k: string): (r: Option<string>)
    ensures r.Some? <==> Get(fields, k).Some? && Get(fields, k).value.Str?
    ensures r.Some? ==> Get(fields, k) == Some(Str(r.value))
  {
    var got: Option<Value> := Get(fields, k);
    match got
    case Some(Str(s)) => Some(s)
    case _ => None
  }

  /** The list stored under `k` in an object's fields. */
  function ArrField(fields: seq<(string, Value)>, k: string): (r: Option<seq<Value>>)
    ensures r.Some? <==> Get(fields, k).Some? && Get(fields, k).value.Arr?
    ensures r.Some? ==> Get(fields, k) == Some(Arr(r.value))
  {
    var got: Option<Value> := Get(fields, k);
    match got
    case Some(Arr(vs)) => Some(vs)
    case _ => None
  }

  /** A well-formed value: every object has distinct keys, as Python dicts do. */
  predicate Wf(v: Value)
    decreases v
  {
    match v
    case Arr(items) => forall i | 0 <= i < |items| :: Wf(items[i])
    case Obj(fields) => IsDict(fields) && forall i | 0 <= i < |fields| :: Wf(fields[i].1)
    case _ => true
  }

  /** Python truthiness: `None`, `False`, `0` and empty strings, lists and
      dicts are false. */
  predicate Truthy(v: Value) {
    match v
    case Null => false
    case Bool(b) => b
    case Num(n) => n != 0
    case Str(s) => s != []
    case Arr(items) => items != []
    case Obj(fields) => fields != []
  }

  /** What `for x in v` visits: the items of a list, the keys of a dict, the
      one-character strings of a string; other values are not iterable. */
  function Iter(v: Value): (r: Result<seq<Value>>)
    ensures r.Ok? <==> v.Arr? || v.Obj? || v.Str?
    ensures v.Arr? ==> r == Ok(v.items)
    ensures r.Ok? ==> (r.value == [] <==> !Truthy(v))
    ensures r.Ok? && !v.Arr? ==> forall i | 0 <= i < |r.value| :: r.value[i].Str?
  {
    match v
    case Arr(items) => Ok(items)
    case Obj(fields) => Ok(Strs(Keys(fields)))
    case Str(s) => Ok(seq(|s|, i requires 0 <= i < |s| => Str([s[i]])))
    case _ => Raised
  }

  /** Lists and dicts cannot be set members or set keys (`TypeError`). */
  predicate Hashable(v: Value) {
    !v.Arr? && !v.Obj?
  }

  /** The representative of a hashable value under Python's `==`:
      `True == 1` and `False == 0`. */
  function Canon(v: Value): (r: Value)
    ensures !r.Bool? && Hashable(r) == Hashable(v)
    ensures v.Str? || v.Null? ==> r == v
  {
    match v
    case Bool(b) => Num(if b then 1 else 0)
    case _ => v
  }

  /** `str(n)` for an integer. */
  function IntToString(n: int): string {
    if n < 0 then "-" + NatToString(-n) else NatToString(n)
  }

  /** `str(v)` for a value that is not a list or a dict. */
  function Show(v: Value): (r: string)
    ensures v.Str? ==> r == v.s
  {
    match v
    case Null => "None"
    case Bool(b) => if b then "True" else "False"
    case Num(n) => IntToString(n)
    case Str(s) => s
    case _ => Repr(v)
  }

  /** The characters of a string literal between its quotes, `q` being the
      quote: backslashes, the quote itself and line breaks and tabs escaped. */
  function Escaped(s: string, q: char): string {
    if s == [] then []
    else
      var c := s[0];
      (if c == '\\' || c == q then ['\\', c]
       else if c == '\n' then "\\n"
       else if c == '\r' then "\\r"
       else if c == '\t' then "\\t"
       else [c]) + Escaped(s[1..], q)
  }

  /** `repr(s)`: single quotes, unless the text has a single quote and no
      double quote. */
  function ReprStr(s: string): string {
    var q := if '\'' in s && '"' !in s then '"' else '\'';
    [q] + Escaped(s, q) + [q]
  }

  /** The texts joined with ", ". */
  function JoinComma(parts: seq<string>): string {
    if parts == [] then []
    else if |parts| == 1 then parts[0]
    else parts[0] + ", " + JoinComma(parts[1..])
  }

  /** `repr(v)`, which is also `str(v)` for lists and dicts. */
  function Repr(v: Value): string
    decreases v
  {
    match v
    case Null => "None"
    case Bool(b) => if b then "True" else "False"
    case Num(n) => IntToString(n)
    case Str(s) => ReprStr(s)
    case Arr(items) =>
      "[" + JoinComma(seq(|items|, i requires 0 <= i < |items| => Repr(items[i]))) + "]"
    case Obj(fields) =>
      "{" + JoinComma(seq(|fields|, i requires 0 <= i < |fields| => ReprStr(fields[i].0) + ": " + Repr(fields[i].1))) + "}"
  }

  /** A value stored in a well-formed object is well-formed. */
  lemma GetWf(d: Dict<Value>, k: string)
    requires Wf(Obj(d)) && Get(d, k).Some?
    ensures Wf(Get(d, k).value)
  {
    var i :| 0 <= i < |d| && d[i] == (k, Get(d, k).value) && forall j | 0 <= j < i :: d[j].0 != k;
  }

  /** What a loop over a well-formed value visits is well-formed. */
  lemma IterWf(v: Value)
    requires Wf(v) && Iter(v).Ok?
    ensures forall i | 0 <= i < |Iter(v).value| :: Wf(Iter(v).value[i])
  {
  }
}
