// JSON values as the Python scripts see them after json.load / yaml.safe_load,
// with the pieces of Python semantics the validators rely on: dict.get with a
// default, truthiness, equality with numbers, ordering comparisons, indexing
// with negative positions, slicing, iteration and str().
module Json {
  import opened Text

  datatype Option<T> = None | Some(value: T)

  /** Python's exception classes that the modelled code can raise. */
  datatype Exc = IndexError | TypeError | AttributeError | ValueError

  datatype Result<T> = Ok(value: T) | Err(exc: Exc)

  /** A dict is an association list in insertion order; the first entry for a key is the one read. */
  datatype Json =
    | JNull
    | JBool(b: bool)
    | JInt(i: int)
    | JFloat(r: real)
    | JStr(s: string)
    | JList(items: seq<Json>)
    | JObj(fields: seq<(string, Json)>)

  type Obj = seq<(string, Json)>

  function Find<V>(m: seq<(string, V)>, k: string): (r: Option<V>)
    ensures r.Some? <==> exists i :: 0 <= i < |m| && m[i].0 == k
  {
    if m == [] then None
    else if m[0].0 == k then Some(m[0].1)
    else
      var r := Find(m[1..], k);
      assert forall i :: 1 <= i < |m| ==> m[i] == m[1..][i - 1];
      r
  }

  /** The entry at `i` is the first with its key, so a lookup of that key finds its value. */
  lemma {:induction false} FindFirst<V>(m: seq<(string, V)>, i: nat)
    requires i < |m| && forall j :: 0 <= j < i ==> m[j].0 != m[i].0
    ensures Find(m, m[i].0) == Some(m[i].1)
  {
    if i > 0 {
      FindFirst(m[1..], i - 1);
    }
  }

  predicate HasKey<V>(m: seq<(string, V)>, k: string) {
    Find(m, k).Some?
  }

  function Keys<V>(m: seq<(string, V)>): (ks: seq<string>)
    ensures |ks| == |m|
    ensures forall i :: 0 <= i < |m| ==> ks[i] == m[i].0
  {
    if m == [] then [] else [m[0].0] + Keys(m[1..])
  }

  /**
   * Python `d[k] = v`: an existing key keeps its position and takes the new
   * value; a new key goes at the end.
   */
  function Put<V>(m: seq<(string, V)>, k: string, v: V): (r: seq<(string, V)>)
    ensures Find(r, k) == Some(v)
    ensures forall k' :: k' != k ==> Find(r, k') == Find(m, k')
  {
    if m == [] then [(k, v)]
    else if m[0].0 == k then
      FindConsAll((k, v), m[1..]);
      FindConsAll(m[0], m[1..]);
      [(k, v)] + m[1..]
    else
      var rest := Put(m[1..], k, v);
      FindConsAll(m[0], rest);
      FindConsAll(m[0], m[1..]);
      assert m == [m[0]] + m[1..];
      [m[0]] + rest
  }

  /** Assignment to an existing key keeps the key order; a new key goes at the end. */
  lemma {:induction false} PutPlacement<V>(m: seq<(string, V)>, k: string, v: V)
    ensures HasKey(m, k) ==> |Put(m, k, v)| == |m| && Keys(Put(m, k, v)) == Keys(m)
    ensures !HasKey(m, k) ==> Put(m, k, v) == m + [(k, v)]
  {
    if m != [] {
      FindConsAll(m[0], m[1..]);
      assert m == [m[0]] + m[1..];
      if m[0].0 == k {
        FindConsAll((k, v), m[1..]);
      } else {
        PutPlacement(m[1..], k, v);
        FindConsAll(m[0], Put(m[1..], k, v));
      }
    }
  }

  /** Looking up in a list with one more entry in front. */
  lemma FindConsAll<V>(p: (string, V), t: seq<(string, V)>)
    ensures forall k :: Find([p] + t, k) == if p.0 == k then Some(p.1) else Find(t, k)
    ensures Keys([p] + t) == [p.0] + Keys(t)
  {
    assert ([p] + t)[1..] == t;
  }

  /** Python `d.get(k, default)`. */
  function GetOr(o: Obj, k: string, default: Json): Json {
    match Find(o, k)
    case Some(v) => v
    case None => default
  }

  /** Python `d.get(k)`: None (JNull) when the key is missing. */
  function Get(o: Obj, k: string): Json {
    GetOr(o, k, JNull)
  }

  function KeysJson(o: Obj): Json {
    JList(StrList(Keys(o)))
  }

  function StrList(ss: seq<string>): (r: seq<Json>)
    ensures |r| == |ss|
    ensures forall i :: 0 <= i < |ss| ==> r[i] == JStr(ss[i])
  {
    if ss == [] then [] else [JStr(ss[0])] + StrList(ss[1..])
  }

  function IntList(ns: seq<int>): (r: seq<Json>)
    ensures |r| == |ns|
    ensures forall i :: 0 <= i < |ns| ==> r[i] == JInt(ns[i])
  {
    if ns == [] then [] else [JInt(ns[0])] + IntList(ns[1..])
  }

  /** Python truthiness. */
  predicate Truthy(j: Json) {
    match j
    case JNull => false
    case JBool(b) => b
    case JInt(i) => i != 0
    case JFloat(r) => r != 0.0
    case JStr(s) => s != ""
    case JList(xs) => xs != []
    case JObj(fs) => fs != []
  }

  /** bool, int and float are Python's numbers; bool counts as 0 or 1. */
  predicate IsNumber(j: Json) {
    j.JBool? || j.JInt? || j.JFloat?
  }

  function NumValue(j: Json): real
    requires IsNumber(j)
  {
    match j
    case JBool(b) => if b then 1.0 else 0.0
    case JInt(i) => i as real
    case JFloat(r) => r
  }

  /** Python `j == n` for an integer n. */
  predicate EqInt(j: Json, n: int) {
    IsNumber(j) && NumValue(j) == n as real
  }

  /** Python `j == "text"`. */
  predicate EqStr(j: Json, s: string) {
    j == JStr(s)
  }

  /** Python `a == b` where `a` is a number. */
  predicate EqNumber(a: Json, b: Json)
    requires IsNumber(a)
  {
    IsNumber(b) && NumValue(a) == NumValue(b)
  }

  predicate StrLess(a: string, b: string)
    decreases |a|
  {
    if a == [] then b != []
    else if b == [] then false
    else if a[0] != b[0] then a[0] < b[0]
    else StrLess(a[1..], b[1..])
  }

  /**
   * Python's three-way ordering of two values: numbers with numbers and
   * strings with strings; anything else raises TypeError.
   */
  function Compare(a: Json, b: Json): Result<int> {
    if IsNumber(a) && IsNumber(b) then
      Ok(if NumValue(a) < NumValue(b) then -1 else if NumValue(a) == NumValue(b) then 0 else 1)
    else if a.JStr? && b.JStr? then
      Ok(if StrLess(a.s, b.s) then -1 else if a.s == b.s then 0 else 1)
    else Err(TypeError)
  }

  /** Python `a > b`. */
  function Greater(a: Json, b: Json): Result<bool> {
    match Compare(a, b)
    case Ok(c) => Ok(c > 0)
    case Err(e) => Err(e)
  }

  /** Python `a < b`. */
  function Less(a: Json, b: Json): Result<bool> {
    match Compare(a, b)
    case Ok(c) => Ok(c < 0)
    case Err(e) => Err(e)
  }

  /** Python `a >= b`. */
  function AtLeast(a: Json, b: Json): Result<bool> {
    match Compare(a, b)
    case Ok(c) => Ok(c >= 0)
    case Err(e) => Err(e)
  }

  /** An index Python accepts: an int or a bool. */
  function AsIndex(j: Json): Result<int> {
    match j
    case JInt(i) => Ok(i)
    case JBool(b) => Ok(if b then 1 else 0)
    case _ => Err(TypeError)
  }

  /** Python `xs[i]` with an integer index: negative positions count from the end. */
  function At<T>(xs: seq<T>, i: int): (r: Result<T>)
    ensures r.Ok? <==> -|xs| <= i < |xs|
    ensures r.Ok? && i >= 0 ==> r.value == xs[i]
    ensures r.Ok? && i < 0 ==> r.value == xs[|xs| + i]
  {
    if 0 <= i < |xs| then Ok(xs[i])
    else if -|xs| <= i < 0 then Ok(xs[|xs| + i])
    else Err(IndexError)
  }

  /** Python `xs[j]` where the index is itself a JSON value. */
  function Index<T>(xs: seq<T>, j: Json): Result<T> {
    match AsIndex(j)
    case Ok(i) => At(xs, i)
    case Err(e) => Err(e)
  }

  /** Python `xs[:k]` for an integer k: a negative k drops |k| elements from the end. */
  function Prefix<T>(xs: seq<T>, k: int): (r: seq<T>)
    ensures k >= 0 ==> |r| == if k < |xs| then k else |xs|
    ensures |r| <= |xs| && r == xs[..|r|]
  {
    if k >= 0 then (if k < |xs| then xs[..k] else xs)
    else if |xs| + k > 0 then xs[..|xs| + k] else []
  }

  /** Python `xs[:j]`: None keeps everything, an int or bool cuts, anything else raises TypeError. */
  function Slice<T>(xs: seq<T>, j: Json): Result<seq<T>> {
    if j == JNull then Ok(xs)
    else match AsIndex(j)
      case Ok(k) => Ok(Prefix(xs, k))
      case Err(e) => Err(e)
  }

  /** Python `len(j)` for the values that have one. */
  function Len(j: Json): Result<nat> {
    match j
    case JStr(s) => Ok(|s|)
    case JList(xs) => Ok(|xs|)
    case JObj(fs) => Ok(|fs|)
    case _ => Err(TypeError)
  }

  /** What `for x in j` iterates over: list items, the characters of a string, the keys of a dict. */
  function Iterate(j: Json): Result<seq<Json>> {
    match j
    case JList(xs) => Ok(xs)
    case JStr(s) => Ok(seq(|s|, i requires 0 <= i < |s| => JStr([s[i]])))
    case JObj(fs) => Ok(StrList(Keys(fs)))
    case _ => Err(TypeError)
  }

  /** Python `[x for x in xs if x == <some index in ns>]`, by numeric equality. */
  function MembersOf(xs: seq<Json>, ns: seq<nat>): (r: seq<Json>)
    ensures forall x :: x in r ==> x in xs && exists n :: n in ns && EqInt(x, n)
    ensures forall x :: x in xs && (exists n :: n in ns && EqInt(x, n)) ==> x in r
    ensures |r| <= |xs|
  {
    if xs == [] then []
    else
      var rest := MembersOf(xs[1..], ns);
      assert forall x :: x in xs ==> x == xs[0] || x in xs[1..];
      if exists n :: n in ns && EqInt(xs[0], n) then [xs[0]] + rest else rest
  }

  /** Python type(j).__name__. */
  function TypeName(j: Json): string {
    match j
    case JNull => "NoneType"
    case JBool(_) => "bool"
    case JInt(_) => "int"
    case JFloat(_) => "float"
    case JStr(_) => "str"
    case JList(_) => "list"
    case JObj(_) => "dict"
  }

  /** The exception `format(j, ',')` raises: none for numbers and bools, ValueError for a str, TypeError otherwise. */
  function ThousandsFormatError(j: Json): Option<Exc> {
    if IsNumber(j) then None
    else if j.JStr? then Some(ValueError)
    else Some(TypeError)
  }

  /** Python type(e).__name__. */
  function ExcName(e: Exc): string {
    match e
    case IndexError => "IndexError"
    case TypeError => "TypeError"
    case AttributeError => "AttributeError"
    case ValueError => "ValueError"
  }

  /**
   * Python str(j), approximately. Strings inside containers are wrapped in
   * single quotes without repr's escaping or its choice of double quotes; a
   * float is written as its integer part plus ".0" when it is integral (also
   * at 1e16 and above, where Python switches to exponent notation) and as
   * the placeholder "<float>" otherwise.
   */
  function PyStr(j: Json): string {
    match j
    case JStr(s) => s
    case _ => Repr(j)
  }

  function Repr(j: Json): string
    decreases j, 1
  {
    match j
    case JNull => "None"
    case JBool(b) => if b then "True" else "False"
    case JInt(i) => IntToString(i)
    case JFloat(r) => if r.Floor as real == r then IntToString(r.Floor) + ".0" else "<float>"
    case JStr(s) => "'" + s + "'"
    case JList(xs) => "[" + ReprItems(xs, j) + "]"
    case JObj(fs) => "{" + ReprFields(fs, j) + "}"
  }

  function ReprItems(xs: seq<Json>, ghost parent: Json): string
    requires forall i :: 0 <= i < |xs| ==> xs[i] < parent
    decreases parent, 0, |xs|
  {
    if xs == [] then ""
    else if |xs| == 1 then Repr(xs[0])
    else Repr(xs[0]) + ", " + ReprItems(xs[1..], parent)
  }

  function ReprFields(fs: seq<(string, Json)>, ghost parent: Json): string
    requires forall i :: 0 <= i < |fs| ==> fs[i].1 < parent
    decreases parent, 0, |fs|
  {
    if fs == [] then ""
    else
      var entry := "'" + fs[0].0 + "': " + Repr(fs[0].1);
      if |fs| == 1 then entry else entry + ", " + ReprFields(fs[1..], parent)
  }
}
