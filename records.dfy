/**
 * The plain objects the four in-memory stores hold, and the table operations
 * they share: look a record up by `Id`, compute the next `Id` as
 * `Math.max(...ids) + 1`, overlay fields with object spread, and splice a
 * record out. Each store class states its methods in terms of these.
 */
module Records {
  import opened Text

  /** A field value. `NaN` comes from `parseInt` of a non-number, `NegInfinity` from `Math.max()` of no ids. */
  datatype Value =
    | Num(n: int)
    | Text(s: string)
    | List(items: seq<Value>)
    | NaN
    | NegInfinity
    | Null

  /** JavaScript truthiness: `""`, `0`, `NaN` and `null` are falsy; `undefined` is `None` and falsy too. */
  predicate Truthy(v: Option<Value>) {
    match v
    case None => false
    case Some(Num(n)) => n != 0
    case Some(Text(s)) => s != ""
    case Some(NaN) => false
    case Some(Null) => false
    case Some(_) => true
  }

  /**
   * `a === b`. `NaN` equals nothing, not even itself; two `undefined`s are equal.
   * Arrays are compared by contents here (the source compares them by reference).
   */
  predicate StrictEq(a: Option<Value>, b: Option<Value>) {
    a == b && a != Some(NaN)
  }

  /** `parseInt(s)` as a field value: the integer, or `NaN`. */
  function ParseIntValue(s: string): (v: Value)
    ensures v.Num? <==> ParseInt(s).Some?
    ensures v.Num? ==> ParseInt(s) == Some(v.n)
    ensures v.NaN? <==> ParseInt(s).None?
  {
    match ParseInt(s)
    case Some(n) => Num(n)
    case None => NaN
  }

  /**
   * The number a relational comparison such as `v >= 18` converts `v` to, or
   * None when that is `NaN` (and every comparison is false). `null` is 0, a
   * string goes through `Number`, `-Infinity` is below every bound the callers
   * use and so is reported as None as well; arrays are not converted.
   */
  function NumberValue(v: Option<Value>): Option<real> {
    match v
    case Some(Num(n)) => Some(n as real)
    case Some(Text(s)) => ToNumber(s)
    case Some(Null) => Some(0.0)
    case _ => None
  }

  /** A JavaScript object: field name to value. Object spread `{...a, ...b}` is the map union `a + b`. */
  type Record = map<string, Value>

  /** The outcome of a store call: the value, or the message of the error it throws. */
  datatype Result<T> = Ok(value: T) | Err(message: string)

  /** `r.field`, with None for `undefined`. */
  function Get(r: Record, field: string): Option<Value> {
    if field in r then Some(r[field]) else None
  }

  /** `v.toLowerCase().includes(t)` for a string field. */
  predicate TextIncludes(v: Option<Value>, t: string) {
    v.Some? && v.value.Text? && Contains(ToLower(v.value.s), t)
  }

  /** `r.Id === id` for a number id. */
  predicate HasId(r: Record, id: int) {
    "Id" in r && r["Id"] == Num(id)
  }

  /** The numeric Id of a record, if it has one. */
  function NumId(r: Record): Option<int> {
    if "Id" in r && r["Id"].Num? then Some(r["Id"].n) else None
  }

  /**
   * The store invariant: every record carries an Id that is a number or the
   * `-Infinity` an empty table hands out, and no two records share a number Id.
   */
  ghost predicate WellKeyed(s: seq<Record>) {
    && (forall i :: 0 <= i < |s| ==> "Id" in s[i] && (s[i]["Id"].Num? || s[i]["Id"].NegInfinity?))
    && (forall i, j :: 0 <= i < j < |s| && NumId(s[i]).Some? ==> NumId(s[i]) != NumId(s[j]))
  }

  /** `s.findIndex(r => r.Id === id)`: the first index holding `id`, or None for -1. */
  function FindIndex(s: seq<Record>, id: int): (r: Option<nat>)
    ensures r.Some? ==> r.value < |s| && HasId(s[r.value], id)
    ensures r.Some? ==> forall k :: 0 <= k < r.value ==> !HasId(s[k], id)
    ensures r.None? ==> forall k :: 0 <= k < |s| ==> !HasId(s[k], id)
  {
    if s == [] then None
    else if HasId(s[0], id) then Some(0)
    else match FindIndex(s[1..], id)
      case None => None
      case Some(k) => Some(k + 1)
  }

  /** The largest number Id in the table (`Math.max` ignores none, since every Id is a number or `-Infinity`). */
  function MaxNumId(s: seq<Record>): (m: Option<int>)
    ensures m.None? ==> forall k :: 0 <= k < |s| ==> NumId(s[k]).None?
    ensures m.Some? ==> exists k :: 0 <= k < |s| && NumId(s[k]) == m
    ensures m.Some? ==> forall k :: 0 <= k < |s| && NumId(s[k]).Some? ==> NumId(s[k]).value <= m.value
  {
    if s == [] then None
    else
      var last := NumId(s[|s| - 1]);
      var rest := MaxNumId(s[..|s| - 1]);
      assert forall k :: 0 <= k < |s| - 1 ==> s[..|s| - 1][k] == s[k];
      match rest
      case None => last
      case Some(a) =>
        if last.Some? && last.value > a then last else rest
  }

  /** `Math.max(...ids) + 1`: one past the largest number Id, or `-Infinity` when there is none. */
  function NextId(s: seq<Record>): (v: Value)
    ensures v.Num? ==> forall k :: 0 <= k < |s| ==> NumId(s[k]) != Some(v.n)
    ensures v.NegInfinity? <==> forall k :: 0 <= k < |s| ==> NumId(s[k]).None?
  {
    match MaxNumId(s)
    case None => NegInfinity
    case Some(m) => Num(m + 1)
  }

  /** `{ Id: id, ...data, ...stamp }`: the record a store appends on `create`. */
  function Created(id: Value, data: Record, stamp: Record): (r: Record)
    requires "Id" !in data && "Id" !in stamp
    ensures "Id" in r && r["Id"] == id
    ensures forall f :: f in data && f !in stamp ==> f in r && r[f] == data[f]
    ensures forall f :: f in stamp ==> f in r && r[f] == stamp[f]
    ensures r.Keys == {"Id"} + data.Keys + stamp.Keys
  {
    map["Id" := id] + data + stamp
  }

  /** `{ ...old, ...data, ...stamp }`: the record a store writes back on `update`. */
  function Merged(old_: Record, data: Record, stamp: Record): (r: Record)
    ensures forall f :: f in stamp ==> f in r && r[f] == stamp[f]
    ensures forall f :: f in data && f !in stamp ==> f in r && r[f] == data[f]
    ensures forall f :: f in old_ && f !in data && f !in stamp ==> f in r && r[f] == old_[f]
    ensures r.Keys == old_.Keys + data.Keys + stamp.Keys
  {
    old_ + data + stamp
  }

  /** `s.splice(i, 1)`: the table without position `i`, the rest in order. */
  function RemoveAt(s: seq<Record>, i: nat): (r: seq<Record>)
    requires i < |s|
    ensures |r| == |s| - 1
    ensures forall k :: 0 <= k < i ==> r[k] == s[k]
    ensures forall k :: i <= k < |r| ==> r[k] == s[k + 1]
  {
    s[..i] + s[i + 1..]
  }

  /** `r.athleteId === athleteId`: the record belongs to that athlete. */
  predicate OfAthlete(r: Record, athleteId: int) {
    Get(r, "athleteId") == Some(Num(athleteId))
  }

  /** Appending the record `create` builds keeps every Id present and the number Ids distinct. */
  lemma CreatedKeepsWellKeyed(s: seq<Record>, data: Record, stamp: Record)
    requires WellKeyed(s) && "Id" !in data && "Id" !in stamp
    ensures WellKeyed(s + [Created(NextId(s), data, stamp)])
  {
    var t := s + [Created(NextId(s), data, stamp)];
    forall i, j | 0 <= i < j < |t| && NumId(t[i]).Some?
      ensures NumId(t[i]) != NumId(t[j])
    {
      if j == |s| {
        assert t[i] == s[i];
      }
    }
  }

  /** Overlaying fields other than `Id` keeps the table well keyed. */
  lemma MergedKeepsWellKeyed(s: seq<Record>, i: nat, data: Record, stamp: Record)
    requires WellKeyed(s) && i < |s| && "Id" !in data && "Id" !in stamp
    ensures WellKeyed(s[i := Merged(s[i], data, stamp)])
  {
    var t := s[i := Merged(s[i], data, stamp)];
    assert forall k :: 0 <= k < |s| ==> NumId(t[k]) == NumId(s[k]);
  }

  /** Splicing a record out keeps the table well keyed. */
  lemma RemoveAtKeepsWellKeyed(s: seq<Record>, i: nat)
    requires WellKeyed(s) && i < |s|
    ensures WellKeyed(RemoveAt(s, i))
  {
    var t := RemoveAt(s, i);
    forall a, b | 0 <= a < b < |t| && NumId(t[a]).Some?
      ensures NumId(t[a]) != NumId(t[b])
    {
      var a' := if a < i then a else a + 1;
      var b' := if b < i then b else b + 1;
      assert t[a] == s[a'] && t[b] == s[b'];
    }
  }

  /** In a well-keyed table an Id is found at one position only, so `find` and `findIndex` agree on it. */
  lemma {:induction false} IdAtOnePosition(s: seq<Record>, id: int, k: nat)
    requires WellKeyed(s) && k < |s| && HasId(s[k], id)
    ensures FindIndex(s, id) == Some(k)
  {
  }

  /** After `create`, looking up the Id it assigned finds the new record. */
  lemma {:induction false} CreatedIsFound(s: seq<Record>, data: Record, stamp: Record)
    requires "Id" !in data && "Id" !in stamp && NextId(s).Num?
    ensures FindIndex(s + [Created(NextId(s), data, stamp)], NextId(s).n) == Some(|s|)
  {
    var t := s + [Created(NextId(s), data, stamp)];
    var f := FindIndex(t, NextId(s).n);
    assert HasId(t[|s|], NextId(s).n);
    assert forall k :: 0 <= k < |s| ==> t[k] == s[k];
  }

  /** After `delete` in a well-keyed table, the deleted Id is no longer found. */
  lemma RemovedIsGone(s: seq<Record>, id: int)
    requires WellKeyed(s) && FindIndex(s, id).Some?
    ensures FindIndex(RemoveAt(s, FindIndex(s, id).value), id).None?
  {
    var i := FindIndex(s, id).value;
    var t := RemoveAt(s, i);
    forall k | 0 <= k < |t|
      ensures !HasId(t[k], id)
    {
      var k' := if k < i then k else k + 1;
      assert t[k] == s[k'];
    }
  }
}
