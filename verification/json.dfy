/**
 * The values that a parsed JSON request body can take once Python's json
 * module has decoded it, together with the few Python operations the alert
 * handler applies to them: truthiness, `dict.get`, `key in dict`, iteration
 * order of a dict's keys and the name of a value's type.
 */
module Json {
  import opened Wrappers

  /**
   * A decoded JSON value. A JSON number with a fraction or an exponent
   * becomes a Python float; it is kept here as the exact decimal
   * `mantissa * 10^exponent` it was written as. An object keeps its members
   * in the order they were written, duplicates included.
   */
  datatype Json =
    | JNull
    | JBool(b: bool)
    | JInt(i: int)
    | JFloat(mantissa: int, exponent: int)
    | JStr(s: string)
    | JList(items: seq<Json>)
    | JObj(fields: seq<(string, Json)>)

  /** Python truthiness: `None`, `False`, zero, and empty strings, lists and dicts are falsy. */
  predicate Truthy(v: Json) {
    match v
    case JNull => false
    case JBool(b) => b
    case JInt(i) => i != 0
    case JFloat(m, _) => m != 0
    case JStr(s) => s != ""
    case JList(xs) => xs != []
    case JObj(fs) => fs != []
  }

  /** The name Python gives the type of the decoded value, as quoted in its error messages. */
  function TypeName(v: Json): string {
    match v
    case JNull => "NoneType"
    case JBool(_) => "bool"
    case JInt(_) => "int"
    case JFloat(_, _) => "float"
    case JStr(_) => "str"
    case JList(_) => "list"
    case JObj(_) => "dict"
  }

  /** `key in d` for the dict decoded from the object members `fields`. */
  predicate HasKey(fields: seq<(string, Json)>, key: string) {
    exists i :: 0 <= i < |fields| && fields[i].0 == key
  }

  /**
   * The value a decoded dict holds for `key`: decoding assigns the members in
   * order, so the last member with that key is the one that is kept.
   */
  function Lookup(fields: seq<(string, Json)>, key: string): (r: Option<Json>)
    ensures r.Some? <==> HasKey(fields, key)
    ensures r.Some? ==>
      exists i :: 0 <= i < |fields| && fields[i] == (key, r.value) &&
        forall j :: i < j < |fields| ==> fields[j].0 != key
  {
    if |fields| == 0 then None
    else if fields[|fields| - 1].0 == key then Some(fields[|fields| - 1].1)
    else Lookup(fields[..|fields| - 1], key)
  }

  /** `d.get(key, default)`: the value held for `key`, or `default` when the key is absent. */
  function Get(fields: seq<(string, Json)>, key: string, default: Json): Json {
    match Lookup(fields, key)
    case Some(v) => v
    case None => default
  }

  /** The position where `key` is first written among the members. */
  function FirstIndex(fields: seq<(string, Json)>, key: string): (i: nat)
    requires HasKey(fields, key)
    ensures i < |fields| && fields[i].0 == key
    ensures forall j :: 0 <= j < i ==> fields[j].0 != key
  {
    if fields[0].0 == key then 0
    else
      assert HasKey(fields[1..], key) by {
        var i :| 0 <= i < |fields| && fields[i].0 == key;
        assert fields[1..][i - 1].0 == key;
      }
      1 + FirstIndex(fields[1..], key)
  }

  /** `ks` lists keys of `fields` in the order they were first written. */
  predicate InFirstWrittenOrder(fields: seq<(string, Json)>, ks: seq<string>) {
    forall i, j :: 0 <= i < j < |ks| ==>
      HasKey(fields, ks[i]) && HasKey(fields, ks[j]) && FirstIndex(fields, ks[i]) < FirstIndex(fields, ks[j])
  }

  /**
   * The keys of the decoded dict in iteration order: each key where it was
   * first written, later duplicates dropped.
   */
  function Keys(fields: seq<(string, Json)>): (ks: seq<string>)
    ensures forall k :: k in ks <==> HasKey(fields, k)
    ensures forall i, j :: 0 <= i < j < |ks| ==> ks[i] != ks[j]
    ensures |ks| == 0 <==> |fields| == 0
    ensures |fields| > 0 ==> ks[0] == fields[0].0
    ensures InFirstWrittenOrder(fields, ks)
  {
    if |fields| == 0 then []
    else
      var front := fields[..|fields| - 1];
      var ks := Keys(front);
      var last := fields[|fields| - 1].0;
      KeysOfLonger(front, last, fields);
      if last in ks then
        KeysOrderKept(front, fields, ks);
        ks
      else
        KeysOrderExtended(front, fields, ks);
        ks + [last]
  }

  /** Writing one more member adds at most its key, and moves no first position. */
  lemma KeysOfLonger(front: seq<(string, Json)>, last: string, fields: seq<(string, Json)>)
    requires fields != [] && front == fields[..|fields| - 1] && last == fields[|fields| - 1].0
    ensures forall k :: HasKey(fields, k) <==> HasKey(front, k) || k == last
    ensures forall k :: HasKey(front, k) ==> FirstIndex(fields, k) == FirstIndex(front, k)
    ensures !HasKey(front, last) ==> FirstIndex(fields, last) == |fields| - 1
  {
  }

  /** Keys already listed keep their order when a repeated key is written. */
  lemma KeysOrderKept(front: seq<(string, Json)>, fields: seq<(string, Json)>, ks: seq<string>)
    requires forall k :: HasKey(front, k) ==> HasKey(fields, k) && FirstIndex(fields, k) == FirstIndex(front, k)
    requires forall k :: k in ks ==> HasKey(front, k)
    requires InFirstWrittenOrder(front, ks)
    ensures InFirstWrittenOrder(fields, ks)
  {
  }

  /** A newly written key is listed after all earlier ones. */
  lemma KeysOrderExtended(front: seq<(string, Json)>, fields: seq<(string, Json)>, ks: seq<string>)
    requires fields != [] && front == fields[..|fields| - 1]
    requires forall k :: HasKey(front, k) ==> HasKey(fields, k) && FirstIndex(fields, k) == FirstIndex(front, k)
    requires HasKey(fields, fields[|fields| - 1].0) && FirstIndex(fields, fields[|fields| - 1].0) == |fields| - 1
    requires forall k :: k in ks ==> HasKey(front, k)
    requires InFirstWrittenOrder(front, ks)
    ensures InFirstWrittenOrder(fields, ks + [fields[|fields| - 1].0])
  {
  }

  /** Python's `str(v)` / `f"{v}"`: a string is its own text; every other value goes through `show`. */
  function Render(v: Json, show: Json -> string): string {
    if v.JStr? then v.s else show(v)
  }
}
