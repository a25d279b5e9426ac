/**
 * Decoded datagrams and the addresses they travel between.
 *
 * Both dialects receive a datagram that an encoder has already turned into a
 * JSON value; encoding and decoding themselves are not modelled. A JSON object
 * keeps its keys in order (Python dictionaries iterate in insertion order) and,
 * as `json.loads` produces it, holds each key once.
 */
module Messages {
  import opened Wrappers

  /** A decoded JSON value (floating-point numbers are not modelled). */
  datatype Value =
    | Null
    | Bool(b: bool)
    | Int(i: int)
    | Str(s: string)
    | List(items: seq<Value>)
    | Object(fields: seq<Field>)

  datatype Field = Field(key: string, val: Value)

  /** A peer address, the pair `(host, port)`. */
  datatype Address = Address(host: string, port: int)

  /** One send: the message (before encoding) and its recipient. */
  datatype Datagram = Datagram(message: Value, to: Address)

  /** `d.get(key)`: the value stored under `key`, if the object has that key. */
  function Get(fields: seq<Field>, key: string): Option<Value>
  {
    if fields == [] then None
    else if fields[0].key == key then Some(fields[0].val)
    else Get(fields[1..], key)
  }

  /** `get` finds nothing exactly when no field has the key, and otherwise the value of the first field that has it. */
  lemma {:induction false} GetSpec(fields: seq<Field>, key: string)
    ensures Get(fields, key).None? <==> forall i :: 0 <= i < |fields| ==> fields[i].key != key
    ensures Get(fields, key).Some? ==>
      exists i :: 0 <= i < |fields| && fields[i] == Field(key, Get(fields, key).value) &&
        forall j :: 0 <= j < i ==> fields[j].key != key
  {
    if fields != [] && fields[0].key != key {
      GetSpec(fields[1..], key);
      if Get(fields, key).Some? {
        var i :| 0 <= i < |fields[1..]| && fields[1..][i] == Field(key, Get(fields, key).value) &&
          forall j :: 0 <= j < i ==> fields[1..][j].key != key;
        assert fields[i + 1] == Field(key, Get(fields, key).value);
        assert forall j :: 0 < j < i + 1 ==> fields[j].key == fields[1..][j - 1].key;
      } else {
        assert forall i :: 0 < i < |fields| ==> fields[i] == fields[1..][i - 1];
      }
    }
  }

  /** `d.get(key, default)`. */
  function GetOr(fields: seq<Field>, key: string, default: Value): Value
  {
    match Get(fields, key)
    case Some(v) => v
    case None => default
  }

  /** Python truthiness: `not v` is false exactly for these values. */
  predicate Truthy(v: Value)
  {
    match v
    case Null => false
    case Bool(b) => b
    case Int(i) => i != 0
    case Str(s) => s != ""
    case List(items) => items != []
    case Object(fields) => fields != []
  }

  /** The falsy JSON values are exactly null, false, zero and the empty string, list and object. */
  lemma FalsyValues(v: Value)
    ensures !Truthy(v) <==>
      v == Null || v == Bool(false) || v == Int(0) || v == Str("") || v == List([]) || v == Object([])
  {
  }

  /** The same message sent to each recipient in turn. */
  function SendEach(message: Value, recipients: seq<Address>): (r: seq<Datagram>)
    ensures |r| == |recipients|
    ensures forall i :: 0 <= i < |recipients| ==> r[i] == Datagram(message, recipients[i])
  {
    if recipients == [] then [] else [Datagram(message, recipients[0])] + SendEach(message, recipients[1..])
  }

  lemma SendEachCons(message: Value, first: Address, rest: seq<Address>)
    ensures SendEach(message, [first] + rest) == [Datagram(message, first)] + SendEach(message, rest)
  {
    assert ([first] + rest)[1..] == rest;
  }

  lemma SendEachSnoc(message: Value, recipients: seq<Address>, last: Address)
    ensures SendEach(message, recipients + [last]) == SendEach(message, recipients) + [Datagram(message, last)]
  {
  }
}
