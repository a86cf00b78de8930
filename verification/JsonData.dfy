/** JSON values as the evaluation code holds them. */
module JsonData {
  import opened Outcome
  import opened Utf8

  /** A digest without collisions. */
  datatype Digest = Sha256(of: seq<Byte>)

  /** A JSON value; `Hash` is the text of a digest, and the fields of an object keep their order. */
  datatype Json = Null | Bool(b: bool) | Number(n: int) | Str(s: Text) | Hash(digest: Digest) | List(items: Items) | Obj(fields: Fields)

  datatype Items = NoItem | Entry(head: Json, tail: Items)

  datatype Fields = NoField | Field(key: string, value: Json, rest: Fields)

  /** No list and no object. */
  predicate Flat(v: Json) {
    !v.List? && !v.Obj?
  }

  function Get(fields: Fields, key: string): Option<Json> {
    match fields
    case NoField => None
    case Field(k, v, rest) => if k == key then Some(v) else Get(rest, key)
  }

  /** A missing field reads as null. */
  function GetOrNull(fields: Fields, key: string): Json {
    var v := Get(fields, key);
    if v.Some? then v.value else Null
  }

  function Put(fields: Fields, key: string, value: Json): Fields {
    match fields
    case NoField => Field(key, value, NoField)
    case Field(k, v, rest) => if k == key then Field(k, value, rest) else Field(k, v, Put(rest, key, value))
  }

  lemma {:induction false} GetPut(fields: Fields, key: string, value: Json, k: string)
    ensures Get(Put(fields, key, value), k) == if k == key then Some(value) else Get(fields, k)
  {
    if fields.Field? {
      GetPut(fields.rest, key, value, k);
    }
  }

  /** A literal of the host's own. */
  function Chars(s: string): (t: Text)
    ensures |t| == |s| && forall i :: 0 <= i < |s| ==> t[i] == s[i] as int
  {
    seq(|s|, i requires 0 <= i < |s| => s[i] as int)
  }

  lemma {:induction false} CharsInjective(a: string, b: string)
    requires Chars(a) == Chars(b)
    ensures a == b
  {
    forall i | 0 <= i < |a| && i < |b| ensures a[i] == b[i] {
      assert Chars(a)[i] == Chars(b)[i];
    }
  }
}
