/** UTF-8 as the evidence code uses it (RFC 3629 sections 3 and 4): strict encoding of
    code points, strict decoding, and where encoded strings can be cut. */
module Utf8 {
  import opened Outcome

  type Byte = b: int | 0 <= b < 256

  /** A code point of a host string, surrogates included. */
  type CodePoint = c: int | 0 <= c < 0x110000

  type Text = seq<CodePoint>

  predicate IsScalar(c: CodePoint) {
    !(0xD800 <= c < 0xE000)
  }

  predicate Encodable(t: Text) {
    forall c <- t :: IsScalar(c)
  }

  predicate Continuation(b: Byte) {
    0x80 <= b < 0xC0
  }

  function Tail(c: int): (b: Byte)
    requires 0 <= c
    ensures Continuation(b)
  {
    0x80 + c % 64
  }

  function EncodeOne(c: CodePoint): (r: seq<Byte>)
    ensures 1 <= |r| <= 4 && !Continuation(r[0])
    ensures forall k :: 1 <= k < |r| ==> Continuation(r[k])
  {
    if c < 0x80 then [c]
    else if c < 0x800 then [0xC0 + c / 64, Tail(c)]
    else if c < 0x10000 then [0xE0 + c / 64 / 64, Tail(c / 64), Tail(c)]
    else [0xF0 + c / 64 / 64 / 64, Tail(c / 64 / 64), Tail(c / 64), Tail(c)]
  }

  /** The bytes of an encodable string; `EncodeStrict` is what the host calls. */
  function Encode(t: Text): seq<Byte> {
    if t == [] then [] else EncodeOne(t[0]) + Encode(t[1..])
  }

  /** Encoding fails on a lone surrogate. */
  function EncodeStrict(t: Text): Result<seq<Byte>> {
    if Encodable(t) then Ok(Encode(t)) else Err(BadValue)
  }

  /** A leading value extended by the six bits of a continuation byte. */
  function Extend(c: int, b: int): int {
    c * 64 + (b - 0x80)
  }

  /** The first code point of a byte string and its length, if it is well formed: shortest
      form, no surrogate, not above U+10FFFF. */
  function DecodeOne(b: seq<Byte>): (r: Option<(CodePoint, nat)>)
    ensures r.Some? ==> 1 <= r.value.1 <= |b|
  {
    if b == [] then None
    else if b[0] < 0x80 then Some((b[0], 1))
    else if 0xC2 <= b[0] < 0xE0 && |b| >= 2 && Continuation(b[1]) then
      Some((Extend(b[0] - 0xC0, b[1]), 2))
    else if 0xE0 <= b[0] < 0xF0 && |b| >= 3 && Continuation(b[1]) && Continuation(b[2]) then
      var c := Extend(Extend(b[0] - 0xE0, b[1]), b[2]);
      if c >= 0x800 && IsScalar(c) then Some((c, 3)) else None
    else if 0xF0 <= b[0] < 0xF5 && |b| >= 4 && Continuation(b[1]) && Continuation(b[2]) && Continuation(b[3]) then
      var c := Extend(Extend(Extend(b[0] - 0xF0, b[1]), b[2]), b[3]);
      if 0x10000 <= c < 0x110000 then Some((c, 4)) else None
    else None
  }

  function Decode(b: seq<Byte>): Option<Text> {
    if b == [] then Some([])
    else
      match DecodeOne(b)
      case None => None
      case Some((c, n)) =>
        match Decode(b[n..])
        case None => None
        case Some(rest) => Some([c] + rest)
  }

  // ---- Round trips ----

  lemma {:induction false} ExtendTail(c: int)
    requires 0 <= c
    ensures Extend(c / 64, Tail(c)) == c
  {
  }

  lemma {:induction false} TailExtend(c: int, b: Byte)
    requires 0 <= c && Continuation(b)
    ensures Extend(c, b) / 64 == c && Tail(Extend(c, b)) == b
    ensures c * 64 <= Extend(c, b) < c * 64 + 64
  {
  }

  lemma {:induction false} DecodeEncodedOne(c: CodePoint, rest: seq<Byte>)
    requires IsScalar(c)
    ensures DecodeOne(EncodeOne(c) + rest) == Some((c, |EncodeOne(c)|))
  {
    ExtendTail(c);
    ExtendTail(c / 64);
    ExtendTail(c / 64 / 64);
    hide Extend, Tail;
  }

  lemma {:induction false} EncodeDecodedOne(b: seq<Byte>)
    requires DecodeOne(b).Some?
    ensures var (c, n) := DecodeOne(b).value; IsScalar(c) && EncodeOne(c) == b[..n]
  {
    hide Extend, Tail;
    var (c, n) := DecodeOne(b).value;
    if n == 2 {
      TailExtend(b[0] - 0xC0, b[1]);
      assert b[..2] == [b[0], b[1]];
    } else if n == 3 {
      var h := Extend(b[0] - 0xE0, b[1]);
      TailExtend(b[0] - 0xE0, b[1]);
      TailExtend(h, b[2]);
      assert b[..3] == [b[0], b[1], b[2]];
    } else if n == 4 {
      var h := Extend(b[0] - 0xF0, b[1]);
      TailExtend(b[0] - 0xF0, b[1]);
      TailExtend(h, b[2]);
      TailExtend(Extend(h, b[2]), b[3]);
      assert b[..4] == [b[0], b[1], b[2], b[3]];
    }
  }

  /** What was encoded decodes to itself. */
  lemma {:induction false} DecodeEncode(t: Text)
    requires Encodable(t)
    ensures Decode(Encode(t)) == Some(t)
  {
    if t != [] {
      DecodeEncodedOne(t[0], Encode(t[1..]));
      DecodeEncode(t[1..]);
      assert (EncodeOne(t[0]) + Encode(t[1..]))[|EncodeOne(t[0])|..] == Encode(t[1..]);
      assert [t[0]] + t[1..] == t;
    }
  }

  /** What decodes is exactly the encoding of its text. */
  lemma {:induction false} EncodeDecode(b: seq<Byte>)
    requires Decode(b).Some?
    ensures Encodable(Decode(b).value) && Encode(Decode(b).value) == b
  {
    hide EncodeOne, DecodeOne, IsScalar;
    if b != [] {
      var (c, n) := DecodeOne(b).value;
      EncodeDecodedOne(b);
      EncodeDecode(b[n..]);
      assert b == b[..n] + b[n..];
      var t := Decode(b).value;
      assert t[1..] == Decode(b[n..]).value;
    }
  }

  /** Bytes decode to a text exactly when it holds no surrogate and they are its encoding. */
  lemma {:induction false} DecodesExactly(b: seq<Byte>, t: Text)
    ensures Decode(b) == Some(t) <==> (forall c <- t :: c < 0xD800 || c > 0xDFFF) && Encode(t) == b
  {
    hide Decode, Encode;
    if Decode(b).Some? {
      EncodeDecode(b);
    }
    if Encodable(t) {
      DecodeEncode(t);
    }
  }

  // ---- Cutting ----

  lemma {:induction false} EncodeConcat(t: Text, u: Text)
    ensures Encode(t + u) == Encode(t) + Encode(u)
  {
    if t == [] {
      assert t + u == u;
    } else {
      EncodeConcat(t[1..], u);
      assert (t + u)[1..] == t[1..] + u;
    }
  }

  /** The byte offset of a code-point index. */
  function Offset(t: Text, i: nat): nat
    requires i <= |t|
  {
    |Encode(t[..i])|
  }

  lemma {:induction false} CutAt(t: Text, i: nat)
    requires i <= |t|
    ensures Offset(t, i) <= |Encode(t)|
    ensures Encode(t)[..Offset(t, i)] == Encode(t[..i]) && Encode(t)[Offset(t, i)..] == Encode(t[i..])
  {
    EncodeConcat(t[..i], t[i..]);
    assert t == t[..i] + t[i..];
  }

  lemma {:induction false} SliceAt(t: Text, i: nat, j: nat)
    requires i <= j <= |t|
    ensures Offset(t, i) <= Offset(t, j) <= |Encode(t)|
    ensures Encode(t)[Offset(t, i)..Offset(t, j)] == Encode(t[i..j])
    ensures i < j ==> Offset(t, i) < Offset(t, j)
  {
    CutAt(t, j);
    CutAt(t[..j], i);
    assert t[..j][..i] == t[..i] && t[..j][i..] == t[i..j];
    assert Encode(t)[..Offset(t, j)][Offset(t, i)..] == Encode(t)[Offset(t, i)..Offset(t, j)];
  }

  /** Self-synchronisation: a byte that is no continuation starts a code point. */
  lemma {:induction false} LeadIsBoundary(t: Text, k: nat) returns (i: nat)
    requires k < |Encode(t)| && !Continuation(Encode(t)[k])
    ensures i < |t| && k == Offset(t, i)
  {
    var n := |EncodeOne(t[0])|;
    if k < n {
      assert Encode(t)[k] == EncodeOne(t[0])[k];
      i := 0;
    } else {
      assert Encode(t)[k] == Encode(t[1..])[k - n];
      var j := LeadIsBoundary(t[1..], k - n);
      i := j + 1;
      assert t[..i][1..] == t[1..][..j];
    }
  }

  /** The first code point of an encoding, whatever bytes follow it. */
  lemma {:induction false} HeadOf(t: Text, rest: seq<Byte>)
    requires Encodable(t) && t != []
    ensures DecodeOne(Encode(t) + rest) == Some((t[0], |EncodeOne(t[0])|))
    ensures |EncodeOne(t[0])| <= |Encode(t)| && Encode(t)[|EncodeOne(t[0])|..] == Encode(t[1..])
  {
    hide EncodeOne, DecodeOne;
    DecodeEncodedOne(t[0], Encode(t[1..]) + rest);
    assert Encode(t) + rest == EncodeOne(t[0]) + (Encode(t[1..]) + rest);
  }

  /** A byte prefix that is itself an encoding comes from a prefix of the text. */
  lemma {:induction false} PrefixReflected(q: Text, u: Text)
    requires Encodable(q) && Encodable(u) && Encode(q) <= Encode(u)
    ensures q <= u
  {
    hide EncodeOne, DecodeOne;
    if q != [] {
      var rest := Encode(u)[|Encode(q)|..];
      assert Encode(u) == Encode(q) + rest && Encode(u) == Encode(u) + [];
      HeadOf(q, rest);
      assert u != [];
      HeadOf(u, []);
      assert q[0] == u[0];
      PrefixReflected(q[1..], u[1..]);
      assert q == [q[0]] + q[1..] && u == [u[0]] + u[1..];
    }
  }

  // ---- Occurrences ----

  predicate OccursAt<T(==)>(whole: seq<T>, part: seq<T>, k: int) {
    0 <= k && k + |part| <= |whole| && whole[k..k + |part|] == part
  }

  /** Every occurrence among the bytes is one among the code points. */
  lemma {:induction false} ByteOccurrence(t: Text, q: Text, k: nat) returns (i: nat)
    requires Encodable(t) && Encodable(q) && q != [] && OccursAt(Encode(t), Encode(q), k)
    ensures OccursAt(t, q, i) && k == Offset(t, i)
  {
    assert Encode(t)[k] == Encode(q)[0] == EncodeOne(q[0])[0];
    i := LeadIsBoundary(t, k);
    CutAt(t, i);
    assert Encode(q) <= Encode(t[i..]) by {
      assert Encode(t[i..])[..|Encode(q)|] == Encode(t)[k..k + |Encode(q)|];
    }
    PrefixReflected(q, t[i..]);
  }

  lemma {:induction false} TextOccurrence(t: Text, q: Text, i: nat)
    requires OccursAt(t, q, i)
    ensures OccursAt(Encode(t), Encode(q), Offset(t, i)) && Offset(t, i) + |Encode(q)| == Offset(t, i + |q|)
  {
    SliceAt(t, i, i + |q|);
  }

  lemma {:induction false} OffsetInjective(t: Text, i: nat, j: nat)
    requires i <= |t| && j <= |t| && Offset(t, i) == Offset(t, j)
    ensures i == j
  {
    if i < j {
      SliceAt(t, i, j);
    } else {
      SliceAt(t, j, i);
    }
  }

  /** The three decodings succeed exactly when both ends lie between code points. */
  lemma {:induction false} AlignedExactly(t: Text, start: nat, end: nat)
    requires Encodable(t) && start <= end <= |Encode(t)|
    ensures var data := Encode(t);
            Decode(data[..start]).Some? && Decode(data[end..]).Some? && Decode(data[start..end]).Some? <==>
            exists i: nat, j: nat :: i <= j <= |t| && start == Offset(t, i) && end == Offset(t, j)
  {
    var data := Encode(t);
    if Decode(data[..start]).Some? && Decode(data[end..]).Some? {
      var i := PrefixAligned(t, start);
      var j := SuffixAligned(t, end);
      if j < i {
        SliceAt(t, j, i);
      }
      assert i <= j <= |t| && start == Offset(t, i) && end == Offset(t, j);
    }
    if i: nat, j: nat :| i <= j <= |t| && start == Offset(t, i) && end == Offset(t, j) {
      CutAt(t, i);
      CutAt(t, j);
      SliceAt(t, i, j);
      DecodeEncode(t[..i]);
      DecodeEncode(t[j..]);
      DecodeEncode(t[i..j]);
    }
  }

  lemma {:induction false} PrefixAligned(t: Text, start: nat) returns (i: nat)
    requires Encodable(t) && start <= |Encode(t)| && Decode(Encode(t)[..start]).Some?
    ensures i <= |t| && start == Offset(t, i)
  {
    EncodeDecode(Encode(t)[..start]);
    var u := Decode(Encode(t)[..start]).value;
    PrefixReflected(u, t);
    i := |u|;
    assert t[..i] == u;
  }

  lemma {:induction false} SuffixAligned(t: Text, end: nat) returns (j: nat)
    requires Encodable(t) && end <= |Encode(t)| && Decode(Encode(t)[end..]).Some?
    ensures j <= |t| && end == Offset(t, j)
  {
    if end == |Encode(t)| {
      j := |t|;
      assert t[..j] == t;
    } else {
      EncodeDecode(Encode(t)[end..]);
      var u := Decode(Encode(t)[end..]).value;
      assert Encode(t)[end] == EncodeOne(u[0])[0];
      j := LeadIsBoundary(t, end);
    }
  }
}
