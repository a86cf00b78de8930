/** Two ways to cite a text by bytes: an exact citation with given offsets, and a quote
    whose offsets are derived because it occurs only once. */
module Evidence {
  import opened Outcome
  import opened Utf8
  import opened JsonData

  /** What a reference and a document must agree on besides identity and path; what is missing
      is null. */
  datatype Frame = Frame(fingerprint: Json, project: Json, chapter: Json, asOf: Json, representation: Json)

  datatype Document = Document(id: Json, path: Json, text: Text, frame: Frame, retained: Option<seq<(int, int)>>)

  /** A reference as supplied; an offset that is no integer, or is missing, is `None`, and so is
      a quote that is no text. */
  datatype Reference = Reference(id: Json, path: Json, frame: Frame, start: Option<int>, end: Option<int>, quote: Option<Text>)

  function Matching(documents: seq<Document>, id: Json, path: Json): seq<Document> {
    if documents == [] then []
    else
      var last := documents[|documents| - 1];
      Matching(documents[..|documents| - 1], id, path) + if last.id == id && last.path == path then [last] else []
  }

  predicate Retained(doc: Document, length: nat, start: int, end: int) {
    var ranges := if doc.retained.Some? then doc.retained.value else [(0, length)];
    exists r <- ranges :: r.0 <= start < end <= r.1
  }

  /** Does the reference quote its document exactly, inside what was retained of it? */
  predicate ValidCitation(r: Reference, documents: seq<Document>) {
    var matches := Matching(documents, r.id, r.path);
    |matches| == 1 &&
    var doc := matches[0];
    var encoded := EncodeStrict(doc.text);
    encoded.Ok? &&
    var data := encoded.value;
    && doc.frame.fingerprint == Hash(Sha256(data))
    && r.frame == doc.frame
    && r.start.Some? && r.end.Some? && 0 <= r.start.value < r.end.value <= |data|
    && Retained(doc, |data|, r.start.value, r.end.value)
    && Decode(data[..r.start.value]).Some? && Decode(data[r.end.value..]).Some?
    && Decode(data[r.start.value..r.end.value]).Some?
    && r.quote == Decode(data[r.start.value..r.end.value])
  }

  /** The reference names the code points `i` up to `j` of the document. */
  ghost predicate Cites(r: Reference, doc: Document, i: nat, j: nat) {
    && i < j <= |doc.text|
    && r.start == Some(Offset(doc.text, i)) && r.end == Some(Offset(doc.text, j))
    && r.quote == Some(doc.text[i..j])
    && (doc.retained.Some? ==> exists range <- doc.retained.value :: range.0 <= Offset(doc.text, i) && Offset(doc.text, j) <= range.1)
  }

  lemma {:induction false} RetainedStretch(doc: Document, i: nat, j: nat)
    requires i < j <= |doc.text|
    ensures Retained(doc, |Encode(doc.text)|, Offset(doc.text, i), Offset(doc.text, j)) <==>
            (doc.retained.Some? ==> exists range <- doc.retained.value :: range.0 <= Offset(doc.text, i) && Offset(doc.text, j) <= range.1)
  {
    SliceAt(doc.text, i, j);
    hide Encode;
    if doc.retained.None? {
      assert (0, |Encode(doc.text)|) in [(0, |Encode(doc.text)|)];
    }
  }

  /** A citation is accepted exactly when one document has its identity and path, is intact
      and framed alike, and the quote is a nonempty stretch of its code points with the
      given byte offsets, inside one retained range. */
  lemma {:induction false} CitationMeaning(r: Reference, documents: seq<Document>)
    ensures ValidCitation(r, documents) <==>
            var matches := Matching(documents, r.id, r.path);
            |matches| == 1 &&
            var doc := matches[0];
            && Encodable(doc.text) && doc.frame.fingerprint == Hash(Sha256(Encode(doc.text))) && r.frame == doc.frame
            && exists i: nat, j: nat :: Cites(r, doc, i, j)
  {
    hide Decode, Retained, Encode, IsScalar;
    var matches := Matching(documents, r.id, r.path);
    if |matches| == 1 && Encodable(matches[0].text) {
      var doc := matches[0];
      var data := Encode(doc.text);
      if ValidCitation(r, documents) {
        AlignedExactly(doc.text, r.start.value, r.end.value);
        var i: nat, j: nat :| i <= j <= |doc.text| && r.start.value == Offset(doc.text, i) && r.end.value == Offset(doc.text, j);
        SliceAt(doc.text, i, j);
        DecodeEncode(doc.text[i..j]);
        RetainedStretch(doc, i, j);
        assert Cites(r, doc, i, j);
      }
      if i: nat, j: nat :| Cites(r, doc, i, j) {
        SliceAt(doc.text, i, j);
        RetainedStretch(doc, i, j);
        AlignedExactly(doc.text, Offset(doc.text, i), Offset(doc.text, j));
        DecodeEncode(doc.text[i..j]);
      }
    }
  }

  // ---- Quotes without offsets ----

  /** The lowest offset of `part` from `from` on, or -1: what bytes.find returns. */
  function Find(whole: seq<Byte>, part: seq<Byte>, from: nat): (k: int)
    ensures k == -1 || (from <= k && OccursAt(whole, part, k))
    ensures forall l :: from <= l && OccursAt(whole, part, l) ==> 0 <= k <= l
    decreases |whole| - from
  {
    if from + |part| > |whole| then -1
    else if whole[from..from + |part|] == part then from
    else Find(whole, part, from + 1)
  }

  datatype Quoted = Quoted(start: nat, end: nat, quote: Text)

  /** The quote occurs, and nowhere else. */
  ghost predicate OccursOnce(t: Text, q: Text) {
    exists i :: OccursAt(t, q, i) && forall j :: OccursAt(t, q, j) ==> j == i
  }

  /** Found, and not found again further on. */
  predicate FoundOnce(body: seq<Byte>, quote: seq<Byte>) {
    var start := Find(body, quote, 0);
    start >= 0 && Find(body, quote, start + 1) < 0
  }

  /** The byte search finds a quote exactly once if and only if it occurs exactly once among
      the code points, and then both ends lie between code points and cut out the quote. */
  lemma {:induction false} FoundOnceMeansOnce(t: Text, q: Text)
    requires Encodable(t) && Encodable(q) && q != []
    ensures FoundOnce(Encode(t), Encode(q)) <==> OccursOnce(t, q)
    ensures FoundOnce(Encode(t), Encode(q)) ==>
              var start := Find(Encode(t), Encode(q), 0);
              var end := start + |Encode(q)|;
              && end <= |Encode(t)| && Encode(t)[start..end] == Encode(q)
              && exists i: nat :: OccursAt(t, q, i) && start == Offset(t, i) && end == Offset(t, i + |q|)
  {
    var body, quote := Encode(t), Encode(q);
    var start := Find(body, quote, 0);
    if start >= 0 {
      var i := ByteOccurrence(t, q, start);
      TextOccurrence(t, q, i);
      var again := Find(body, quote, start + 1);
      if again >= 0 {
        var j := ByteOccurrence(t, q, again);
        assert i != j;
      } else {
        forall j | OccursAt(t, q, j) ensures j == i {
          TextOccurrence(t, q, j);
          assert OccursAt(body, quote, Offset(t, j));
          OffsetInjective(t, i, j);
        }
      }
    } else if i :| OccursAt(t, q, i) {
      TextOccurrence(t, q, i);
    }
  }

  /** One model item: the feedback it speaks of and its quotes. */
  datatype Item = Item(feedbackId: string, quotes: seq<Text>)

  datatype Derived = Derived(feedbackId: string, refs: seq<Quoted>)

  const MAX_QUOTE := 256

  predicate AdmissibleQuote(q: Text) {
    1 <= |q| <= MAX_QUOTE && Encodable(q)
  }

  /** A reference that says where a quote stands. */
  ghost predicate Located(description: Text, q: Text, r: Quoted) {
    r.quote == q && exists i: nat :: OccursAt(description, q, i) && r.start == Offset(description, i) && r.end == Offset(description, i + |q|)
  }

  ghost predicate Derivable(description: Text, quotes: seq<Text>) {
    Encodable(description) && forall q <- quotes :: AdmissibleQuote(q) && OccursOnce(description, q)
  }

  lemma {:induction false} LocatedAt(description: Text, q: Text, start: nat)
    requires exists i: nat :: OccursAt(description, q, i) && start == Offset(description, i)
                              && start + |Encode(q)| == Offset(description, i + |q|)
    ensures Located(description, q, Quoted(start, start + |Encode(q)|, q))
  {
  }

  /** Offsets for the quotes of one item, or refusal. */
  method DeriveRefs(description: Text, quotes: seq<Text>) returns (r: Result<seq<Quoted>>)
    ensures r.Ok? <==> Derivable(description, quotes)
    ensures r.Ok? ==> |r.value| == |quotes| && forall k :: 0 <= k < |quotes| ==> Located(description, quotes[k], r.value[k])
  {
    hide Encode, Encodable, OccursOnce, Located;
    var body :- EncodeStrict(description);
    var refs: seq<Quoted> := [];
    for n := 0 to |quotes|
      invariant |refs| == n
      invariant forall k :: 0 <= k < n ==> AdmissibleQuote(quotes[k]) && OccursOnce(description, quotes[k])
                                           && Located(description, quotes[k], refs[k])
    {
      var q := quotes[n];
      if !(1 <= |q| <= MAX_QUOTE) {
        assert !AdmissibleQuote(quotes[n]);
        return Err(BadValue);
      }
      if !Encodable(q) {
        assert !AdmissibleQuote(quotes[n]);
        return Err(BadValue);
      }
      var quote := Encode(q);
      FoundOnceMeansOnce(description, q);
      var start := Find(body, quote, 0);
      if start < 0 || Find(body, quote, start + 1) >= 0 {
        assert !OccursOnce(description, quotes[n]);
        return Err(BadValue);
      }
      assert Located(description, q, Quoted(start, start + |quote|, q)) by {
        LocatedAt(description, q, start);
      }
      refs := refs + [Quoted(start, start + |quote|, q)];
    }
    r := Ok(refs);
  }

  ghost predicate ItemDerivable(item: Item, rows: map<string, Text>) {
    item.feedbackId in rows && 1 <= |item.quotes| <= 2 && Derivable(rows[item.feedbackId], item.quotes)
  }

  /** All items with derived offsets, or the refusal of the whole answer. */
  method DeriveItems(items: seq<Item>, rows: map<string, Text>) returns (r: Result<seq<Derived>>)
    ensures r.Ok? <==> |items| == |rows| && forall item <- items :: ItemDerivable(item, rows)
    ensures r.Ok? ==>
              && |r.value| == |items|
              && forall k :: 0 <= k < |items| ==>
                   && items[k].feedbackId in rows && r.value[k].feedbackId == items[k].feedbackId && |r.value[k].refs| == |items[k].quotes|
                   && forall l :: 0 <= l < |items[k].quotes| ==>
                        Located(rows[items[k].feedbackId], items[k].quotes[l], r.value[k].refs[l])
  {
    if |items| != |rows| {
      return Err(BadValue);
    }
    var derived: seq<Derived> := [];
    for n := 0 to |items|
      invariant |derived| == n
      invariant forall k :: 0 <= k < n ==>
                  && ItemDerivable(items[k], rows)
                  && derived[k].feedbackId == items[k].feedbackId && |derived[k].refs| == |items[k].quotes|
                  && forall l :: 0 <= l < |items[k].quotes| ==>
                       Located(rows[items[k].feedbackId], items[k].quotes[l], derived[k].refs[l])
    {
      var item := items[n];
      if item.feedbackId !in rows || !(1 <= |item.quotes| <= 2) {
        assert !ItemDerivable(items[n], rows);
        return Err(BadValue);
      }
      var refs := DeriveRefs(rows[item.feedbackId], item.quotes);
      if refs.Err? {
        assert !ItemDerivable(items[n], rows);
        return Err(BadValue);
      }
      derived := derived + [Derived(item.feedbackId, refs.value)];
    }
    r := Ok(derived);
  }
}
