/** Blinding of evaluation evidence for a judge, and the restoration of the references the
    judge makes. */
module BlindReview {
  import opened Outcome
  import opened Utf8
  import opened JsonData
  import opened Evidence

  const BLIND_KEYS := {
    "side", "variant", "branch", "version", "commit", "commit_sha", "source_hash", "config", "config_hash",
    "pricing_id", "model_id", "requested_model", "wall_ms", "latency", "duration_ms", "execution_identity",
    "executed_messages_sha256", "executed_config_sha256", "accounting_status", "canonical_receipt"
  }

  predicate Blinded(key: string) {
    key in BLIND_KEYS || "cost" <= key || "latency" <= key || "branch" <= key || "version" <= key || "commit" <= key
  }

  function Blind(v: Json): Json {
    match v
    case List(items) => List(BlindItems(items))
    case Obj(fields) => Obj(BlindFields(fields))
    case _ => v
  }

  function BlindItems(items: Items): Items {
    match items
    case NoItem => NoItem
    case Entry(head, tail) => Entry(Blind(head), BlindItems(tail))
  }

  function BlindFields(fields: Fields): Fields {
    match fields
    case NoField => NoField
    case Field(key, value, rest) =>
      if Blinded(key) then BlindFields(rest) else Field(key, Blind(value), BlindFields(rest))
  }

  /** No blinded key at any depth. */
  predicate Clean(v: Json) {
    match v
    case List(items) => CleanItems(items)
    case Obj(fields) => CleanFields(fields)
    case _ => true
  }

  predicate CleanItems(items: Items) {
    items.NoItem? || (Clean(items.head) && CleanItems(items.tail))
  }

  predicate CleanFields(fields: Fields) {
    fields.NoField? || (!Blinded(fields.key) && Clean(fields.value) && CleanFields(fields.rest))
  }

  /** Blinding leaves no blinded key at any depth, and changes exactly what had one: so
      blinding twice is blinding once. */
  lemma {:induction false} BlindIsClean(v: Json)
    ensures Clean(Blind(v)) && (Blind(v) == v <==> Clean(v))
  {
    match v
    case List(items) => BlindItemsAreClean(items);
    case Obj(fields) =>
      BlindFieldsAreClean(fields);
      BlindNotLonger(fields);
    case _ =>
  }

  lemma {:induction false} BlindItemsAreClean(items: Items)
    ensures CleanItems(BlindItems(items)) && (BlindItems(items) == items <==> CleanItems(items))
  {
    if items.Entry? {
      BlindIsClean(items.head);
      BlindItemsAreClean(items.tail);
    }
  }

  lemma {:induction false} BlindFieldsAreClean(fields: Fields)
    ensures CleanFields(BlindFields(fields)) && (BlindFields(fields) == fields <==> CleanFields(fields))
  {
    if fields.Field? {
      BlindIsClean(fields.value);
      BlindFieldsAreClean(fields.rest);
      if Blinded(fields.key) {
        BlindNotLonger(fields.rest);
      }
    }
  }

  function Length(fields: Fields): nat {
    if fields.NoField? then 0 else Length(fields.rest) + 1
  }

  lemma {:induction false} BlindNotLonger(fields: Fields)
    ensures Length(BlindFields(fields)) <= Length(fields)
  {
    if fields.Field? {
      BlindNotLonger(fields.rest);
    }
  }

  // ---- Fields ----

  /** What is not blinded is kept, blinded in depth. */
  lemma {:induction false} GetBlind(fields: Fields, key: string)
    ensures Get(BlindFields(fields), key) ==
            match Get(fields, key)
            case None => None
            case Some(v) => if Blinded(key) then None else Some(Blind(v))
  {
    if fields.Field? {
      GetBlind(fields.rest, key);
      if Blinded(fields.key) && fields.key == key {
        BlindedAbsent(fields.rest, key);
      }
    }
  }

  lemma {:induction false} BlindedAbsent(fields: Fields, key: string)
    requires Blinded(key)
    ensures Get(BlindFields(fields), key) == None
  {
    if fields.Field? {
      BlindedAbsent(fields.rest, key);
    }
  }

  // ---- Anonymous names ----

  /** An identity and a path, as texts. */
  type Name = (Text, Text)

  /** The identity and the path a document came with, whatever they are. */
  type Original = (Json, Json)

  type Mapping = map<Name, Original>

  function Label(name: Name): Original {
    (Str(name.0), Str(name.1))
  }

  function DigitChar(d: nat): char
    requires d < 10
  {
    ['0', '1', '2', '3', '4', '5', '6', '7', '8', '9'][d]
  }

  function Decimal(n: nat): (s: string)
    ensures |s| > 0
  {
    if n < 10 then [DigitChar(n)] else Decimal(n / 10) + [DigitChar(n % 10)]
  }

  lemma {:induction false} DigitsDiffer(a: nat, b: nat)
    requires a < 10 && b < 10 && DigitChar(a) == DigitChar(b)
    ensures a == b
  {
  }

  lemma {:induction false} DecimalInjective(a: nat, b: nat)
    requires Decimal(a) == Decimal(b)
    ensures a == b
  {
    var s, t := Decimal(a), Decimal(b);
    assert s[|s| - 1] == DigitChar(a % 10) && t[|t| - 1] == DigitChar(b % 10);
    DigitsDiffer(a % 10, b % 10);
    if a >= 10 && b >= 10 {
      assert s[..|s| - 1] == Decimal(a / 10) && t[..|t| - 1] == Decimal(b / 10);
      DecimalInjective(a / 10, b / 10);
    }
  }

  function Anonymous(prefix: char, n: nat): Name {
    (Chars([prefix] + Decimal(n)), Chars("/evidence/" + [prefix] + "/" + Decimal(n)))
  }

  /** Documents of different namespaces, or at different places in one, never share a name. */
  lemma {:induction false} NamesAreDistinct(p: char, m: nat, q: char, n: nat)
    requires Anonymous(p, m) == Anonymous(q, n)
    ensures p == q && m == n
  {
    var s, t := [p] + Decimal(m), [q] + Decimal(n);
    CharsInjective(s, t);
    assert s[0] == t[0];
    assert s[1..] == Decimal(m) && t[1..] == Decimal(n);
    DecimalInjective(m, n);
  }

  function OriginalOf(doc: Fields): Option<Original> {
    match (Get(doc, "id"), Get(doc, "path"))
    case (Some(id), Some(path)) => Some((id, path))
    case _ => None
  }

  function Rename(doc: Fields, name: Original): Fields {
    Put(Put(doc, "id", name.0), "path", name.1)
  }

  /** Every document has an identity and a path. */
  predicate AllNamed(docs: seq<Fields>) {
    forall d <- docs :: OriginalOf(d).Some?
  }

  /** The documents as the judge sees them: blinded, under anonymous names. */
  function Hidden(docs: seq<Fields>, prefix: char): (r: seq<Fields>)
    ensures |r| == |docs|
    ensures forall k :: 0 <= k < |docs| ==> r[k] == Rename(BlindFields(docs[k]), Label(Anonymous(prefix, k + 1)))
  {
    seq(|docs|, k requires 0 <= k < |docs| => Rename(BlindFields(docs[k]), Label(Anonymous(prefix, k + 1))))
  }

  function Originals(docs: seq<Fields>, prefix: char): Mapping
    requires AllNamed(docs)
  {
    if docs == [] then map[]
    else
      var n := |docs|;
      Originals(docs[..n - 1], prefix)[Anonymous(prefix, n) := OriginalOf(docs[n - 1]).value]
  }

  /** The documents under anonymous names, and the way back; a document without an identity or
      a path refuses them all. */
  method AnonymousDocuments(docs: seq<Fields>, prefix: char) returns (r: Result<(seq<Fields>, Mapping)>)
    ensures r.Ok? <==> AllNamed(docs)
    ensures r.Ok? ==> r.value == (Hidden(docs, prefix), Originals(docs, prefix))
  {
    hide Anonymous, Rename, BlindFields, OriginalOf;
    var clean: seq<Fields>, mapping: Mapping := [], map[];
    for n := 0 to |docs|
      invariant AllNamed(docs[..n]) && clean == Hidden(docs, prefix)[..n] && mapping == Originals(docs[..n], prefix)
    {
      var original := OriginalOf(docs[n]);
      if original.None? {
        return Err(BadValue);
      }
      var name := Anonymous(prefix, n + 1);
      assert docs[..n + 1][..n] == docs[..n];
      clean := clean + [Rename(BlindFields(docs[n]), Label(name))];
      mapping := mapping[name := original.value];
    }
    assert docs[..|docs|] == docs && Hidden(docs, prefix)[..|docs|] == Hidden(docs, prefix);
    r := Ok((clean, mapping));
  }

  lemma {:induction false} OriginalsAt(docs: seq<Fields>, prefix: char, k: nat)
    requires k < |docs| && AllNamed(docs)
    ensures Anonymous(prefix, k + 1) in Originals(docs, prefix)
    ensures Originals(docs, prefix)[Anonymous(prefix, k + 1)] == OriginalOf(docs[k]).value
  {
    var n := |docs|;
    if k < n - 1 {
      OriginalsAt(docs[..n - 1], prefix, k);
      if Anonymous(prefix, k + 1) == Anonymous(prefix, n) {
        NamesAreDistinct(prefix, k + 1, prefix, n);
      }
    }
  }

  lemma {:induction false} OriginalsOnly(docs: seq<Fields>, prefix: char, name: Name)
    requires AllNamed(docs) && name in Originals(docs, prefix)
    ensures exists n :: 1 <= n <= |docs| && name == Anonymous(prefix, n)
  {
    var n := |docs|;
    if name != Anonymous(prefix, n) {
      OriginalsOnly(docs[..n - 1], prefix, name);
    } else {
      assert name == Anonymous(prefix, n);
    }
  }

  /** The way back for the documents of a case and of both outputs. */
  function AllOriginals(source: seq<Fields>, a: seq<Fields>, b: seq<Fields>): Mapping
    requires AllNamed(source) && AllNamed(a) && AllNamed(b)
  {
    Originals(source, 'S') + Originals(a, 'A') + Originals(b, 'B')
  }

  /** Across the three namespaces every anonymous name leads back to its own document, and
      no other name leads anywhere. */
  lemma {:induction false} NamespacesAreApart(source: seq<Fields>, a: seq<Fields>, b: seq<Fields>)
    requires AllNamed(source) && AllNamed(a) && AllNamed(b)
    ensures forall k :: 0 <= k < |source| ==> LeadsTo(AllOriginals(source, a, b), 'S', k, source[k])
    ensures forall k :: 0 <= k < |a| ==> LeadsTo(AllOriginals(source, a, b), 'A', k, a[k])
    ensures forall k :: 0 <= k < |b| ==> LeadsTo(AllOriginals(source, a, b), 'B', k, b[k])
    ensures forall name :: name in AllOriginals(source, a, b) ==>
              exists p: char, n: nat :: p in "SAB" && name == Anonymous(p, n)
  {
    forall k | 0 <= k < |source| ensures LeadsTo(AllOriginals(source, a, b), 'S', k, source[k]) {
      OriginalsAt(source, 'S', k);
      NotIn(a, 'A', 'S', k);
      NotIn(b, 'B', 'S', k);
    }
    forall k | 0 <= k < |a| ensures LeadsTo(AllOriginals(source, a, b), 'A', k, a[k]) {
      OriginalsAt(a, 'A', k);
      NotIn(b, 'B', 'A', k);
    }
    forall k | 0 <= k < |b| ensures LeadsTo(AllOriginals(source, a, b), 'B', k, b[k]) {
      OriginalsAt(b, 'B', k);
    }
    forall name | name in AllOriginals(source, a, b)
      ensures exists p: char, n: nat :: p in "SAB" && name == Anonymous(p, n)
    {
      if name in Originals(source, 'S') {
        OriginalsOnly(source, 'S', name);
      } else if name in Originals(a, 'A') {
        OriginalsOnly(a, 'A', name);
      } else {
        OriginalsOnly(b, 'B', name);
      }
    }
  }

  ghost predicate LeadsTo(m: Mapping, prefix: char, k: nat, doc: Fields) {
    Anonymous(prefix, k + 1) in m && Some(m[Anonymous(prefix, k + 1)]) == OriginalOf(doc)
  }

  lemma {:induction false} NotIn(docs: seq<Fields>, prefix: char, other: char, k: nat)
    requires AllNamed(docs) && prefix != other
    ensures Anonymous(other, k + 1) !in Originals(docs, prefix)
  {
    if Anonymous(other, k + 1) in Originals(docs, prefix) {
      OriginalsOnly(docs, prefix, Anonymous(other, k + 1));
      var n :| 1 <= n <= |docs| && Anonymous(other, k + 1) == Anonymous(prefix, n);
      NamesAreDistinct(other, k + 1, prefix, n);
    }
  }

  /** The anonymous name the judge sees for an original one; of several documents with the
      same name, the last. */
  function Forward(docs: seq<Fields>, prefix: char, original: Name): Option<Name> {
    if docs == [] then None
    else if OriginalOf(docs[|docs| - 1]) == Some(Label(original)) then Some(Anonymous(prefix, |docs|))
    else Forward(docs[..|docs| - 1], prefix, original)
  }

  /** Going forward and back again is the identity, and exactly the names of documents go
      forward. */
  lemma {:induction false} ForwardAndBack(docs: seq<Fields>, prefix: char, original: Name)
    requires AllNamed(docs)
    ensures Forward(docs, prefix, original).Some? <==> exists d <- docs :: OriginalOf(d) == Some(Label(original))
    ensures Forward(docs, prefix, original).Some? ==>
              var name := Forward(docs, prefix, original).value;
              name in Originals(docs, prefix) && Originals(docs, prefix)[name] == Label(original)
  {
    if docs != [] {
      var init, last := docs[..|docs| - 1], docs[|docs| - 1];
      ForwardAndBack(init, prefix, original);
      assert docs == init + [last];
      if OriginalOf(last) != Some(Label(original)) && Forward(init, prefix, original).Some? {
        var name := Forward(init, prefix, original).value;
        OriginalsOnly(init, prefix, name);
        var n :| 1 <= n <= |init| && name == Anonymous(prefix, n);
        if name == Anonymous(prefix, |docs|) {
          NamesAreDistinct(prefix, n, prefix, |docs|);
        }
      }
    }
  }

  const UNKNOWN: Name := (Chars("unknown-source"), Chars("/evidence/unknown"))

  /** A reference whose source is unknown is given a name that never leads back. */
  lemma {:induction false} UnknownStays(source: seq<Fields>, a: seq<Fields>, b: seq<Fields>)
    requires AllNamed(source) && AllNamed(a) && AllNamed(b)
    ensures UNKNOWN !in AllOriginals(source, a, b)
  {
    NamespacesAreApart(source, a, b);
    assert UNKNOWN.0[0] == 'u' as int;
  }

  // ---- Restoration ----

  /** The name a reference gives, when its identity and path are texts. */
  function Named(fields: Fields): Option<Name> {
    match OriginalOf(fields)
    case Some((Str(id), Str(path))) => Some((id, path))
    case _ => None
  }

  function Restore(v: Json, m: Mapping): Json {
    match v
    case List(items) => List(RestoreItems(items, m))
    case Obj(fields) =>
      var restored := RestoreFields(fields, m);
      var name := Named(fields);
      Obj(if name.Some? && name.value in m then Rename(restored, m[name.value]) else restored)
    case _ => v
  }

  function RestoreItems(items: Items, m: Mapping): Items {
    match items
    case NoItem => NoItem
    case Entry(head, tail) => Entry(Restore(head, m), RestoreItems(tail, m))
  }

  function RestoreFields(fields: Fields, m: Mapping): Fields {
    match fields
    case NoField => NoField
    case Field(key, value, rest) => Field(key, Restore(value, m), RestoreFields(rest, m))
  }

  lemma {:induction false} GetRestored(fields: Fields, m: Mapping, key: string)
    ensures Get(RestoreFields(fields, m), key) == match Get(fields, key) case None => None case Some(v) => Some(Restore(v, m))
  {
    if fields.Field? {
      GetRestored(fields.rest, m, key);
    }
  }

  /** A reference is restored to the name its document had, and only that changes; a name
      that no document was given stays as it is. */
  lemma {:induction false} ReferenceRestored(fields: Fields, m: Mapping, name: Name)
    requires Named(fields) == Some(name)
    ensures Restore(Obj(fields), m).Obj?
    ensures var r := Restore(Obj(fields), m).fields;
            && OriginalOf(r) == Some(if name in m then m[name] else Label(name))
            && forall k :: k != "id" && k != "path" ==>
                 Get(r, k) == match Get(fields, k) case None => None case Some(v) => Some(Restore(v, m))
  {
    var restored := RestoreFields(fields, m);
    GetRestored(fields, m, "id");
    GetRestored(fields, m, "path");
    forall k | k != "id" && k != "path"
      ensures Get(Restore(Obj(fields), m).fields, k) == match Get(fields, k) case None => None case Some(v) => Some(Restore(v, m))
    {
      GetRestored(fields, m, k);
      if name in m {
        GetRenamed(restored, m[name], k);
      }
    }
    if name in m {
      GetRenamed(restored, m[name], "id");
      GetRenamed(restored, m[name], "path");
    }
  }

  lemma {:induction false} GetRenamed(doc: Fields, name: Original, key: string)
    ensures Get(Rename(doc, name), key) ==
            if key == "id" then Some(name.0) else if key == "path" then Some(name.1) else Get(doc, key)
  {
    GetPut(doc, "id", name.0, key);
    GetPut(Put(doc, "id", name.0), "path", name.1, key);
  }

  // ---- Citations survive ----

  const CITATION_FIELDS := ["id", "path", "fingerprint", "project_id", "chapter", "as_of_chapter", "representation",
                            "start_byte", "end_byte", "quote"]

  lemma {:induction false} NotBlinded(key: string)
    requires key in CITATION_FIELDS || key in ["text", "retained_ranges"]
    ensures !Blinded(key)
  {
    assert key == "chapter" ==> key[1] == 'h';
    assert key != "chapter" ==> key[0] !in {'c', 'l', 'b', 'v'};
    assert "cost"[0] == 'c' && "cost"[1] == 'o' && "commit"[0] == 'c' && "commit"[1] == 'o';
    assert "latency"[0] == 'l' && "branch"[0] == 'b' && "version"[0] == 'v';
    NotListed(key);
  }

  /** Length and letters that tell the fields of a citation from the blinded ones. */
  predicate CitationShape(k: string) {
    match |k|
    case 2 => true
    case 5 => true
    case 13 => true
    case 14 => true
    case 4 => k[3] in {'h', 't'}
    case 7 => k[6] == 'r'
    case 8 => k[7] == 'e'
    case 10 => k[9] == 'e' || k[2] == 'o'
    case 11 => k[10] == 't'
    case 15 => k[14] == 's'
    case _ => false
  }

  lemma {:induction false} CitationShaped(key: string)
    requires key in CITATION_FIELDS || key in ["text", "retained_ranges"]
    ensures CitationShape(key)
  {
  }

  lemma {:induction false} BlindNotShaped(key: string)
    requires key in BLIND_KEYS
    ensures !CitationShape(key)
  {
  }

  lemma {:induction false} NotListed(key: string)
    requires key in CITATION_FIELDS || key in ["text", "retained_ranges"]
    ensures key !in BLIND_KEYS
  {
    CitationShaped(key);
    if key in BLIND_KEYS {
      BlindNotShaped(key);
    }
  }

  /** No field a citation is checked by is blinded. */
  lemma {:induction false} CitationFieldsKept(doc: Fields, name: Original, key: string)
    requires key in CITATION_FIELDS || key in ["text", "retained_ranges"]
    ensures !Blinded(key)
    ensures key != "id" && key != "path" ==>
              Get(Rename(BlindFields(doc), name), key) == match Get(doc, key) case None => None case Some(v) => Some(Blind(v))
  {
    NotBlinded(key);
    hide Blinded;
    GetBlind(doc, key);
    GetRenamed(BlindFields(doc), name, key);
  }

  // ---- What the citation check reads ----

  function FrameOf(fields: Fields): Frame {
    Frame(GetOrNull(fields, "fingerprint"), GetOrNull(fields, "project_id"), GetOrNull(fields, "chapter"),
          GetOrNull(fields, "as_of_chapter"), GetOrNull(fields, "representation"))
  }

  predicate FlatFrame(f: Frame) {
    Flat(f.fingerprint) && Flat(f.project) && Flat(f.chapter) && Flat(f.asOf) && Flat(f.representation)
  }

  function PairsOf(items: Items): Option<seq<(int, int)>> {
    match items
    case NoItem => Some([])
    case Entry(List(Entry(Number(lo), Entry(Number(hi), NoItem))), tail) =>
      var rest := PairsOf(tail);
      if rest.None? then None else Some([(lo, hi)] + rest.value)
    case _ => None
  }

  /** The retained ranges of a document, if it has any; none when they are not pairs of numbers. */
  function RetainedOf(doc: Fields): Option<Option<seq<(int, int)>>> {
    match Get(doc, "retained_ranges")
    case None => Some(None)
    case Some(List(items)) => var pairs := PairsOf(items); if pairs.None? then None else Some(pairs)
    case _ => None
  }

  /** The document the check sees: named, with a text, a frame without structure, and ranges. */
  function DocumentOf(doc: Fields): Option<Document> {
    match (OriginalOf(doc), Get(doc, "text"), RetainedOf(doc))
    case (Some(name), Some(Str(text)), Some(retained)) =>
      if FlatFrame(FrameOf(doc)) then Some(Document(name.0, name.1, text, FrameOf(doc), retained)) else None
    case _ => None
  }

  predicate AllReadable(docs: seq<Fields>): (r: bool)
    ensures r ==> AllNamed(docs)
  {
    forall d <- docs :: DocumentOf(d).Some?
  }

  function DocumentsOf(docs: seq<Fields>): (r: seq<Document>)
    requires AllReadable(docs)
    ensures |r| == |docs| && forall k :: 0 <= k < |docs| ==> Some(r[k]) == DocumentOf(docs[k])
  {
    seq(|docs|, k requires 0 <= k < |docs| => DocumentOf(docs[k]).value)
  }

  function NumberIn(fields: Fields, key: string): Option<int> {
    var v := GetOrNull(fields, key);
    if v.Number? then Some(v.n) else None
  }

  function TextIn(fields: Fields, key: string): Option<Text> {
    var v := GetOrNull(fields, key);
    if v.Str? then Some(v.s) else None
  }

  function ReferenceOf(ref: Fields): Reference
    requires OriginalOf(ref).Some?
  {
    var name := OriginalOf(ref).value;
    Reference(name.0, name.1, FrameOf(ref), NumberIn(ref, "start_byte"), NumberIn(ref, "end_byte"), TextIn(ref, "quote"))
  }

  /** The check of one reference, as the judge or its labels write it. */
  predicate Validates(ref: Fields, docs: seq<Fields>)
    requires AllReadable(docs)
  {
    OriginalOf(ref).Some? && ValidCitation(ReferenceOf(ref), DocumentsOf(docs))
  }

  lemma {:induction false} PairsNotBlinded(items: Items)
    requires PairsOf(items).Some?
    ensures BlindItems(items) == items
  {
    if items.Entry? {
      PairsNotBlinded(items.tail);
      var pair := items.head.items;
      assert BlindItems(pair.tail.tail) == NoItem;
      assert BlindItems(pair.tail) == pair.tail && BlindItems(pair) == pair;
      assert Blind(items.head) == items.head;
    }
  }

  lemma {:induction false} FrameNotBlinded(doc: Fields, name: Original)
    requires FlatFrame(FrameOf(doc))
    ensures FrameOf(Rename(BlindFields(doc), name)) == FrameOf(doc)
  {
    CitationFieldsKept(doc, name, "fingerprint");
    CitationFieldsKept(doc, name, "project_id");
    CitationFieldsKept(doc, name, "chapter");
    CitationFieldsKept(doc, name, "as_of_chapter");
    CitationFieldsKept(doc, name, "representation");
    hide BlindFields, Get, Rename, Blinded;
  }

  /** The check sees of a blinded document what it saw of the document, but for its name. */
  lemma {:induction false} HiddenDocument(doc: Fields, name: Original)
    requires DocumentOf(doc).Some?
    ensures DocumentOf(Rename(BlindFields(doc), name)) == Some(DocumentOf(doc).value.(id := name.0, path := name.1))
  {
    hide BlindFields, Rename, Get, FrameOf;
    FrameNotBlinded(doc, name);
    CitationFieldsKept(doc, name, "text");
    CitationFieldsKept(doc, name, "retained_ranges");
    GetRenamed(BlindFields(doc), name, "id");
    GetRenamed(BlindFields(doc), name, "path");
    match Get(doc, "retained_ranges")
    case Some(List(items)) => PairsNotBlinded(items);
    case _ =>
  }

  function RestoredFrame(f: Frame, m: Mapping): Frame {
    Frame(Restore(f.fingerprint, m), Restore(f.project, m), Restore(f.chapter, m), Restore(f.asOf, m), Restore(f.representation, m))
  }

  /** Restoration in depth does not reach a frame without structure, nor lead to one. */
  lemma {:induction false} FrameRestored(f: Frame, g: Frame, m: Mapping)
    requires FlatFrame(g)
    ensures RestoredFrame(f, m) == g <==> f == g
  {
    hide RestoreItems, RestoreFields, Named, Rename;
  }

  /** Restoration changes a reference's name, and nothing else the check reads. */
  lemma {:induction false} RestoredReference(ref: Fields, m: Mapping, name: Name)
    requires Named(ref) == Some(name) && name in m
    ensures Restore(Obj(ref), m).Obj? && OriginalOf(Restore(Obj(ref), m).fields).Some?
    ensures ReferenceOf(Restore(Obj(ref), m).fields) ==
            ReferenceOf(ref).(id := m[name].0, path := m[name].1, frame := RestoredFrame(FrameOf(ref), m))
  {
    ReferenceRestored(ref, m, name);
    hide RestoreItems, RestoreFields, Rename, Get;
    var r := Restore(Obj(ref), m).fields;
    RestoredNull(ref, r, m, "fingerprint");
    RestoredNull(ref, r, m, "project_id");
    RestoredNull(ref, r, m, "chapter");
    RestoredNull(ref, r, m, "as_of_chapter");
    RestoredNull(ref, r, m, "representation");
    RestoredNull(ref, r, m, "start_byte");
    RestoredNull(ref, r, m, "end_byte");
    RestoredNull(ref, r, m, "quote");
  }

  lemma {:induction false} RestoredNull(ref: Fields, r: Fields, m: Mapping, key: string)
    requires Get(r, key) == match Get(ref, key) case None => None case Some(v) => Some(Restore(v, m))
    ensures GetOrNull(r, key) == Restore(GetOrNull(ref, key), m)
    ensures NumberIn(r, key) == NumberIn(ref, key) && TextIn(r, key) == TextIn(ref, key)
  {
    hide RestoreItems, RestoreFields, Named, Rename, Get;
  }

  // ---- Citations survive ----

  /** Nothing but document `k` has its name. */
  ghost predicate NamedOnce(docs: seq<Document>, k: nat)
    requires k < |docs|
  {
    forall j :: 0 <= j < |docs| && j != k ==> docs[j].id != docs[k].id || docs[j].path != docs[k].path
  }

  lemma {:induction false} MatchingMember(docs: seq<Document>, id: Json, path: Json)
    ensures Matching(docs, id, path) != [] <==> exists k :: 0 <= k < |docs| && docs[k].id == id && docs[k].path == path
  {
    if docs != [] {
      var init, last := docs[..|docs| - 1], docs[|docs| - 1];
      MatchingMember(init, id, path);
      if k :| 0 <= k < |docs| && docs[k].id == id && docs[k].path == path {
        assert k == |docs| - 1 || docs[k] == init[k];
      }
      if Matching(docs, id, path) != [] && Matching(init, id, path) != [] {
        var k :| 0 <= k < |init| && init[k].id == id && init[k].path == path;
        assert docs[k] == init[k];
      } else if Matching(docs, id, path) != [] {
        assert docs[|docs| - 1] == last;
      }
    }
  }

  /** A name matches one document exactly when only that one has it. */
  lemma {:induction false} MatchingOnce(docs: seq<Document>, k: nat)
    requires k < |docs|
    ensures |Matching(docs, docs[k].id, docs[k].path)| >= 1
    ensures |Matching(docs, docs[k].id, docs[k].path)| == 1 <==> NamedOnce(docs, k)
    ensures NamedOnce(docs, k) ==> Matching(docs, docs[k].id, docs[k].path) == [docs[k]]
  {
    var init, last := docs[..|docs| - 1], docs[|docs| - 1];
    var id, path := docs[k].id, docs[k].path;
    if k < |init| {
      MatchingOnce(init, k);
      assert NamedOnce(docs, k) <==> NamedOnce(init, k) && (last.id != id || last.path != path) by {
        assert forall j :: 0 <= j < |init| ==> init[j] == docs[j];
      }
    } else {
      MatchingMember(init, id, path);
      assert forall j :: 0 <= j < |init| ==> init[j] == docs[j];
    }
  }

  /** Validity depends on the one document matched, and on the frame only by its equality. */
  lemma {:induction false} ValidAlike(r: Reference, docs: seq<Document>, s: Reference, others: seq<Document>, k: nat)
    requires k < |docs| == |others| && NamedOnce(docs, k) && NamedOnce(others, k)
    requires (r.id, r.path) == (docs[k].id, docs[k].path) && (s.id, s.path) == (others[k].id, others[k].path)
    requires others[k] == docs[k].(id := s.id, path := s.path)
    requires s == r.(id := s.id, path := s.path, frame := s.frame) && (r.frame == docs[k].frame <==> s.frame == docs[k].frame)
    ensures ValidCitation(r, docs) <==> ValidCitation(s, others)
  {
    MatchingOnce(docs, k);
    MatchingOnce(others, k);
    hide Matching, EncodeStrict, Decode, NamedOnce;
  }

  /** Anonymous name of document `k` of the source followed by one output. */
  function PoolName(source: nat, letter: char, k: nat): Name {
    if k < source then Anonymous('S', k + 1) else Anonymous(letter, k - source + 1)
  }

  lemma {:induction false} PoolNamesDiffer(source: nat, letter: char, j: nat, k: nat)
    requires letter != 'S' && PoolName(source, letter, j) == PoolName(source, letter, k)
    ensures j == k
  {
    hide Anonymous;
    var p, q := if j < source then 'S' else letter, if k < source then 'S' else letter;
    NamesAreDistinct(p, if j < source then j + 1 else j - source + 1, q, if k < source then k + 1 else k - source + 1);
  }

  /** What the judge is shown to assess one output by: the source and that output. */
  function Pool(source: seq<Fields>, output: seq<Fields>, letter: char): seq<Fields> {
    Hidden(source, 'S') + Hidden(output, letter)
  }

  lemma {:induction false} PoolReads(source: seq<Fields>, output: seq<Fields>, letter: char)
    requires AllReadable(source + output)
    ensures |Pool(source, output, letter)| == |source + output| && AllReadable(Pool(source, output, letter))
    ensures forall k :: 0 <= k < |source + output| ==>
              var name := Label(PoolName(|source|, letter, k));
              DocumentOf(Pool(source, output, letter)[k]) ==
              Some(DocumentOf((source + output)[k]).value.(id := name.0, path := name.1))
  {
    var docs := source + output;
    forall k | 0 <= k < |docs|
      ensures var name := Label(PoolName(|source|, letter, k));
              DocumentOf(Pool(source, output, letter)[k]) == Some(DocumentOf(docs[k]).value.(id := name.0, path := name.1))
    {
      assert docs[k] in docs;
      HiddenDocument(docs[k], Label(PoolName(|source|, letter, k)));
    }
    hide DocumentOf, Anonymous, BlindFields, Rename;
    assert forall d <- Pool(source, output, letter) :: exists k :: 0 <= k < |docs| && d == Pool(source, output, letter)[k];
  }

  lemma {:induction false} PoolOriginal(source: seq<Fields>, a: seq<Fields>, b: seq<Fields>, letter: char, k: nat)
    requires AllNamed(source) && AllNamed(a) && AllNamed(b) && letter in {'A', 'B'} && k < |source + Output(a, b, letter)|
    ensures var name := PoolName(|source|, letter, k);
            var m := AllOriginals(source, a, b);
            name in m && Some(m[name]) == OriginalOf((source + Output(a, b, letter))[k])
  {
    NamespacesAreApart(source, a, b);
    var m := AllOriginals(source, a, b);
    var output := Output(a, b, letter);
    hide AllOriginals, Anonymous, OriginalOf;
    if k < |source| {
      assert LeadsTo(m, 'S', k, source[k]);
    } else {
      assert LeadsTo(m, letter, k - |source|, output[k - |source|]);
    }
  }

  function Output(a: seq<Fields>, b: seq<Fields>, letter: char): seq<Fields> {
    if letter == 'A' then a else b
  }

  /** The documents an assessment of one output is finally checked against. */
  predicate Checkable(source: seq<Fields>, a: seq<Fields>, b: seq<Fields>, letter: char): (r: bool)
    ensures r ==> AllReadable(source + Output(a, b, letter)) && AllReadable(Pool(source, Output(a, b, letter), letter))
  {
    AllReadable(source) && AllReadable(a) && AllReadable(b) && letter in {'A', 'B'} &&
    assert AllReadable(source + Output(a, b, letter));
    assert AllReadable(Pool(source, Output(a, b, letter), letter)) by {
      PoolReads(source, Output(a, b, letter), letter);
    }
    true
  }

  lemma {:induction false} PoolNamedOnce(source: seq<Fields>, output: seq<Fields>, letter: char, k: nat)
    requires AllReadable(source + output) && AllReadable(Pool(source, output, letter)) && letter != 'S' && k < |source + output|
    ensures |Pool(source, output, letter)| == |source + output| && NamedOnce(DocumentsOf(Pool(source, output, letter)), k)
  {
    PoolReads(source, output, letter);
    var docs := DocumentsOf(Pool(source, output, letter));
    hide DocumentOf, Pool, PoolName;
    forall j | 0 <= j < |docs| && j != k ensures docs[j].id != docs[k].id || docs[j].path != docs[k].path {
      if PoolName(|source|, letter, j) == PoolName(|source|, letter, k) {
        PoolNamesDiffer(|source|, letter, j, k);
      }
    }
  }

  /** The judge cites document `k` of what it was shown to assess an output by. Its citation,
      restored by the mapping of all three namespaces, is valid against the documents
      themselves exactly when it was valid against what the judge saw and no other document
      has the same original name. */
  lemma {:induction false} CitationSurvives(source: seq<Fields>, a: seq<Fields>, b: seq<Fields>, letter: char, ref: Fields, k: nat)
    requires Checkable(source, a, b, letter)
    requires k < |source + Output(a, b, letter)| && Named(ref) == Some(PoolName(|source|, letter, k))
    ensures var docs := source + Output(a, b, letter);
            var restored := Restore(Obj(ref), AllOriginals(source, a, b));
            && restored.Obj?
            && (Validates(restored.fields, docs) <==>
                Validates(ref, Pool(source, Output(a, b, letter), letter)) && NamedOnce(DocumentsOf(docs), k))
  {
    var output := Output(a, b, letter);
    var m, name := AllOriginals(source, a, b), PoolName(|source|, letter, k);
    PoolOriginal(source, a, b, letter, k);
    RestoredReference(ref, m, name);
    PoolReads(source, output, letter);
    PoolNamedOnce(source, output, letter, k);
    var docs, seen := DocumentsOf(source + output), DocumentsOf(Pool(source, output, letter));
    FlatDocument((source + output)[k]);
    FrameRestored(FrameOf(ref), docs[k].frame, m);
    hide Checkable, AllOriginals, AllReadable, Pool, PoolName, Restore, RestoredFrame, FlatFrame, FrameOf, DocumentOf, ValidCitation, NamedOnce;
    if NamedOnce(docs, k) {
      ValidAlike(ReferenceOf(ref), seen, ReferenceOf(Restore(Obj(ref), m).fields), docs, k);
    } else {
      UnmatchedInvalid(ReferenceOf(Restore(Obj(ref), m).fields), docs, k);
    }
  }

  lemma {:induction false} UnmatchedInvalid(r: Reference, docs: seq<Document>, k: nat)
    requires k < |docs| && (r.id, r.path) == (docs[k].id, docs[k].path) && !NamedOnce(docs, k)
    ensures !ValidCitation(r, docs)
  {
    MatchingOnce(docs, k);
    hide Matching, NamedOnce;
  }

  lemma {:induction false} FlatDocument(doc: Fields)
    requires DocumentOf(doc).Some?
    ensures FlatFrame(DocumentOf(doc).value.frame) && OriginalOf(doc) == Some((DocumentOf(doc).value.id, DocumentOf(doc).value.path))
  {
  }
}
