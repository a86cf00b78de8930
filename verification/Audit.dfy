/** The append-only audit chain: every event carries the digest of its predecessor. */
module Audit {
  import opened Outcome

  const MAX_EVENT_BYTES := 32768
  const DAY := 86_400_000_000
  const UTC_PLUS_8 := 28_800_000_000

  /** What a caller records. */
  datatype Entry = Entry(runId: string, occurredAt: Option<int>, rest: string)

  /** An event without its own digest. */
  datatype Core = Core(entry: Entry, key: string, sequence: nat, previous: Option<Digest>, recordedAt: int, day: int)

  /** A digest without collisions. */
  datatype Digest = Of(core: Core)

  datatype Event = Event(core: Core, hash: Digest)

  /** A stored row; the input's digest stands for the input as it was given. */
  datatype Row = Row(key: string, input: Entry, event: Event)

  /** Validation and redaction of an entry, and the size of an encoded event. */
  datatype Codec = Codec(normalize: Entry -> Option<Entry>, size: Event -> nat, name: string -> bool)

  function DayOf(instant: int): int {
    (instant + UTC_PLUS_8) / DAY
  }

  function At(entry: Entry, recorded: int): int {
    if entry.occurredAt.Some? then entry.occurredAt.value else recorded
  }

  /** A stored row can be read: its size, projection, day, key and digest are in order. */
  predicate Readable(c: Codec, row: Row) {
    var core := row.event.core;
    && c.size(row.event) <= MAX_EVENT_BYTES
    && c.normalize(core.entry) == Some(core.entry)
    && core.day == DayOf(At(core.entry, core.recordedAt))
    && core.key == row.key && core.sequence > 0 && c.name(core.key)
    && row.event.hash == Of(core)
  }

  function Head(rows: seq<Row>): Option<Digest> {
    if rows == [] then None else Some(rows[|rows| - 1].event.hash)
  }

  /** The row continues the chain of the rows before it. */
  predicate Continues(rows: seq<Row>, row: Row) {
    row.event.core.sequence == |rows| + 1 && row.event.core.previous == Head(rows)
  }

  ghost predicate Chain(c: Codec, rows: seq<Row>) {
    forall i :: 0 <= i < |rows| ==> Readable(c, rows[i]) && Continues(rows[..i], rows[i])
  }

  ghost predicate DistinctKeys(rows: seq<Row>) {
    forall i, j :: 0 <= i < j < |rows| ==> rows[i].key != rows[j].key
  }

  function Find(rows: seq<Row>, key: string): (r: Option<Row>)
    ensures r.Some? ==> r.value in rows && r.value.key == key
    ensures r.None? ==> forall row <- rows :: row.key != key
  {
    if rows == [] then None
    else if rows[0].key == key then Some(rows[0])
    else Find(rows[1..], key)
  }

  function NewEvent(entry: Entry, key: string, prior: Option<Event>, now: int): Event {
    var core := Core(entry, key, if prior.None? then 1 else prior.value.core.sequence + 1,
                     if prior.None? then None else Some(prior.value.hash), now, DayOf(At(entry, now)));
    Event(core, Of(core))
  }

  function Last(rows: seq<Row>): Option<Event> {
    if rows == [] then None else Some(rows[|rows| - 1].event)
  }

  /** What an append is refused for: a bad key or entry, another input under the key, or an
      event that is too large. */
  predicate Refused(c: Codec, rows: seq<Row>, key: string, record: Entry, now: int) {
    || !c.name(key)
    || c.normalize(record).None?
    || match Find(rows, key)
       case Some(row) => row.input != record
       case None => c.size(NewEvent(c.normalize(record).value, key, Last(rows), now)) > MAX_EVENT_BYTES
  }

  /** Normalising twice is normalising once. */
  ghost predicate Idempotent(c: Codec) {
    forall e :: c.normalize(e).Some? ==> c.normalize(c.normalize(e).value) == c.normalize(e)
  }

  // ---- The chain in its fields ----

  /** The instant falls on this day in Shanghai. */
  ghost predicate FallsOn(instant: int, day: int) {
    day * 86_400_000_000 <= instant + 28_800_000_000 < (day + 1) * 86_400_000_000
  }

  /** Row `i` holds event number `i + 1`, intact and in its own words, and carries the digest of
      the event before. */
  ghost predicate Holds(c: Codec, rows: seq<Row>, i: nat)
    requires i < |rows|
  {
    var event := rows[i].event;
    var core := event.core;
    && c.size(event) <= 32_768 && event.hash == Of(core) && core.key == rows[i].key && c.name(core.key)
    && core.sequence == i + 1 && core.previous == (if i == 0 then None else Some(rows[i - 1].event.hash))
    && c.normalize(core.entry) == Some(core.entry)
    && FallsOn(if core.entry.occurredAt.Some? then core.entry.occurredAt.value else core.recordedAt, core.day)
  }

  lemma {:induction false} DayFallsOn(instant: int, day: int)
    ensures DayOf(instant) == day <==> FallsOn(instant, day)
  {
  }

  lemma {:induction false} LinkHolds(c: Codec, rows: seq<Row>, i: nat)
    requires i < |rows|
    ensures Readable(c, rows[i]) && Continues(rows[..i], rows[i]) <==> Holds(c, rows, i)
  {
    DayFallsOn(At(rows[i].event.core.entry, rows[i].event.core.recordedAt), rows[i].event.core.day);
    hide DayOf, FallsOn;
  }

  /** A chain is intact exactly when every row holds its event. */
  lemma {:induction false} ChainHolds(c: Codec, rows: seq<Row>)
    ensures Chain(c, rows) <==> forall i: nat :: i < |rows| ==> Holds(c, rows, i)
  {
    hide Readable, Continues, Holds;
    forall i: nat | i < |rows| ensures Readable(c, rows[i]) && Continues(rows[..i], rows[i]) <==> Holds(c, rows, i) {
      LinkHolds(c, rows, i);
    }
  }

  /** The event an entry becomes behind these rows, at this time. */
  ghost predicate Becomes(c: Codec, rows: seq<Row>, key: string, record: Entry, now: int, event: Event) {
    var core := event.core;
    && c.normalize(record) == Some(core.entry) && core.key == key && core.recordedAt == now && event.hash == Of(core)
    && core.sequence == |rows| + 1 && core.previous == (if rows == [] then None else Some(rows[|rows| - 1].event.hash))
    && FallsOn(if core.entry.occurredAt.Some? then core.entry.occurredAt.value else now, core.day)
  }

  lemma {:induction false} NewEventBecomes(c: Codec, rows: seq<Row>, key: string, record: Entry, now: int)
    requires Chain(c, rows) && c.normalize(record).Some?
    ensures Becomes(c, rows, key, record, now, NewEvent(c.normalize(record).value, key, Last(rows), now))
  {
    DayFallsOn(At(c.normalize(record).value, now), DayOf(At(c.normalize(record).value, now)));
    if rows != [] {
      assert Continues(rows[..|rows| - 1], rows[|rows| - 1]);
    }
    hide DayOf, FallsOn;
  }

  class AuditStore {
    const codec: Codec
    var rows: seq<Row>

    ghost predicate Valid()
      reads this
    {
      Chain(codec, rows) && DistinctKeys(rows)
    }

    constructor (codec: Codec)
      ensures this.codec == codec && rows == [] && Valid()
    {
      this.codec, rows := codec, [];
    }

    /** Append an event under its key. The same input again returns the event that is there,
        a different one is refused, and only a new key extends the chain, by one. */
    method Append(key: string, record: Entry, now: int) returns (r: Result<Event>)
      modifies this
      ensures old(Valid()) && Idempotent(codec) ==> Valid()
      ensures r.Err? ==> rows == old(rows)
      ensures r.Ok? ==> match Find(old(rows), key)
                        case Some(row) => rows == old(rows) && row.input == record && r.value == row.event
                        case None => rows == old(rows) + [Row(key, record, r.value)] && codec.normalize(record).Some?
                                     && r.value == NewEvent(codec.normalize(record).value, key, Last(old(rows)), now)
                                     && (old(Valid()) ==> Becomes(codec, old(rows), key, record, now, r.value))
      ensures old(Valid()) ==> (r.Err? <==> Refused(codec, old(rows), key, record, now))
    {
      if !codec.name(key) {
        return Err(BadValue);
      }
      var normalized := codec.normalize(record);
      if normalized.None? {
        return Err(BadValue);
      }
      var existing := Find(rows, key);
      if existing.Some? {
        if existing.value.input != record {
          return Err(Error.Conflict);
        }
        return if Readable(codec, existing.value) then Ok(existing.value.event) else Err(BadValue);
      }
      var prior := Last(rows);
      if prior.Some? && !Readable(codec, rows[|rows| - 1]) {
        return Err(BadValue);
      }
      var event := NewEvent(normalized.value, key, prior, now);
      if codec.size(event) > MAX_EVENT_BYTES {
        return Err(BadValue);
      }
      if old(Valid()) {
        NewEventBecomes(codec, rows, key, record, now);
      }
      if old(Valid()) && Idempotent(codec) {
        assert rows != [] ==> Continues(rows[..|rows| - 1], rows[|rows| - 1]);
        ChainNext(codec, rows, Row(key, record, event));
      }
      rows := rows + [Row(key, record, event)];
      r := Ok(event);
    }

    /** Read the whole chain in order, checking every link. */
    method Iterate() returns (r: Result<seq<Event>>)
      ensures r.Ok? <==> Chain(codec, rows)
      ensures r.Ok? <==> forall i: nat :: i < |rows| ==> Holds(codec, rows, i)
      ensures r.Ok? ==> r.value == Events(rows)
    {
      ChainHolds(codec, rows);
      hide Readable, Head, Events, Holds;
      var previous: Option<Digest> := None;
      var events: seq<Event> := [];
      NothingRead(rows);
      for n := 0 to |rows|
        invariant previous == Head(rows[..n]) && events == Events(rows[..n])
        invariant forall i :: 0 <= i < n ==> Readable(codec, rows[i]) && Continues(rows[..i], rows[i])
      {
        var row := rows[n];
        ReadNext(rows, n);
        if !Readable(codec, row) || row.event.core.sequence != n + 1 || row.event.core.previous != previous {
          assert !(Readable(codec, rows[n]) && Continues(rows[..n], rows[n]));
          return Err(BadValue);
        }
        previous := Some(row.event.hash);
        events := events + [row.event];
      }
      assert rows[..|rows|] == rows;
      r := Ok(events);
    }
  }

  lemma {:induction false} NothingRead(rows: seq<Row>)
    ensures Head(rows[..0]) == None && Events(rows[..0]) == []
  {
  }

  lemma {:induction false} ReadNext(rows: seq<Row>, n: nat)
    requires n < |rows|
    ensures Head(rows[..n + 1]) == Some(rows[n].event.hash) && Events(rows[..n + 1]) == Events(rows[..n]) + [rows[n].event]
  {
    assert rows[..n + 1][..n] == rows[..n];
  }

  function Events(rows: seq<Row>): (es: seq<Event>)
    ensures |es| == |rows| && forall i :: 0 <= i < |rows| ==> es[i] == rows[i].event
  {
    if rows == [] then [] else Events(rows[..|rows| - 1]) + [rows[|rows| - 1].event]
  }

  lemma {:induction false} ChainNext(c: Codec, rows: seq<Row>, row: Row)
    requires Chain(c, rows) && Readable(c, row) && Continues(rows, row)
    ensures Chain(c, rows + [row])
  {
    hide Readable, Continues;
    var grown := rows + [row];
    forall i | 0 <= i < |grown| ensures Readable(c, grown[i]) && Continues(grown[..i], grown[i]) {
      if i < |rows| {
        assert grown[..i] == rows[..i];
      } else {
        assert grown[..i] == rows;
      }
    }
  }

  /** The head determines the chain: two histories with the same last digest have the same
      events, so nothing earlier can be changed, dropped or reordered under it. */
  lemma {:induction false} HeadDetermines(c: Codec, a: seq<Row>, b: seq<Row>)
    requires Chain(c, a) && Chain(c, b) && Head(a) == Head(b)
    ensures Events(a) == Events(b)
  {
    if a != [] {
      var x, y := a[|a| - 1], b[|b| - 1];
      assert Readable(c, x) && Continues(a[..|a| - 1], x);
      assert Readable(c, y) && Continues(b[..|b| - 1], y);
      ChainInit(c, a);
      ChainInit(c, b);
      HeadDetermines(c, a[..|a| - 1], b[..|b| - 1]);
    }
  }

  lemma {:induction false} ChainInit(c: Codec, rows: seq<Row>)
    requires Chain(c, rows) && rows != []
    ensures Chain(c, rows[..|rows| - 1])
  {
    hide Readable, Continues;
    var init := rows[..|rows| - 1];
    forall i | 0 <= i < |init| ensures Readable(c, init[i]) && Continues(init[..i], init[i]) {
      assert init[..i] == rows[..i];
    }
  }
}
