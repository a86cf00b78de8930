/** Publication of one backup, across crashes and restarts. The ledger row and events, the
    collection directory and its mirror survive a crash; everything else is lost. */
module BackupPublication {
  import opened Outcome

  /** The bytes of a manifest file: a whole manifest, which stands for its own digest, or
      what a crash left of one. */
  datatype Content = Manifest(id: nat) | Torn

  datatype Verdict = Done | Failed

  datatype Record = Absent | Open | Closed(verdict: Verdict, hash: Option<Content>)

  /** What a caller sees of one call. */
  datatype Reply =
    | Complete(hash: Content)
    | Unconfirmed
    | Reconcile
    | ReleaseMissing
    | OwnerActive
    | Refused
    | Crashed // the process died, or the exception left the call

  /** What happens at a numbered point of a call: it goes on, raises, or dies there. */
  datatype Fate = Fine | Raises | Crashes

  type Weather = nat -> Fate

  /** The first of these points that does not go on decides. */
  function FirstFate(weather: Weather, points: seq<nat>): Fate {
    if points == [] then Fine
    else if weather(points[0]) != Fine then weather(points[0])
    else FirstFate(weather, points[1..])
  }

  function Then(fate: Fate, next: Fate): Fate {
    if fate == Fine then next else fate
  }

  /** Collection and everything up to the durable publication; a collection that does not
      verify raises. */
  function ToPublication(weather: Weather, verified: bool): Fate {
    Then(FirstFate(weather, [5, 6, 7, 8]), Then(if verified then Fine else Raises, FirstFate(weather, [13, 14, 15])))
  }

  lemma {:induction false} FateOfTwo(weather: Weather, a: nat, b: nat)
    ensures FirstFate(weather, [a, b]) == Then(weather(a), weather(b))
  {
    assert [a, b][1..] == [b] && [b][1..] == [];
    assert FirstFate(weather, [b]) == weather(b);
  }

  lemma {:induction false} FateOfThree(weather: Weather, a: nat, b: nat, c: nat)
    ensures FirstFate(weather, [a, b, c]) == Then(weather(a), Then(weather(b), weather(c)))
  {
    assert [a, b, c][1..] == [b, c];
    FateOfTwo(weather, b, c);
  }

  lemma {:induction false} FateOfFour(weather: Weather, a: nat, b: nat, c: nat, d: nat)
    ensures FirstFate(weather, [a, b, c, d]) == Then(weather(a), Then(weather(b), Then(weather(c), weather(d))))
  {
    assert [a, b, c, d][1..] == [b, c, d];
    FateOfThree(weather, b, c, d);
  }

  /** What the caller is told when a call on an open row comes to this fate: done with the
      manifest's hash, unconfirmed, or nothing; 21 and 22 are the points at which the failure is
      recorded and at which the recorded success is returned. */
  function Told(fate: Fate, weather: Weather, hash: Content): Reply {
    match fate
    case Fine => if weather(22) == Fine then Complete(hash) else Crashed
    case Raises => if weather(21) == Fine then Unconfirmed else Crashed
    case Crashes => Crashed
  }

  /** And what is on record then. */
  function Recorded(fate: Fate, weather: Weather, hash: Content): Record {
    match fate
    case Fine => Closed(Done, Some(hash))
    case Raises => if weather(21) == Fine then Closed(Failed, None) else Open
    case Crashes => Open
  }

  class BackupStore {
    // the operation's row, and its events in order
    var record: Record
    var claims: nat
    var publications: seq<Content>
    // the collection directory and its mirror
    var directory: bool
    var partial: Option<Content>
    var final: Option<Content>
    var mirrored: Option<Content>
    /** How often the source was asked to collect. */
    var collects: nat

    /** What holds after every call, however it ended. */
    ghost predicate Valid()
      reads this
    {
      && |publications| <= 1 && collects <= claims <= 1
      && (collects > 0 || partial.Some? || mirrored.Some? || directory ==> claims == 1)
      && (publications != [] ==> claims == 1 && publications[0].Manifest? && mirrored == Some(publications[0]))
      // the manifest is there only once its publication is on record, and is what was recorded
      && (final.Some? ==> publications == [final.value])
      && (publications != [] ==> final == Some(publications[0]) || partial == Some(publications[0]))
      && (record.Closed? && record.verdict.Done? ==> final.Some? && record.hash == final)
      && (record.Absent? ==> claims == 0 && publications == [])
    }

    constructor ()
      ensures Valid() && collects == 0 && record == Absent
    {
      record, claims, publications := Absent, 0, [];
      directory, partial, final, mirrored, collects := false, None, None, None, 0;
    }

    /** Nothing recorded is taken back. */
    twostate predicate Onward()
      reads this
    {
      && old(claims) <= claims && old(collects) <= collects
      && old(publications) <= publications
      && (old(record).Closed? ==> record == old(record))
      && (old(final).Some? ==> final == old(final))
    }

    twostate predicate Unchanged()
      reads this
    {
      && claims == old(claims) && collects == old(collects) && publications == old(publications) && record == old(record)
      && directory == old(directory) && partial == old(partial) && final == old(final) && mirrored == old(mirrored)
    }

    /** `ledger.finish` from the exception handler; what it raises ends the call. */
    method Fail(weather: Weather) returns (r: Reply)
      requires Valid() && record.Open?
      modifies this`record
      ensures Valid() && Onward()
      ensures r == (if weather(21) == Fine then Unconfirmed else Crashed) && record == if weather(21) == Fine then Closed(Failed, None) else Open
      ensures claims == old(claims) && collects == old(collects) && publications == old(publications) && final == old(final)
    {
      if weather(21) != Fine {
        return Crashed;
      }
      record := Closed(Failed, None);
      r := Unconfirmed;
    }

    /** A receipt that is already terminal is only checked again. */
    method Revalidate(weather: Weather) returns (r: Reply)
      requires Valid() && record.Closed?
      ensures r.Complete? ==> record == Closed(Done, Some(r.hash)) && publications == [r.hash] && final == Some(r.hash)
      ensures record.verdict.Failed? ==> r == Unconfirmed
      ensures record.verdict.Done? ==>
                r == match weather(30) case Fine => Complete(record.hash.value) case Raises => Refused case Crashes => Crashed
    {
      if record.verdict.Failed? {
        return Unconfirmed;
      }
      if weather(30).Crashes? {
        return Crashed;
      }
      if publications == [] || final != Some(publications[0]) || Some(publications[0]) != record.hash
         || mirrored != Some(publications[0]) || weather(30).Raises? {
        return Refused;
      }
      r := Complete(publications[0]);
    }

    /** A published manifest is brought into place and the row is finished with its hash. */
    method Resume(weather: Weather) returns (r: Reply)
      requires Valid() && record.Open? && publications != []
      modifies this
      ensures Valid() && Onward() && claims == old(claims) && collects == old(collects) && publications == old(publications)
      ensures var fate := FirstFate(weather, [1, 4, 20]);
              r == Told(fate, weather, publications[0]) && record == Recorded(fate, weather, publications[0])
      ensures final == if old(final).Some? || FirstFate(weather, [1, 4]) == Fine then Some(publications[0]) else None
      ensures r.Complete? ==> record == Closed(Done, Some(r.hash)) && publications == [r.hash] && final == Some(r.hash)
    {
      FateOfTwo(weather, 1, 4);
      FateOfThree(weather, 1, 4, 20);
      hide FirstFate;
      var published := publications[0];
      var found := if final.Some? then final else partial;
      if weather(1).Crashes? {
        return Crashed;
      }
      if weather(1).Raises? || found != Some(published) || mirrored != Some(published) {
        r := Fail(weather);
        return;
      }
      if weather(4).Crashes? {
        return Crashed;
      }
      if weather(4).Raises? {
        r := Fail(weather);
        return;
      }
      if final.None? {
        final, partial := partial, None;
      }
      r := Finish(published, weather);
    }

    method Finish(hash: Content, weather: Weather) returns (r: Reply)
      requires Valid() && record.Open? && final == Some(hash) && publications == [hash]
      modifies this`record
      ensures Valid() && Onward()
      ensures r == Told(weather(20), weather, hash) && record == Recorded(weather(20), weather, hash)
    {
      if weather(20).Crashes? {
        return Crashed;
      }
      if weather(20).Raises? {
        r := Fail(weather);
        return;
      }
      record := Closed(Done, Some(hash));
      // even if the answer is lost, the handler cannot replace the receipt
      r := if weather(22) == Fine then Complete(hash) else Crashed;
    }

    /** Claim the operation, make its directory and collect. */
    method Collect(verified: bool, weather: Weather) returns (fate: Fate)
      requires Valid() && record.Open? && publications == [] && claims == 0 && !directory
      modifies this`claims, this`directory, this`collects
      ensures Valid() && Onward()
      ensures fate == Then(FirstFate(weather, [5, 6, 7, 8]), if verified then Fine else Raises)
      ensures claims == if weather(5) == Fine then 1 else 0
      ensures collects == if FirstFate(weather, [5, 6]) == Fine && !weather(7).Crashes? then 1 else 0
      ensures fate == Fine ==> claims == 1 && directory && collects == 1
    {
      FateOfTwo(weather, 5, 6);
      FateOfFour(weather, 5, 6, 7, 8);
      hide FirstFate;
      if weather(5) != Fine {
        return weather(5);
      }
      claims := claims + 1;
      if weather(6) != Fine {
        return weather(6);
      }
      directory := true;
      if weather(7).Crashes? {
        return Crashes;
      }
      collects := collects + 1;
      if weather(7) != Fine {
        return weather(7);
      }
      if weather(8) != Fine {
        return weather(8);
      }
      fate := if verified then Fine else Raises;
    }

    /** Write the manifest, mirror it and put its publication on record. */
    method Commit(m: nat, weather: Weather) returns (fate: Fate)
      requires Valid() && record.Open? && publications == [] && claims == 1 && partial.None? && mirrored.None?
      modifies this`partial, this`mirrored, this`publications
      ensures Valid() && Onward() && fate == FirstFate(weather, [13, 14, 15])
      ensures publications == if fate == Fine then [Manifest(m)] else []
      ensures fate == Fine ==> partial == Some(Manifest(m))
    {
      FateOfThree(weather, 13, 14, 15);
      hide FirstFate;
      // durable_file opens exclusively: a crash can leave a torn file behind
      if weather(13) != Fine {
        partial := if weather(13).Crashes? then Some(Torn) else None;
        return weather(13);
      }
      partial := Some(Manifest(m));
      if weather(14) != Fine {
        mirrored := if weather(14).Crashes? then Some(Torn) else None;
        return weather(14);
      }
      mirrored := Some(Manifest(m));
      if weather(15) != Fine {
        return weather(15);
      }
      publications := publications + [Manifest(m)];
      fate := Fine;
    }

    /** Claim, collect, mirror and publish. `m` is the manifest the collection yields and
        `verified` says that collection and identity checks passed. */
    method Publish(m: nat, verified: bool, weather: Weather) returns (r: Reply)
      requires Valid() && record.Open? && publications == [] && claims == 0 && !directory
      modifies this
      ensures Valid() && Onward()
      ensures var fate := Then(ToPublication(weather, verified), FirstFate(weather, [16, 20]));
              r == Told(fate, weather, Manifest(m)) && record == Recorded(fate, weather, Manifest(m))
      ensures claims == if weather(5) == Fine then 1 else 0
      ensures collects == if FirstFate(weather, [5, 6]) == Fine && !weather(7).Crashes? then 1 else 0
      ensures publications == if ToPublication(weather, verified) == Fine then [Manifest(m)] else []
      ensures final == if Then(ToPublication(weather, verified), weather(16)) == Fine then Some(Manifest(m)) else None
      ensures r.Complete? ==> record == Closed(Done, Some(r.hash)) && publications == [r.hash] && final == Some(r.hash)
    {
      FateOfTwo(weather, 16, 20);
      hide FirstFate;
      var fate := Collect(verified, weather);
      if fate == Fine {
        fate := Commit(m, weather);
      }
      if fate == Fine {
        fate := weather(16);
      }
      if fate == Fine {
        final, partial := partial, None;
        r := Finish(Manifest(m), weather);
      } else if fate.Crashes? {
        r := Crashed;
      } else {
        r := Fail(weather);
      }
    }

    /** One call of the backup operation. `released` is the gate of the POST phase and `free`
        says that the collection lock was obtained. */
    method Create(released: bool, free: bool, m: nat, verified: bool, weather: Weather) returns (r: Reply)
      requires Valid()
      modifies this
      ensures Valid() && Onward()
      // collected only by the call that claims
      ensures collects > old(collects) ==> old(claims) == 0 && claims == 1
      ensures r.Complete? ==> record == Closed(Done, Some(r.hash)) && publications == [r.hash] && final == Some(r.hash)
      // refused before anything is written
      ensures !released ==> r == ReleaseMissing && Unchanged()
      ensures released && old(record).Closed? ==>
                && Unchanged()
                && r == if record.verdict.Failed? then Unconfirmed
                        else match weather(30) case Fine => Complete(record.hash.value) case Raises => Refused case Crashes => Crashed
      ensures released && !old(record).Closed? && !free ==> r == OwnerActive && Unchanged()
      // a first call collects and publishes, as far as it gets
      ensures released && free && !old(record).Closed? && old(publications) == [] && old(claims) == 0 && !old(directory) ==>
                var fate := Then(weather(0), Then(ToPublication(weather, verified), FirstFate(weather, [16, 20])));
                && r == Told(fate, weather, Manifest(m)) && record == Recorded(fate, weather, Manifest(m))
                && publications == (if Then(weather(0), ToPublication(weather, verified)) == Fine then [Manifest(m)] else [])
                && collects == (if FirstFate(weather, [0, 5, 6]) == Fine && !weather(7).Crashes? then 1 else 0)
      // a crash after publication is made good by any later call that gets through
      ensures released && free && !old(record).Closed? && old(publications) != [] ==>
                var fate := FirstFate(weather, [0, 1, 4, 20]);
                && r == Told(fate, weather, publications[0]) && record == Recorded(fate, weather, publications[0])
                && publications == old(publications) && collects == old(collects)
      // a crash between claim and publication is left to an operator
      ensures released && free && !old(record).Closed? && old(publications) == [] && (old(claims) > 0 || old(directory)) ==>
                && collects == old(collects) && final == old(final) && publications == old(publications)
                && if weather(0) == Fine then r == Reconcile && record == Open
                   else r == Told(weather(0), weather, Torn) && record == Recorded(weather(0), weather, Torn)
    {
      FateOfTwo(weather, 5, 6);
      FateOfTwo(weather, 1, 4);
      FateOfTwo(weather, 16, 20);
      FateOfThree(weather, 0, 5, 6);
      FateOfThree(weather, 1, 4, 20);
      FateOfFour(weather, 0, 1, 4, 20);
      hide FirstFate, ToPublication;
      if !released {
        return ReleaseMissing;
      }
      if record.Closed? {
        r := Revalidate(weather);
        return;
      }
      if !free {
        return OwnerActive;
      }
      record := Open;
      if weather(0) != Fine {
        if weather(0).Crashes? {
          return Crashed;
        }
        r := Fail(weather);
        return;
      }
      if publications != [] {
        r := Resume(weather);
        return;
      }
      if claims > 0 || directory {
        return Reconcile;
      }
      r := Publish(m, verified, weather);
    }
  }

  /** One call of a history. */
  datatype Call = Call(released: bool, free: bool, m: nat, verified: bool, weather: Weather)

  /** Any number of calls, with crashes and restarts between and within them. */
  method History(store: BackupStore, calls: seq<Call>) returns (replies: seq<Reply>)
    requires store.Valid()
    modifies store
    ensures store.Valid() && |replies| == |calls|
    ensures store.collects <= 1
    ensures forall i, j :: 0 <= i < |replies| && 0 <= j < |replies| && replies[i].Complete? && replies[j].Complete? ==>
              replies[i].hash == replies[j].hash
    ensures forall i :: 0 <= i < |replies| && replies[i].Complete? ==>
              store.publications == [replies[i].hash] && store.final == Some(replies[i].hash)
              && store.record == Closed(Done, Some(replies[i].hash))
    // without its release no call does anything
    ensures forall i :: 0 <= i < |calls| ==> (replies[i] == ReleaseMissing <==> !calls[i].released)
    ensures (forall c <- calls :: !c.released) ==> store.Unchanged()
  {
    replies := [];
    for n := 0 to |calls|
      invariant store.Valid() && |replies| == n
      invariant forall i :: 0 <= i < n && replies[i].Complete? ==>
                  store.publications == [replies[i].hash] && store.final == Some(replies[i].hash)
                  && store.record == Closed(Done, Some(replies[i].hash))
      invariant forall i :: 0 <= i < n ==> (replies[i] == ReleaseMissing <==> !calls[i].released)
      invariant (forall c <- calls[..n] :: !c.released) ==> store.Unchanged()
    {
      assert calls[..n + 1] == calls[..n] + [calls[n]];
      var c := calls[n];
      var r := store.Create(c.released, c.free, c.m, c.verified, c.weather);
      replies := replies + [r];
    }
  }
}
