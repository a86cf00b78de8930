/** Ownership of probe containers on a daemon that may answer late or not at all.
    The daemon is an adversary between any two answers: requests it has accepted may
    take effect at any later time or never, containers start, exit and disappear, and
    containers of others come and go. It does not lie, and never reuses an identifier. */
module ContainerProbe {
  import opened Outcome

  /** A container's last known state; `Stopped` carries the exit code, if it has one. */
  datatype BoxState = Running | Stopped(exit: Option<int>) | Gone

  /** `ours` stands for the image and the labels of this operation. */
  datatype Box = Box(name: string, mode: string, ours: bool, state: BoxState)

  /** Every container there ever was, and the create requests not yet carried out. */
  datatype World = World(boxes: map<nat, Box>, inflight: map<string, string>)

  /** Lost is a timeout, or an answer that cannot be read. */
  datatype Reply<+T> = Answer(value: T) | NoSuch | Refused | Lost

  const KINDS := ["isolation", "resources", "timeout", "overflow"]

  predicate SameBox(a: Box, b: Box) {
    a.name == b.name && a.mode == b.mode && a.ours == b.ours && (a.state.Gone? ==> b.state.Gone?)
  }

  /** Only a request in flight makes a container of ours, and is spent by it. */
  predicate Born(w: World, b: Box, v: World) {
    b.ours ==> b.name in w.inflight && w.inflight[b.name] == b.mode && b.name !in v.inflight
  }

  /** What the daemon may do on its own between two answers. */
  predicate Drifts(w: World, v: World) {
    && (forall id <- w.boxes :: id in v.boxes && SameBox(w.boxes[id], v.boxes[id]))
    && (forall id <- v.boxes :: id in w.boxes || Born(w, v.boxes[id], v))
    && (forall a <- v.boxes, b <- v.boxes ::
          a !in w.boxes && b !in w.boxes && v.boxes[a].ours && v.boxes[b].ours && v.boxes[a].name == v.boxes[b].name ==> a == b)
    && (forall n <- v.inflight :: n in w.inflight && v.inflight[n] == w.inflight[n])
  }

  /** Time passes: no container is forgotten or changes its identity, and what is gone stays gone. */
  predicate Ages(w: World, v: World) {
    forall id <- w.boxes :: id in v.boxes && SameBox(w.boxes[id], v.boxes[id])
  }

  lemma {:induction false} AgesRefl(w: World)
    ensures Ages(w, w)
  {
  }

  lemma {:induction false} RequestAges(w: World, name: string, mode: string)
    ensures Ages(w, w.(inflight := w.inflight[name := mode]))
  {
  }

  lemma {:induction false} AgesTransitive(u: World, v: World, w: World)
    requires Ages(u, v) && Ages(v, w)
    ensures Ages(u, w)
  {
    forall id | id in u.boxes ensures id in w.boxes && SameBox(u.boxes[id], w.boxes[id]) {
      assert SameBox(u.boxes[id], v.boxes[id]) && SameBox(v.boxes[id], w.boxes[id]);
    }
  }

  /** One drift stands for any number of them. */
  lemma {:induction false} DriftsTransitive(u: World, v: World, w: World)
    requires Drifts(u, v) && Drifts(v, w)
    ensures Drifts(u, w)
  {
    forall id | id in w.boxes ensures id in u.boxes || Born(u, w.boxes[id], w) {
      if id in v.boxes && id !in u.boxes {
        assert Born(u, v.boxes[id], v) && SameBox(v.boxes[id], w.boxes[id]);
      }
    }
    forall a, b | a in w.boxes && b in w.boxes && a !in u.boxes && b !in u.boxes && w.boxes[a].ours && w.boxes[b].ours
                  && w.boxes[a].name == w.boxes[b].name
      ensures a == b
    {
      if a in v.boxes && b !in v.boxes {
        SpentOnce(u, v, w, a, b);
      } else if b in v.boxes && a !in v.boxes {
        SpentOnce(u, v, w, b, a);
      }
    }
  }

  lemma {:induction false} SpentOnce(u: World, v: World, w: World, a: nat, b: nat)
    requires Drifts(u, v) && Drifts(v, w) && a in v.boxes && a !in u.boxes && b in w.boxes && b !in v.boxes
    requires w.boxes[a].ours && w.boxes[b].ours
    ensures w.boxes[a].name != w.boxes[b].name
  {
    assert SameBox(v.boxes[a], w.boxes[a]);
    assert Born(u, v.boxes[a], v) && Born(v, w.boxes[b], w);
  }

  predicate Live(w: World, id: nat) {
    id in w.boxes && w.boxes[id].ours && !w.boxes[id].state.Gone?
  }

  /** The daemon. Which of the possible answers it gives is not determined, but what it was
      asked and how it answered is on a log of its own. */
  class Daemon {
    var world: World
    /** Identifiers truthfully reported stopped, with the exit code of that moment. */
    ghost var reported: set<(nat, int)>
    /** How often it was not the expected machine, or lost or refused what it was asked for. */
    ghost var troubles: nat
    /** Requests to create, kill and remove. */
    ghost var creations: seq<(string, string)>
    ghost var kills: seq<nat>
    ghost var removes: seq<nat>
    /** What inspections by identifier and by name have shown; `Gone` when there was nothing. */
    ghost var seen: seq<(nat, BoxState)>
    ghost var found: seq<(string, Option<Box>)>

    constructor ()
      ensures world == World(map[], map[]) && reported == {}
    {
      world, reported, troubles := World(map[], map[]), {}, 0;
      creations, kills, removes, seen, found := [], [], [], [], [];
    }

    method Drift()
      modifies this`world
      ensures Drifts(old(world), world)
    {
      var next: World := *;
      if Drifts(world, next) {
        world := next;
      }
    }

    /** Is this still the daemon, and of the expected machine? */
    method Info() returns (ok: bool)
      modifies this`world, this`troubles
      ensures Drifts(old(world), world)
      ensures troubles == old(troubles) + if ok then 0 else 1
    {
      Drift();
      ok := *;
      if !ok {
        troubles := troubles + 1;
      }
    }

    /** A request in flight; its answer, when there is one, is the container it made. */
    method Create(name: string, mode: string) returns (r: Reply<nat>)
      modifies this`world, this`troubles, this`creations
      ensures Drifts(old(world).(inflight := old(world).inflight[name := mode]), world)
      ensures r.Answer? ==> r.value !in old(world).boxes && r.value in world.boxes && world.boxes[r.value].ours
                            && world.boxes[r.value].name == name && world.boxes[r.value].mode == mode
      ensures creations == old(creations) + [(name, mode)] && troubles == old(troubles) + if r.Answer? then 0 else 1
    {
      creations := creations + [(name, mode)];
      var before := world.boxes;
      world := world.(inflight := world.inflight[name := mode]);
      Drift();
      var id: nat := *;
      var answered: bool := *;
      if answered && id !in before && id in world.boxes && world.boxes[id] == Box(name, mode, true, world.boxes[id].state) {
        return Answer(id);
      }
      troubles := troubles + 1;
      r := Lost;
    }

    method Inspect(id: nat) returns (r: Reply<Box>)
      modifies this`world, this`reported, this`troubles, this`seen
      ensures Drifts(old(world), world)
      ensures r.Answer? ==> id in world.boxes && world.boxes[id] == r.value && !r.value.state.Gone?
      ensures r.NoSuch? ==> id !in world.boxes || world.boxes[id].state.Gone?
      ensures reported == old(reported) + (if r.Answer? && r.value.state.Stopped? && r.value.state.exit.Some?
                                           then {(id, r.value.state.exit.value)} else {})
      ensures seen == old(seen) + [(id, if r.Answer? then r.value.state else Gone)]
      ensures troubles == old(troubles) + if r.Answer? || r.NoSuch? then 0 else 1
    {
      Drift();
      var answered: bool := *;
      if !answered {
        troubles, seen := troubles + 1, seen + [(id, Gone)];
        var refused: bool := *;
        return if refused then Refused else Lost;
      }
      if id !in world.boxes || world.boxes[id].state.Gone? {
        seen := seen + [(id, Gone)];
        return NoSuch;
      }
      var box := world.boxes[id];
      seen := seen + [(id, box.state)];
      if box.state.Stopped? && box.state.exit.Some? {
        reported := reported + {(id, box.state.exit.value)};
      }
      r := Answer(box);
    }

    /** Any one container that carries the name. */
    method InspectName(name: string) returns (r: Reply<(nat, Box)>)
      modifies this`world, this`troubles, this`found
      ensures Drifts(old(world), world)
      ensures r.Answer? ==> r.value.0 in world.boxes && world.boxes[r.value.0] == r.value.1
                            && r.value.1.name == name && !r.value.1.state.Gone?
      ensures found == old(found) + [(name, if r.Answer? then Some(r.value.1) else None)]
      ensures troubles == old(troubles) + if r.Lost? then 1 else 0
    {
      Drift();
      var id: nat := *;
      if id in world.boxes && world.boxes[id].name == name && !world.boxes[id].state.Gone? {
        found := found + [(name, Some(world.boxes[id]))];
        return Answer((id, world.boxes[id]));
      }
      found := found + [(name, None)];
      var refused: bool := *;
      if !refused {
        troubles := troubles + 1;
      }
      r := if refused then Refused else Lost;
    }

    method Kill(id: nat) returns (r: Reply<()>)
      modifies this`world, this`troubles, this`kills
      ensures Drifts(old(world), world)
      ensures kills == old(kills) + [id] && troubles == old(troubles) + if r.Lost? then 1 else 0
    {
      Drift();
      kills := kills + [id];
      var answered: bool := *;
      if !answered {
        troubles := troubles + 1;
      }
      r := if answered then Answer(()) else Lost;
    }

    /** An answered removal has happened; one that timed out may happen later. */
    method Remove(id: nat) returns (r: Reply<()>)
      modifies this`world, this`troubles, this`removes
      ensures Drifts(old(world), world)
      ensures r.Answer? ==> id in world.boxes && world.boxes[id].state.Gone?
      ensures removes == old(removes) + [id] && troubles == old(troubles) + if r.Answer? then 0 else 1
    {
      Drift();
      removes := removes + [id];
      if id in world.boxes && world.boxes[id].state.Gone? {
        return Answer(());
      }
      troubles := troubles + 1;
      var refused: bool := *;
      r := if refused then Refused else Lost;
    }

    /** The identifiers of all containers that carry this operation's label. */
    method List() returns (r: Reply<set<nat>>)
      modifies this`world, this`troubles
      ensures Drifts(old(world), world)
      ensures r.Answer? ==> r.value == set id | id in world.boxes && Live(world, id)
      ensures troubles == old(troubles) + if r.Answer? then 0 else 1
    {
      Drift();
      var answered: bool := *;
      if !answered {
        troubles := troubles + 1;
      }
      r := if answered then Answer(set id | id in world.boxes && Live(world, id)) else Lost;
    }
  }

  function NameOf(mode: string): string {
    "myink-pi-probe-" + mode
  }

  lemma {:induction false} NamesDiffer(a: string, b: string)
    requires NameOf(a) == NameOf(b)
    ensures a == b
  {
    var n := |"myink-pi-probe-"|;
    assert NameOf(a)[n..] == a && NameOf(b)[n..] == b;
  }

  /** What a removal leaves behind as evidence. */
  datatype Removal = Removal(id: nat, exit: int, reconciled: bool)

  // ---- The ownership invariant ----

  /** A container of ours is owned or its name is pending; a request in flight is pending;
      and there is at most one of either for a name. */
  ghost predicate Tracked(w: World, owned: map<nat, (string, string)>, pending: map<string, string>) {
    && (forall id :: Live(w, id) ==> id in owned || w.boxes[id].name in pending)
    && (forall n :: n in w.inflight ==> n in pending && w.inflight[n] == pending[n])
    && (forall a, b :: Live(w, a) && Live(w, b) && w.boxes[a].name == w.boxes[b].name ==> a == b)
    && (forall id :: Live(w, id) ==> w.boxes[id].name !in w.inflight)
  }

  ghost predicate Recorded(w: World, owned: map<nat, (string, string)>, pending: map<string, string>) {
    && (forall id :: id in owned ==> id in w.boxes && w.boxes[id].ours
                                     && owned[id] == (w.boxes[id].name, w.boxes[id].mode) && owned[id].0 == NameOf(owned[id].1))
    && (forall n :: n in pending ==> n == NameOf(pending[n]))
    && (forall id :: Live(w, id) ==> w.boxes[id].name == NameOf(w.boxes[id].mode))
  }

  ghost predicate Disposed(w: World, reported: set<(nat, int)>, id: nat) {
    id in w.boxes && w.boxes[id].state.Gone? && exists exit :: (id, exit) in reported
  }

  /** Whatever was ever owned is owned, or gone for good after its exit code was reported. */
  ghost predicate Kept(w: World, ever: set<nat>, owned: map<nat, (string, string)>, reported: set<(nat, int)>) {
    owned.Keys <= ever && forall id <- ever :: id in owned || Disposed(w, reported, id)
  }

  lemma {:induction false} KeptStays(w: World, v: World, ever: set<nat>, owned: map<nat, (string, string)>,
          was: set<(nat, int)>, reported: set<(nat, int)>)
    requires Kept(w, ever, owned, was) && Ages(w, v) && was <= reported
    ensures Kept(v, ever, owned, reported)
  {
    forall id | id in ever ensures id in owned || Disposed(v, reported, id) {
      if id !in owned {
        assert Disposed(w, was, id) && SameBox(w.boxes[id], v.boxes[id]);
        var exit :| (id, exit) in was;
        assert (id, exit) in reported;
      }
    }
  }

  ghost predicate Evidenced(removals: map<nat, int>, owned: map<nat, (string, string)>, reported: set<(nat, int)>) {
    forall id :: id in removals ==> id in owned && (id, removals[id]) in reported
  }

  lemma {:induction false} OwnedEver(w: World, ever: set<nat>, owned: map<nat, (string, string)>, reported: set<(nat, int)>)
    requires Kept(w, ever, owned, reported)
    ensures owned.Keys <= ever
  {
  }

  lemma {:induction false} OwnedKept(w: World, ever: set<nat>, owned: map<nat, (string, string)>, removals: map<nat, int>,
          reported: set<(nat, int)>, id: nat, box: (string, string))
    requires Kept(w, ever, owned, reported) && Evidenced(removals, owned, reported)
    ensures Kept(w, ever + {id}, owned[id := box], reported) && Evidenced(removals, owned[id := box], reported)
  {
    hide Disposed;
  }

  lemma {:induction false} DriftTracked(w: World, v: World, owned: map<nat, (string, string)>,
          pending: map<string, string>)
    requires Drifts(w, v) && Tracked(w, owned, pending) && Recorded(w, owned, pending)
    ensures Tracked(v, owned, pending) && Recorded(v, owned, pending) && Ages(w, v)
  {
    forall id | Live(v, id)
      ensures id in owned || v.boxes[id].name in pending
      ensures v.boxes[id].name !in v.inflight && v.boxes[id].name == NameOf(v.boxes[id].mode)
    {
      DriftedBox(w, v, id);
    }
    forall a, b | Live(v, a) && Live(v, b) && v.boxes[a].name == v.boxes[b].name ensures a == b {
      DriftedBox(w, v, a);
      DriftedBox(w, v, b);
    }
  }

  lemma {:induction false} DriftedBox(w: World, v: World, id: nat)
    requires Drifts(w, v) && Live(v, id)
    ensures id !in w.boxes ==> Born(w, v.boxes[id], v)
    ensures id in w.boxes ==> Live(w, id) && w.boxes[id].name == v.boxes[id].name && w.boxes[id].mode == v.boxes[id].mode
  {
    if id in w.boxes {
      assert SameBox(w.boxes[id], v.boxes[id]);
    }
  }

  /** A create request for a name that is neither pending nor owned. */
  lemma {:induction false} RequestTracked(w: World, owned: map<nat, (string, string)>, pending: map<string, string>,
          mode: string)
    requires Tracked(w, owned, pending) && Recorded(w, owned, pending)
    requires mode !in pending.Values && forall id :: id in owned ==> owned[id].1 != mode
    ensures var name := NameOf(mode);
            var v := w.(inflight := w.inflight[name := mode]);
            Tracked(v, owned, pending[name := mode]) && Recorded(v, owned, pending[name := mode])
  {
    var name := NameOf(mode);
    if name in pending {
      NamesDiffer(pending[name], mode);
    }
    forall id | Live(w, id) ensures w.boxes[id].name != name {
      if w.boxes[id].name == name {
        NamesDiffer(w.boxes[id].mode, mode);
      }
    }
  }

  /** A container found under a pending name is owned, and nothing else is behind the name. */
  lemma {:induction false} FoundTracked(w: World, owned: map<nat, (string, string)>, pending: map<string, string>,
          id: nat, name: string)
    requires Tracked(w, owned, pending) && Recorded(w, owned, pending)
    requires Live(w, id) && w.boxes[id].name == name && name in pending && w.boxes[id].mode == pending[name]
    ensures var owned' := owned[id := (name, pending[name])];
            Tracked(w, owned', pending - {name}) && Recorded(w, owned', pending - {name})
  {
  }

  /** The answer to a create request is recorded before anything else is asked. */
  lemma {:induction false} AnsweredTracked(w: World, owned: map<nat, (string, string)>, pending: map<string, string>,
          id: nat, mode: string)
    requires Tracked(w, owned, pending) && Recorded(w, owned, pending)
    requires id in w.boxes && w.boxes[id].ours && w.boxes[id].name == NameOf(mode) && w.boxes[id].mode == mode
    ensures Tracked(w, owned[id := (NameOf(mode), mode)], pending) && Recorded(w, owned[id := (NameOf(mode), mode)], pending)
  {
  }

  lemma {:induction false} DriftInflight(w: World, v: World)
    requires Drifts(w, v)
    ensures v.inflight.Keys <= w.inflight.Keys
  {
  }

  lemma {:induction false} OwnedBox(w: World, owned: map<nat, (string, string)>, pending: map<string, string>, id: nat)
    requires Recorded(w, owned, pending) && id in owned
    ensures id in w.boxes && w.boxes[id].ours && owned[id] == (w.boxes[id].name, w.boxes[id].mode)
  {
  }

  lemma {:induction false} NoStrays(w: World, owned: map<nat, (string, string)>, pending: map<string, string>)
    requires Tracked(w, owned, pending) && pending == map[]
    ensures forall id :: Live(w, id) ==> id in owned
  {
  }

  lemma {:induction false} NamedMode(w: World, owned: map<nat, (string, string)>, pending: map<string, string>, id: nat, name: string)
    requires Recorded(w, owned, pending) && Live(w, id) && w.boxes[id].name == name && name in pending
    ensures w.boxes[id].mode == pending[name]
  {
    NamesDiffer(w.boxes[id].mode, pending[name]);
  }

  lemma {:induction false} ForgottenTracked(w: World, owned: map<nat, (string, string)>,
          pending: map<string, string>, id: nat)
    requires Tracked(w, owned, pending) && Recorded(w, owned, pending) && id in w.boxes && w.boxes[id].state.Gone?
    ensures Tracked(w, owned - {id}, pending) && Recorded(w, owned - {id}, pending)
  {
  }

  /** Since `was` the name was looked up, and is no longer pending exactly if a container was
      found behind it. */
  ghost predicate LookedUp(was: seq<(string, Option<Box>)>, found: seq<(string, Option<Box>)>, name: string, pending: map<string, string>) {
    exists k :: |was| <= k < |found| && found[k].0 == name && (found[k].1.Some? <==> name !in pending)
  }

  lemma {:induction false} LookedUpStill(was: seq<(string, Option<Box>)>, found: seq<(string, Option<Box>)>,
          more: seq<(string, Option<Box>)>, name: string, pending: map<string, string>, left: map<string, string>)
    requires LookedUp(was, found, name, pending) && found <= more && (name in pending <==> name in left)
    ensures LookedUp(was, more, name, left)
  {
    var k :| |was| <= k < |found| && found[k].0 == name && (found[k].1.Some? <==> name !in pending);
    assert more[k] == found[k];
  }

  /** Behind the name looked up last there was a container of someone else. */
  ghost predicate FoundForeign(found: seq<(string, Option<Box>)>) {
    found != [] && found[|found| - 1].1.Some? && !found[|found| - 1].1.value.ours
  }

  /** Inspected last, `id` was found in this state. */
  ghost predicate SeenLast(seen: seq<(nat, BoxState)>, id: nat, state: BoxState) {
    seen != [] && seen[|seen| - 1] == (id, state)
  }

  /** Since `was` the container was looked for, and the last look found nothing; or it was the
      `n`th or a later one, and found the container running. */
  ghost predicate StillThere(was: seq<(nat, BoxState)>, seen: seq<(nat, BoxState)>, id: nat, n: nat) {
    |seen| > |was| && (SeenLast(seen, id, Gone) || (SeenLast(seen, id, Running) && |seen| >= |was| + n))
  }

  /** From its `n`th inspection on, the container has been killed once if that found it running. */
  ghost predicate KilledIfRunning(was: seq<(nat, BoxState)>, seen: seq<(nat, BoxState)>, before: seq<nat>, kills: seq<nat>, id: nat,
                                  n: nat) {
    kills == before + if |seen| > |was| + n && seen[|was| + n].1.Running? then [id] else []
  }

  /** One of the last two inspections found the container stopped without an exit code. */
  ghost predicate NoExitCode(was: seq<(nat, BoxState)>, seen: seq<(nat, BoxState)>, id: nat) {
    exists k :: |was| <= k < |seen| && |seen| - 2 <= k && seen[k] == (id, Stopped(None))
  }

  /** What was so from a later inspection on was so from an earlier one on. */
  lemma {:induction false} Later(was: seq<(nat, BoxState)>, since: seq<(nat, BoxState)>, seen: seq<(nat, BoxState)>,
          before: seq<nat>, kills: seq<nat>, id: nat)
    requires was <= since <= seen
    ensures StillThere(since, seen, id, 2) ==> StillThere(was, seen, id, 2 + |since| - |was|)
    ensures NoExitCode(since, seen, id) ==> NoExitCode(was, seen, id)
    ensures KilledIfRunning(since, seen, before, kills, id, 0) ==> KilledIfRunning(was, seen, before, kills, id, |since| - |was|)
    ensures forall e :: e in seen[|since|..] ==> e in seen[|was|..]
  {
    assert seen[|was|..][|since| - |was|..] == seen[|since|..];
  }

  /** The probe's host side. */
  class ProbeHost {
    const daemon: Daemon
    var owned: map<nat, (string, string)>
    var pending: map<string, string>
    /** Exit codes recorded before the removal was asked for. */
    var removals: map<nat, int>
    /** Every identifier that was ever owned. */
    ghost var ever: set<nat>

    ghost predicate Valid()
      reads this, daemon
    {
      Safe(daemon.world, daemon.reported)
    }

    ghost predicate Safe(w: World, reported: set<(nat, int)>)
      reads this
    {
      && Tracked(w, owned, pending) && Recorded(w, owned, pending)
      && Evidenced(removals, owned, reported) && Kept(w, ever, owned, reported)
    }

    /** Whatever the daemon does meanwhile, the host stays safe. */
    lemma Weather(w: World, was: set<(nat, int)>)
      requires Safe(w, was) && Drifts(w, daemon.world) && was <= daemon.reported
      ensures Valid() && Ages(w, daemon.world)
    {
      DriftTracked(w, daemon.world, owned, pending);
      KeptStays(w, daemon.world, ever, owned, was, daemon.reported);
    }

    /** A fresh operation on a daemon in use: nothing there carries its labels yet. */
    constructor (daemon: Daemon)
      requires daemon.world.inflight == map[] && forall id :: !Live(daemon.world, id)
      ensures Valid() && this.daemon == daemon && ever == {}
    {
      this.daemon := daemon;
      owned, pending, removals, ever := map[], map[], map[], {};
    }

    method Inspect(id: nat) returns (r: Result<Box>)
      requires Valid()
      modifies daemon`world, daemon`reported, daemon`troubles, daemon`seen
      ensures old(daemon.troubles) <= daemon.troubles
      ensures id in owned && r.Err? ==> daemon.troubles > old(daemon.troubles) || daemon.seen == old(daemon.seen) + [(id, Gone)]
      ensures r.Ok? ==> daemon.troubles == old(daemon.troubles) && daemon.seen == old(daemon.seen) + [(id, r.value.state)]
      ensures r.Err? ==> daemon.seen == old(daemon.seen) || daemon.seen == old(daemon.seen) + [(id, Gone)]
      ensures Valid() && Drifts(old(daemon.world), daemon.world) && old(daemon.reported) <= daemon.reported && Ages(old(daemon.world), daemon.world)
      ensures r.Ok? ==> id in owned && Live(daemon.world, id) && r.value == daemon.world.boxes[id]
                        && owned[id] == (r.value.name, r.value.mode)
      ensures r.Ok? && r.value.state.Stopped? && r.value.state.exit.Some? ==> (id, r.value.state.exit.value) in daemon.reported
    {
      if id !in owned {
        return Err(BadValue);
      }
      ghost var w0 := daemon.world;
      var same := daemon.Info();
      Weather(w0, daemon.reported);
      if !same {
        return Err(Error.Blocked);
      }
      ghost var w1, r1 := daemon.world, daemon.reported;
      var found := daemon.Inspect(id);
      Weather(w1, r1);
      DriftsTransitive(w0, w1, daemon.world);
      if !found.Answer? || !found.value.ours || (found.value.name, found.value.mode) != owned[id] {
        return Err(Error.Blocked);
      }
      r := Ok(found.value);
    }

    /** Record the container a create request was answered with, before looking at it. */
    method Accept(id: nat, mode: string) returns (accepted: bool)
      requires Valid() && NameOf(mode) in pending && pending[NameOf(mode)] == mode
      requires id in daemon.world.boxes && daemon.world.boxes[id].ours
      requires daemon.world.boxes[id].name == NameOf(mode) && daemon.world.boxes[id].mode == mode
      modifies this, daemon`world, daemon`reported, daemon`troubles, daemon`seen
      ensures Valid() && removals == old(removals) && owned == old(owned)[id := (NameOf(mode), mode)] && ever == old(ever) + {id}
      ensures pending == if accepted then old(pending) - {NameOf(mode)} else old(pending)
      ensures old(daemon.reported) <= daemon.reported && Ages(old(daemon.world), daemon.world) && old(daemon.troubles) <= daemon.troubles
      ensures accepted ==> daemon.troubles == old(daemon.troubles)
      ensures !accepted ==> daemon.troubles > old(daemon.troubles) || daemon.seen == old(daemon.seen) + [(id, Gone)]
    {
      hide Tracked, Recorded, Drifts, NameOf, Kept, Evidenced, Ages;
      var name := NameOf(mode);
      AnsweredTracked(daemon.world, owned, pending, id, mode);
      OwnedKept(daemon.world, ever, owned, removals, daemon.reported, id, (name, mode));
      owned, ever := owned[id := (name, mode)], ever + {id};
      var info := Inspect(id);
      accepted := info.Ok?;
      if accepted {
        FoundTracked(daemon.world, owned, pending, id, name);
        assert owned[id := (name, mode)] == owned;
        pending := pending - {name};
      }
    }

    /** Create the one container of a mode. Whatever goes wrong, nothing made or still to be
        made is forgotten. */
    method Create(mode: string) returns (r: Result<nat>)
      requires Valid()
      modifies this, daemon
      ensures Valid() && removals == old(removals) && old(owned.Keys) <= owned.Keys && ever == old(ever) + owned.Keys
      ensures old(daemon.reported) <= daemon.reported && Ages(old(daemon.world), daemon.world)
      ensures r.Ok? ==> r.value in owned && r.value !in old(owned) && owned[r.value] == (NameOf(mode), mode)
      ensures mode in old(pending.Values) || (exists id :: id in old(owned) && old(owned)[id].1 == mode) ==>
                r.Err? && owned == old(owned) && pending == old(pending) && daemon.world.inflight.Keys <= old(daemon.world.inflight.Keys)
                && daemon.creations == old(daemon.creations)
      // of a free mode the container is made unless the daemon fails, or loses it at once
      ensures mode in KINDS && mode !in old(pending.Values) && (forall id :: id in old(owned) ==> old(owned)[id].1 != mode) ==>
                && (daemon.troubles == old(daemon.troubles) ==> daemon.creations == old(daemon.creations) + [(NameOf(mode), mode)])
                && (r.Err? ==> daemon.troubles > old(daemon.troubles) || (|daemon.seen| > |old(daemon.seen)| && daemon.seen[|daemon.seen| - 1].1.Gone?))
      ensures r.Ok? ==> mode in KINDS && daemon.creations == old(daemon.creations) + [(NameOf(mode), mode)] && mode !in pending.Values
      ensures daemon.kills == old(daemon.kills) && daemon.removes == old(daemon.removes) && old(daemon.troubles) <= daemon.troubles
    {
      hide Tracked, Recorded, Drifts, NameOf, Kept, Evidenced, Ages;
      OwnedEver(daemon.world, ever, owned, daemon.reported);
      AgesRefl(daemon.world);
      if mode !in KINDS {
        return Err(BadValue);
      }
      ghost var w0 := daemon.world;
      var same := daemon.Info();
      Weather(w0, daemon.reported);
      DriftInflight(w0, daemon.world);
      if !same {
        return Err(Error.Blocked);
      }
      var name := NameOf(mode);
      if mode in pending.Values || (exists id <- owned :: owned[id].1 == mode) {
        return Err(BadValue);
      }
      ghost var w1 := daemon.world;
      RequestTracked(w1, owned, pending, mode);
      RequestAges(w1, name, mode);
      KeptStays(w1, w1.(inflight := w1.inflight[name := mode]), ever, owned, daemon.reported, daemon.reported);
      ghost var was := pending;
      pending := pending[name := mode];
      var cid := daemon.Create(name, mode);
      Weather(w1.(inflight := w1.inflight[name := mode]), daemon.reported);
      AgesTransitive(w1, w1.(inflight := w1.inflight[name := mode]), daemon.world);
      AgesTransitive(w0, w1, daemon.world);
      ghost var w2 := daemon.world;
      if cid.Answer? {
        if cid.value in owned {
          OwnedBox(w1, owned, was, cid.value);
        }
        var accepted := Accept(cid.value, mode);
        AgesTransitive(w0, w2, daemon.world);
        if accepted {
          return Ok(cid.value);
        }
      }
      ghost var w3 := daemon.world;
      var _ := Reconcile();
      AgesTransitive(w0, w3, daemon.world);
      r := Err(Error.Blocked);
    }

    /** Look for what is behind one pending name. */
    method Seek(name: string) returns (r: Result<()>)
      requires Valid() && name in pending
      modifies this, daemon`world, daemon`troubles, daemon`found
      ensures Valid() && removals == old(removals)
      ensures old(daemon.troubles) <= daemon.troubles && old(daemon.found) <= daemon.found
      ensures r.Ok? ==> |daemon.found| == |old(daemon.found)| + 1 && daemon.found[|old(daemon.found)|].0 == name
                        && (daemon.found[|old(daemon.found)|].1.Some? <==> name !in pending)
      ensures r.Err? ==> pending == old(pending) && (daemon.troubles > old(daemon.troubles) || FoundForeign(daemon.found))
      ensures ever == old(ever) + owned.Keys && forall k :: k in old(owned) ==> k in owned && owned[k] == old(owned)[k]
      ensures old(daemon.reported) <= daemon.reported && Ages(old(daemon.world), daemon.world)
      ensures pending == old(pending) ||
              (pending == old(pending) - {name} && exists id :: id in owned && owned[id] == (name, old(pending)[name]))
    {
      hide Tracked, Recorded, Drifts, NameOf, Kept, Evidenced, Ages;
      OwnedEver(daemon.world, ever, owned, daemon.reported);
      ghost var w0 := daemon.world;
      var same := daemon.Info();
      Weather(w0, daemon.reported);
      if !same {
        return Err(Error.Blocked);
      }
      ghost var w1 := daemon.world;
      var found := daemon.InspectName(name);
      Weather(w1, daemon.reported);
      AgesTransitive(w0, w1, daemon.world);
      match found
      case Lost =>
        return Err(Error.Blocked);
      case Answer(data) =>
        var (id, box) := data;
        if box.ours {
          NamedMode(daemon.world, owned, pending, id, name);
        }
        if !box.ours || box.mode != pending[name] {
          return Err(Error.Blocked);
        }
        if id in owned {
          OwnedBox(daemon.world, owned, pending, id);
        }
        FoundTracked(daemon.world, owned, pending, id, name);
        OwnedKept(daemon.world, ever, owned, removals, daemon.reported, id, (name, pending[name]));
        owned, ever := owned[id := (name, pending[name])], ever + {id};
        pending := pending - {name};
        assert owned[id] == (name, old(pending)[name]);
        return Ok(());
      case _ =>
        return Ok(());
    }

    /** Look for what is behind the pending names. Absence now proves nothing. */
    method Reconcile() returns (r: Result<()>)
      requires Valid()
      modifies this, daemon`world, daemon`troubles, daemon`found
      ensures Valid() && removals == old(removals)
      ensures old(owned.Keys) <= owned.Keys && pending.Keys <= old(pending.Keys) && ever == old(ever) + owned.Keys
      ensures old(daemon.reported) <= daemon.reported && Ages(old(daemon.world), daemon.world)
      ensures forall n :: n in old(pending) && n !in pending ==>
                exists id :: id in owned && owned[id] == (n, old(pending)[n])
      // every name is looked up, and is left pending only when nothing was behind it
      ensures old(daemon.troubles) <= daemon.troubles && old(daemon.found) <= daemon.found
      ensures r.Ok? ==> forall n :: n in old(pending) ==> LookedUp(old(daemon.found), daemon.found, n, pending)
      ensures r.Err? ==> daemon.troubles > old(daemon.troubles) || FoundForeign(daemon.found)
    {
      hide Tracked, Recorded, Drifts, NameOf, Kept, Evidenced, Ages;
      OwnedEver(daemon.world, ever, owned, daemon.reported);
      AgesRefl(daemon.world);
      var todo := pending.Keys;
      while todo != {}
        invariant Valid() && removals == old(removals) && todo <= pending.Keys
        invariant old(owned.Keys) <= owned.Keys && pending.Keys <= old(pending.Keys) && ever == old(ever) + owned.Keys
        invariant old(daemon.reported) <= daemon.reported && Ages(old(daemon.world), daemon.world)
        invariant old(daemon.troubles) <= daemon.troubles && old(daemon.found) <= daemon.found
        invariant forall n :: n in old(pending) && n !in todo ==> LookedUp(old(daemon.found), daemon.found, n, pending)
        invariant forall n :: n in pending ==> n in old(pending) && pending[n] == old(pending)[n]
        invariant forall n :: n in old(pending) && n !in pending ==>
                    exists id :: id in owned && owned[id] == (n, old(pending)[n])
        decreases todo
      {
        var name :| name in todo;
        todo := todo - {name};
        ghost var w, before, lookups, was := daemon.world, owned, daemon.found, pending;
        var sought := Seek(name);
        if sought.Ok? {
          forall n | n in old(pending) && n !in todo ensures LookedUp(old(daemon.found), daemon.found, n, pending) {
            if n == name {
              assert daemon.found[|lookups|].0 == name;
            } else {
              LookedUpStill(old(daemon.found), lookups, daemon.found, n, was, pending);
            }
          }
        }
        AgesTransitive(old(daemon.world), w, daemon.world);
        forall n | n in old(pending) && n !in pending ensures exists k :: k in owned && owned[k] == (n, old(pending)[n]) {
          if n != name {
            var k :| k in before && before[k] == (n, old(pending)[n]);
            assert owned[k] == before[k];
          }
        }
        if sought.Err? {
          return Err(Error.Blocked);
        }
      }
      r := Ok(());
    }

    method Stop(id: nat) returns (r: Result<Box>)
      requires Valid()
      modifies daemon`world, daemon`reported, daemon`troubles, daemon`seen, daemon`kills
      ensures old(daemon.troubles) <= daemon.troubles && old(daemon.seen) <= daemon.seen
      // an owned container is stopped unless the daemon fails, loses it, or lets it run on
      ensures id in owned && r.Err? ==>
                daemon.troubles > old(daemon.troubles)
                || StillThere(old(daemon.seen), daemon.seen, id, 2)
      // it is killed exactly when it was found running
      ensures r.Ok? ==> |daemon.seen| == |old(daemon.seen)| + 2 && SeenLast(daemon.seen, id, r.value.state)
                        && daemon.troubles == old(daemon.troubles)
      ensures KilledIfRunning(old(daemon.seen), daemon.seen, old(daemon.kills), daemon.kills, id, 0)
      ensures Valid() && old(daemon.reported) <= daemon.reported && Ages(old(daemon.world), daemon.world)
      ensures r.Ok? ==> id in owned && r.value.state.Stopped?
      ensures r.Ok? && r.value.state.exit.Some? ==> (id, r.value.state.exit.value) in daemon.reported
    {
      hide Tracked, Recorded, Drifts;
      var info :- Inspect(id);
      if info.state.Running? {
        ghost var w := daemon.world;
        var killed := daemon.Kill(id);
        Weather(w, daemon.reported);
        if killed.Lost? {
          return Err(Error.Blocked);
        }
      }
      info :- Inspect(id);
      if !info.state.Stopped? {
        return Err(Error.Blocked);
      }
      r := Ok(info);
    }

    /** Did an earlier removal take effect after all? */
    method RemovedAfterAttempt(id: nat) returns (r: Result<bool>)
      requires Valid()
      modifies daemon`world, daemon`reported, daemon`troubles, daemon`seen
      ensures old(daemon.troubles) <= daemon.troubles && old(daemon.seen) <= daemon.seen
      ensures id in removals && r.Err? ==> daemon.troubles > old(daemon.troubles) || pending != map[]
      ensures |daemon.seen| <= |old(daemon.seen)| + 1
      ensures r.Ok? ==> daemon.troubles == old(daemon.troubles) && |daemon.seen| == |old(daemon.seen)| + 1
                        && daemon.seen[|old(daemon.seen)|].0 == id && (r.value <==> daemon.seen[|old(daemon.seen)|].1.Gone?)
      ensures Valid() && old(daemon.reported) <= daemon.reported && Ages(old(daemon.world), daemon.world)
      ensures r == Ok(true) ==> id in removals && id in daemon.world.boxes && daemon.world.boxes[id].state.Gone?
    {
      hide Tracked, Recorded, Drifts, Kept;
      if id !in removals {
        return Err(Error.Blocked);
      }
      ghost var w0 := daemon.world;
      var same := daemon.Info();
      Weather(w0, daemon.reported);
      if !same {
        return Err(Error.Blocked);
      }
      ghost var w1, r1 := daemon.world, daemon.reported;
      var found := daemon.Inspect(id);
      Weather(w1, r1);
      AgesTransitive(w0, w1, daemon.world);
      if found.Answer? {
        return Ok(false);
      }
      if !found.NoSuch? {
        return Err(Error.Blocked);
      }
      OwnedBox(daemon.world, owned, pending, id);
      ghost var w2 := daemon.world;
      var confirmed := ConfirmGone(id);
      AgesTransitive(w0, w2, daemon.world);
      r := if confirmed then Ok(true) else Err(Error.Blocked);
    }

    /** The labels, too, say that a container is gone, and name none that is not owned. */
    method ConfirmGone(id: nat) returns (confirmed: bool)
      requires Valid() && id in daemon.world.boxes && daemon.world.boxes[id].state.Gone?
      modifies daemon`world, daemon`troubles
      ensures Valid() && Ages(old(daemon.world), daemon.world) && old(daemon.troubles) <= daemon.troubles
      ensures id in daemon.world.boxes && daemon.world.boxes[id].state.Gone?
      ensures confirmed ==> daemon.troubles == old(daemon.troubles)
      ensures !confirmed ==> daemon.troubles > old(daemon.troubles) || pending != map[]
    {
      hide Tracked, Recorded, Drifts, Kept, Evidenced;
      ghost var w0 := daemon.world;
      var same := daemon.Info();
      Weather(w0, daemon.reported);
      if !same {
        return false;
      }
      ghost var w1 := daemon.world;
      var remaining := daemon.List();
      Weather(w1, daemon.reported);
      AgesTransitive(w0, w1, daemon.world);
      if pending == map[] {
        NoStrays(daemon.world, owned, pending);
      }
      if !remaining.Answer? || id in remaining.value || !(remaining.value <= owned.Keys) {
        return false;
      }
      ghost var w2 := daemon.world;
      confirmed := daemon.Info();
      Weather(w2, daemon.reported);
      AgesTransitive(w0, w2, daemon.world);
    }

    method Forget(id: nat, reconciled: bool) returns (r: Removal)
      requires Valid() && id in removals && id in daemon.world.boxes && daemon.world.boxes[id].state.Gone?
      modifies this
      ensures Valid() && owned == old(owned) - {id} && removals == old(removals) - {id} && pending == old(pending) && ever == old(ever)
      ensures r == Removal(id, old(removals)[id], reconciled) && (id, r.exit) in daemon.reported && Disposed(daemon.world, daemon.reported, id)
    {
      hide Tracked, Recorded;
      ForgottenTracked(daemon.world, owned, pending, id);
      r := Removal(id, removals[id], reconciled);
      removals := removals - {id};
      owned := owned - {id};
    }

    /** Ask for the removal of a container whose exit code is on record, and confirm it. */
    method RemoveRecorded(id: nat) returns (r: Result<Removal>)
      requires Valid() && id in removals
      modifies this, daemon`world, daemon`reported, daemon`troubles, daemon`seen, daemon`removes
      ensures old(daemon.troubles) <= daemon.troubles && old(daemon.seen) <= daemon.seen
      ensures daemon.removes == old(daemon.removes) + [id] && (r.Err? ==> daemon.troubles > old(daemon.troubles))
      ensures r.Ok? ==> r.value.exit == old(removals)[id]
      ensures Valid() && pending == old(pending) && ever == old(ever) && old(daemon.reported) <= daemon.reported && Ages(old(daemon.world), daemon.world)
      ensures r.Err? ==> owned == old(owned)
      ensures r.Ok? ==> owned == old(owned) - {id} && r.value.id == id && Disposed(daemon.world, daemon.reported, id) && (id, r.value.exit) in daemon.reported
    {
      hide Tracked, Recorded, Drifts;
      ghost var w0 := daemon.world;
      var reply := daemon.Remove(id);
      Weather(w0, daemon.reported);
      if reply.Lost? {
        var removed :- RemovedAfterAttempt(id);
        if removed {
          var record := Forget(id, true);
          return Ok(record);
        }
        return Err(Error.Blocked);
      }
      if !reply.Answer? {
        return Err(Error.Blocked);
      }
      ghost var w1 := daemon.world;
      var same := daemon.Info();
      Weather(w1, daemon.reported);
      if !same {
        return Err(Error.Blocked);
      }
      ghost var w2 := daemon.world;
      var remaining := daemon.List();
      Weather(w2, daemon.reported);
      if !remaining.Answer? || id in remaining.value {
        return Err(Error.Blocked);
      }
      OwnedBox(daemon.world, owned, pending, id);
      var record := Forget(id, false);
      r := Ok(record);
    }

    /** Stop an owned container, put its exit code on record and have it removed. */
    method Dispose(id: nat) returns (r: Result<Removal>)
      requires Valid() && id in owned
      modifies this, daemon`world, daemon`reported, daemon`troubles, daemon`seen, daemon`kills, daemon`removes
      ensures Valid() && pending == old(pending) && ever == old(ever) && old(daemon.reported) <= daemon.reported && Ages(old(daemon.world), daemon.world)
      ensures old(daemon.troubles) <= daemon.troubles && old(daemon.seen) <= daemon.seen
      ensures r.Err? ==> owned == old(owned)
      ensures r.Err? ==>
                || daemon.troubles > old(daemon.troubles) || StillThere(old(daemon.seen), daemon.seen, id, 2)
                || NoExitCode(old(daemon.seen), daemon.seen, id)
      ensures r.Ok? ==> daemon.removes == old(daemon.removes) + [id] && (id, Stopped(Some(r.value.exit))) in daemon.seen[|old(daemon.seen)|..]
      ensures KilledIfRunning(old(daemon.seen), daemon.seen, old(daemon.kills), daemon.kills, id, 0)
      ensures daemon.removes == old(daemon.removes) || daemon.removes == old(daemon.removes) + [id]
      ensures r.Ok? ==> owned == old(owned) - {id} && r.value.id == id
                        && Disposed(daemon.world, daemon.reported, id) && (id, r.value.exit) in daemon.reported
    {
      hide Tracked, Recorded, Drifts, Ages, Disposed;
      ghost var w0 := daemon.world;
      var info :- Stop(id);
      ghost var stopped, w1 := |daemon.seen| - 1, daemon.world;
      var again := Inspect(id);
      AgesTransitive(w0, w1, daemon.world);
      if again.Err? {
        return Err(again.error);
      }
      assert daemon.seen[stopped] == (id, info.state);
      if info.state.exit.None? {
        return Err(Error.Blocked);
      }
      removals := removals[id := info.state.exit.value];
      ghost var w2, seen := daemon.world, daemon.seen;
      r := RemoveRecorded(id);
      AgesTransitive(w0, w2, daemon.world);
      assert daemon.seen[stopped] == seen[stopped];
      assert daemon.seen[|old(daemon.seen)|..][stopped - |old(daemon.seen)|] == (id, info.state);
    }

    /** Stop, record and remove an owned container. It leaves `owned` only when it is gone
        for good and its exit code is on record; on any failure it stays. */
    method Cleanup(id: nat) returns (r: Result<Removal>)
      requires Valid()
      modifies this, daemon`world, daemon`reported, daemon`troubles, daemon`seen, daemon`kills, daemon`removes
      ensures Valid() && pending == old(pending) && ever == old(ever) && old(daemon.reported) <= daemon.reported && Ages(old(daemon.world), daemon.world)
      ensures old(daemon.troubles) <= daemon.troubles && old(daemon.seen) <= daemon.seen
      ensures r.Err? ==> owned == old(owned)
      // an owned container is removed unless the daemon fails, loses it, lets it run on or knows
      // no exit code; or, when its removal was asked for before, other names are still pending
      ensures id in old(owned) && r.Err? ==>
                || daemon.troubles > old(daemon.troubles)
                || StillThere(old(daemon.seen), daemon.seen, id, if id in old(removals) then 3 else 2)
                || NoExitCode(old(daemon.seen), daemon.seen, id)
                || (id in old(removals) && pending != map[])
      // it was stopped with the exit code that is reported, and its removal asked for, now or before
      ensures r.Ok? ==>
                || (daemon.removes == old(daemon.removes) + [id]
                    && (id, Stopped(Some(r.value.exit))) in daemon.seen[|old(daemon.seen)|..])
                || (daemon.removes == old(daemon.removes) && id in old(removals) && r.value.exit == old(removals)[id]
                    && SeenLast(daemon.seen, id, Gone))
      ensures KilledIfRunning(old(daemon.seen), daemon.seen, old(daemon.kills), daemon.kills, id, if id in old(removals) then 1 else 0)
      ensures daemon.removes == old(daemon.removes) || daemon.removes == old(daemon.removes) + [id]
      ensures r.Ok? ==> id in old(owned) && owned == old(owned) - {id} && r.value.id == id
                        && Disposed(daemon.world, daemon.reported, id) && (id, r.value.exit) in daemon.reported
    {
      hide Tracked, Recorded, Drifts, Ages;
      AgesRefl(daemon.world);
      if id !in owned {
        return Err(BadValue);
      }
      if id in removals {
        var removed :- RemovedAfterAttempt(id);
        if removed {
          var record := Forget(id, true);
          return Ok(record);
        }
      }
      ghost var w, seen := daemon.world, daemon.seen;
      r := Dispose(id);
      AgesTransitive(old(daemon.world), w, daemon.world);
      Later(old(daemon.seen), seen, daemon.seen, old(daemon.kills), daemon.kills, id);
    }
  }

  /** A call on the probe's host, or a while in which the daemon is left alone. */
  datatype Call = Making(mode: string) | Looking | Stopping(id: nat) | Cleaning(id: nat) | Waiting

  /** A claimed removal is true: the container is gone, and the exit code was reported of it. */
  ghost predicate Removed(w: World, reported: set<(nat, int)>, r: Removal) {
    r.id in w.boxes && w.boxes[r.id].state.Gone? && (r.id, r.exit) in reported
  }

  /** What a call has to show for itself. */
  datatype Done = Made(id: nat) | Cleaned(removal: Removal) | Nothing

  /** Any sequence of calls, answered or not, with whatever the daemon does between and in
      them. In the end every container of the operation that still exists is owned or its
      name is pending, there is at most one for a mode, and everything ever made or owned is
      still owned or gone for good with a reported exit code; so is every container whose
      removal was ever claimed, with the code it was claimed with. */
  method History(daemon: Daemon, calls: seq<Call>) returns (host: ProbeHost, log: seq<Done>)
    requires daemon.world.inflight == map[] && forall id :: !Live(daemon.world, id)
    modifies daemon
    ensures fresh(host) && host.daemon == daemon && |log| == |calls|
    ensures forall id :: Live(daemon.world, id) ==> id in host.owned || daemon.world.boxes[id].name in host.pending
    ensures forall a, b :: Live(daemon.world, a) && Live(daemon.world, b) && daemon.world.boxes[a].mode == daemon.world.boxes[b].mode ==> a == b
    ensures forall id :: id in host.ever ==> id in host.owned || Disposed(daemon.world, daemon.reported, id)
    ensures forall k :: 0 <= k < |calls| && log[k].Made? ==> calls[k].Making? && log[k].id in host.ever
    ensures forall k :: 0 <= k < |calls| && log[k].Cleaned? ==>
              && calls[k].Cleaning? && calls[k].id == log[k].removal.id
              && Removed(daemon.world, daemon.reported, log[k].removal)
  {
    hide Tracked, Recorded, Drifts, Kept, Evidenced;
    host := new ProbeHost(daemon);
    log := [];
    for n := 0 to |calls|
      modifies host, daemon
      invariant host.Valid() && |log| == n
      invariant forall k :: 0 <= k < n && log[k].Made? ==> calls[k].Making? && log[k].id in host.ever
      invariant forall k :: 0 <= k < n && log[k].Cleaned? ==>
                  && calls[k].Cleaning? && calls[k].id == log[k].removal.id
                  && Removed(daemon.world, daemon.reported, log[k].removal)
    {
      ghost var w, was := daemon.world, daemon.reported;
      daemon.Drift();
      host.Weather(w, was);
      var done := Nothing;
      match calls[n] {
        case Making(mode) =>
          var made := host.Create(mode);
          done := if made.Ok? then Made(made.value) else Nothing;
        case Looking =>
          var _ := host.Reconcile();
        case Stopping(id) =>
          var _ := host.Stop(id);
        case Cleaning(id) =>
          var removal := host.Cleanup(id);
          done := if removal.Ok? then Cleaned(removal.value) else Nothing;
        case Waiting =>
      }
      log := log + [done];
    }
    AtTheEnd(daemon.world, host.owned, host.pending, host.ever, daemon.reported);
  }

  lemma {:induction false} AtTheEnd(w: World, owned: map<nat, (string, string)>, pending: map<string, string>, ever: set<nat>,
          reported: set<(nat, int)>)
    requires Tracked(w, owned, pending) && Recorded(w, owned, pending) && Kept(w, ever, owned, reported)
    ensures forall id :: Live(w, id) ==> id in owned || w.boxes[id].name in pending
    ensures forall a, b :: Live(w, a) && Live(w, b) && w.boxes[a].mode == w.boxes[b].mode ==> a == b
    ensures forall id :: id in ever ==> id in owned || Disposed(w, reported, id)
  {
    hide Disposed;
  }
}
