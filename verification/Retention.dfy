/** Which backups may be deleted: whole old pairs, and never the newest five. */
module Retention {
  import opened Outcome

  const DAY := 86_400_000_000
  const UTC_PLUS_8 := 28_800_000_000
  const RECENT_DAYS := 13
  const KEPT := 5

  /** A manifest; instants are microseconds since the epoch. */
  datatype Manifest = Manifest(backupId: nat, pair: string, phase: string, created: int, integrity: bool, restored: bool,
                               mirrored: bool, stable: bool, postPending: bool, referenced: bool)

  predicate Good(m: Manifest) {
    m.integrity && m.restored && m.mirrored
  }

  /** The calendar day in Shanghai. */
  function DayOf(instant: int): int {
    (instant + UTC_PLUS_8) / DAY
  }

  function Pairs(ms: seq<Manifest>): set<string> {
    set m | m in ms :: m.pair
  }

  /** All manifests of the pair are good, and there is a PRE and a POST and nothing else. */
  predicate Complete(ms: seq<Manifest>, p: string) {
    && (forall m <- ms :: m.pair == p ==> Good(m) && m.phase in {"PRE", "POST"})
    && (exists m <- ms :: m.pair == p && m.phase == "PRE")
    && (exists m <- ms :: m.pair == p && m.phase == "POST")
  }

  function Latest(ms: seq<Manifest>, p: string): Option<int> {
    if ms == [] then None
    else
      var before := Latest(ms[1..], p);
      if ms[0].pair == p && (before.None? || before.value < ms[0].created) then Some(ms[0].created) else before
  }

  /** Where the pair first occurs. */
  function FirstAt(ms: seq<Manifest>, p: string): (i: nat)
    ensures i <= |ms| && (i < |ms| ==> ms[i].pair == p)
    ensures p in Pairs(ms) ==> i < |ms|
  {
    if ms == [] || ms[0].pair == p then 0 else FirstAt(ms[1..], p) + 1
  }

  predicate Newer(a: Option<int>, b: Option<int>) {
    a.Some? && b.Some? && a.value > b.value
  }

  /** The order of pairs: newest first, and among equals the one listed first. */
  predicate Ahead(ms: seq<Manifest>, q: string, p: string) {
    var a, b := Latest(ms, q), Latest(ms, p);
    Newer(a, b) || (a == b && FirstAt(ms, q) < FirstAt(ms, p))
  }

  function CompletePairs(ms: seq<Manifest>): set<string> {
    set p | p in Pairs(ms) && Complete(ms, p)
  }

  function Better(ms: seq<Manifest>, p: string): set<string> {
    set q | q in CompletePairs(ms) && Ahead(ms, q, p)
  }

  /** Among the five newest complete pairs. */
  predicate Newest(ms: seq<Manifest>, p: string) {
    p in CompletePairs(ms) && |Better(ms, p)| < KEPT
  }

  predicate Holds(m: Manifest, now: int) {
    m.stable || m.postPending || m.referenced || DayOf(m.created) >= DayOf(now) - RECENT_DAYS
  }

  predicate Deletable(ms: seq<Manifest>, now: int, p: string) {
    && Complete(ms, p) && !Newest(ms, p)
    && forall m <- ms :: m.pair == p ==> !Holds(m, now)
  }

  // ---- Over time, and after deletion ----

  /** What may be deleted may still be deleted later. */
  lemma {:induction false} DeletableLater(ms: seq<Manifest>, now: int, later: int, p: string)
    requires now <= later && Deletable(ms, now, p)
    ensures Deletable(ms, later, p)
  {
    DaysPass(now, later);
  }

  lemma {:induction false} DaysPass(now: int, later: int)
    requires now <= later
    ensures DayOf(now) <= DayOf(later)
  {
  }

  function Keep(ms: seq<Manifest>, gone: set<string>): seq<Manifest> {
    if ms == [] then []
    else (if ms[0].pair in gone then [] else [ms[0]]) + Keep(ms[1..], gone)
  }

  lemma {:induction false} KeepMembers(ms: seq<Manifest>, gone: set<string>)
    ensures forall m :: m in Keep(ms, gone) <==> m in ms && m.pair !in gone
  {
    if ms != [] {
      KeepMembers(ms[1..], gone);
      assert ms == [ms[0]] + ms[1..];
    }
  }

  lemma {:induction false} KeepHead(ms: seq<Manifest>, gone: set<string>)
    requires ms != []
    ensures ms[0].pair in gone ==> Keep(ms, gone) == Keep(ms[1..], gone)
    ensures ms[0].pair !in gone ==> Keep(ms, gone) != [] && Keep(ms, gone)[0] == ms[0] && Keep(ms, gone)[1..] == Keep(ms[1..], gone)
  {
  }

  lemma {:induction false} KeepLatest(ms: seq<Manifest>, gone: set<string>, p: string)
    requires p !in gone
    ensures Latest(Keep(ms, gone), p) == Latest(ms, p)
  {
    if ms != [] {
      KeepLatest(ms[1..], gone, p);
      KeepHead(ms, gone);
    }
  }

  lemma {:induction false} KeepOrder(ms: seq<Manifest>, gone: set<string>, q: string, p: string)
    requires p !in gone && q !in gone
    ensures FirstAt(Keep(ms, gone), q) < FirstAt(Keep(ms, gone), p) <==> FirstAt(ms, q) < FirstAt(ms, p)
  {
    if ms != [] {
      KeepHead(ms, gone);
      if ms[0].pair != p && ms[0].pair != q {
        KeepOrder(ms[1..], gone, q, p);
      }
    }
  }

  lemma {:induction false} KeepComplete(ms: seq<Manifest>, gone: set<string>, p: string)
    requires p !in gone
    ensures Complete(Keep(ms, gone), p) <==> Complete(ms, p)
  {
    KeepMembers(ms, gone);
  }

  /** Deleting whole pairs never brings a kept pair down in the order. */
  lemma {:induction false} KeepNewest(ms: seq<Manifest>, gone: set<string>, p: string)
    requires p !in gone && Newest(ms, p)
    ensures Newest(Keep(ms, gone), p)
  {
    var kept := Keep(ms, gone);
    KeepMembers(ms, gone);
    KeepComplete(ms, gone, p);
    forall q | q in Better(kept, p) ensures q in Better(ms, p) {
      KeepComplete(ms, gone, q);
      KeepLatest(ms, gone, q);
      KeepLatest(ms, gone, p);
      KeepOrder(ms, gone, q, p);
    }
    SmallerSet(Better(kept, p), Better(ms, p));
  }

  lemma {:induction false} SmallerSet(a: set<string>, b: set<string>)
    requires a <= b
    ensures |a| <= |b|
  {
    if a != {} {
      var x :| x in a;
      SmallerSet(a - {x}, b - {x});
    }
  }

  ghost function DeletablePairs(ms: seq<Manifest>, now: int): set<string> {
    set p | p in Pairs(ms) && Deletable(ms, now, p)
  }

  /** Once everything deletable is deleted, nothing more is. */
  lemma {:induction false} NothingMore(ms: seq<Manifest>, now: int)
    ensures DeletablePairs(Keep(ms, DeletablePairs(ms, now)), now) == {}
  {
    var gone := DeletablePairs(ms, now);
    var kept := Keep(ms, gone);
    KeepMembers(ms, gone);
    forall p | p in Pairs(kept) ensures !Deletable(kept, now, p) {
      KeepComplete(ms, gone, p);
      if Newest(ms, p) {
        KeepNewest(ms, gone, p);
      }
    }
  }

  // ---- The order, computed ----

  function InsertKey(ms: seq<Manifest>, keys: seq<string>, k: string): (r: seq<string>)
    ensures multiset(r) == multiset(keys) + multiset{k}
  {
    if keys == [] then [k]
    else if Newer(Latest(ms, k), Latest(ms, keys[0])) then [k] + keys
    else
      assert keys == [keys[0]] + keys[1..];
      [keys[0]] + InsertKey(ms, keys[1..], k)
  }

  /** A stable sort, newest first. */
  function Sorted(ms: seq<Manifest>, keys: seq<string>): (r: seq<string>)
    ensures multiset(r) == multiset(keys)
  {
    if keys == [] then []
    else
      assert keys == keys[..|keys| - 1] + [keys[|keys| - 1]];
      InsertKey(ms, Sorted(ms, keys[..|keys| - 1]), keys[|keys| - 1])
  }

  /** Distinct pairs in the order in which they first occur. */
  ghost predicate Listed(ms: seq<Manifest>, keys: seq<string>) {
    && (forall k <- keys :: k in Pairs(ms))
    && forall i, j :: 0 <= i < j < |keys| ==> FirstAt(ms, keys[i]) < FirstAt(ms, keys[j])
  }

  ghost predicate InOrder(ms: seq<Manifest>, keys: seq<string>) {
    forall i, j :: 0 <= i < j < |keys| ==> Ahead(ms, keys[i], keys[j])
  }

  lemma {:induction false} Dated(ms: seq<Manifest>, p: string)
    requires p in Pairs(ms)
    ensures Latest(ms, p).Some?
  {
    if ms[0].pair != p {
      assert ms == [ms[0]] + ms[1..];
      Dated(ms[1..], p);
    }
  }

  lemma {:induction false} AheadOfAll(ms: seq<Manifest>, keys: seq<string>, k: string)
    requires InOrder(ms, keys) && keys != [] && Newer(Latest(ms, k), Latest(ms, keys[0]))
    requires forall x <- keys :: x in Pairs(ms)
    ensures forall x <- keys :: Ahead(ms, k, x)
  {
    forall x | x in keys ensures Ahead(ms, k, x) {
      var j :| 0 <= j < |keys| && keys[j] == x;
      if j > 0 {
        assert Ahead(ms, keys[0], keys[j]);
      }
      Dated(ms, x);
    }
  }

  lemma {:induction false} PrependInOrder(ms: seq<Manifest>, k: string, keys: seq<string>)
    requires InOrder(ms, keys) && forall x <- keys :: Ahead(ms, k, x)
    ensures InOrder(ms, [k] + keys)
  {
    hide Ahead;
    var r := [k] + keys;
    forall i, j | 0 <= i < j < |r| ensures Ahead(ms, r[i], r[j]) {
      assert r[j] == keys[j - 1];
      if i > 0 {
        assert r[i] == keys[i - 1];
      } else {
        assert keys[j - 1] in keys;
      }
    }
  }

  lemma {:induction false} InsertInOrder(ms: seq<Manifest>, keys: seq<string>, k: string)
    requires InOrder(ms, keys) && k in Pairs(ms)
    requires forall x <- keys :: x in Pairs(ms) && FirstAt(ms, x) < FirstAt(ms, k)
    ensures InOrder(ms, InsertKey(ms, keys, k))
  {
    if keys != [] {
      if Newer(Latest(ms, k), Latest(ms, keys[0])) {
        AheadOfAll(ms, keys, k);
        PrependInOrder(ms, k, keys);
      } else {
        Dated(ms, k);
        Dated(ms, keys[0]);
        assert Ahead(ms, keys[0], k);
        InsertInOrder(ms, keys[1..], k);
        var rest := InsertKey(ms, keys[1..], k);
        hide Ahead, InsertKey;
        forall x | x in rest ensures Ahead(ms, keys[0], x) {
          assert x in multiset(rest);
          if x != k {
            assert x in keys[1..];
            var i :| 0 <= i < |keys[1..]| && keys[1..][i] == x;
            assert Ahead(ms, keys[0], keys[i + 1]);
          }
        }
        PrependInOrder(ms, keys[0], rest);
      }
    }
  }

  lemma {:induction false} SortedInOrder(ms: seq<Manifest>, keys: seq<string>)
    requires Listed(ms, keys)
    ensures InOrder(ms, Sorted(ms, keys))
  {
    if keys != [] {
      var init, last := keys[..|keys| - 1], keys[|keys| - 1];
      SortedInOrder(ms, init);
      forall x | x in Sorted(ms, init) ensures x in Pairs(ms) && FirstAt(ms, x) < FirstAt(ms, last) {
        assert x in multiset(Sorted(ms, init));
        assert x in init;
      }
      assert last in keys;
      InsertInOrder(ms, Sorted(ms, init), last);
    }
  }

  /** The first five of the sorted complete pairs are the newest ones. */
  lemma {:induction false} FirstFive(ms: seq<Manifest>, keys: seq<string>, i: nat)
    requires Listed(ms, keys) && i < |keys| && forall p :: p in keys <==> p in CompletePairs(ms)
    ensures |Sorted(ms, keys)| == |keys|
    ensures Newest(ms, Sorted(ms, keys)[i]) <==> i < KEPT
  {
    var s := Sorted(ms, keys);
    SortedInOrder(ms, keys);
    assert |multiset(s)| == |multiset(keys)|;
    assert s[i] in multiset(s);
    assert s[i] in keys;
    var ahead := set j | 0 <= j < i :: s[j];
    forall x ensures x in s <==> x in CompletePairs(ms) {
      assert x in multiset(s) <==> x in multiset(keys);
    }
    hide CompletePairs, Sorted, Listed;
    BetterArePrefix(ms, s, i);
    DistinctPrefix(ms, s, i);
  }

  lemma {:induction false} BetterArePrefix(ms: seq<Manifest>, s: seq<string>, i: nat)
    requires InOrder(ms, s) && i < |s| && forall x :: x in s <==> x in CompletePairs(ms)
    ensures Better(ms, s[i]) == set j | 0 <= j < i :: s[j]
  {
    hide CompletePairs, Latest, FirstAt;
    forall q | q in Better(ms, s[i]) ensures q in set j | 0 <= j < i :: s[j] {
      var j :| 0 <= j < |s| && s[j] == q;
    }
  }

  lemma {:induction false} DistinctPrefix(ms: seq<Manifest>, s: seq<string>, i: nat)
    requires InOrder(ms, s) && i <= |s|
    ensures |set j | 0 <= j < i :: s[j]| == i
  {
    hide Latest, FirstAt;
    if i > 0 {
      DistinctPrefix(ms, s, i - 1);
      var before := set j | 0 <= j < i - 1 :: s[j];
      assert (set j | 0 <= j < i :: s[j]) == before + {s[i - 1]};
    }
  }

  // ---- The selection as the host runs it ----

  function Rows(ms: seq<Manifest>, p: string): (rows: seq<Manifest>)
    ensures forall m :: m in rows <==> m in ms && m.pair == p
  {
    if ms == [] then []
    else
      var last := ms[|ms| - 1];
      assert ms == ms[..|ms| - 1] + [last];
      Rows(ms[..|ms| - 1], p) + if last.pair == p then [last] else []
  }

  predicate AllGood(rows: seq<Manifest>) {
    && (forall m <- rows :: Good(m))
    && (set m | m in rows && Good(m) :: m.phase) == {"PRE", "POST"}
  }

  lemma {:induction false} AllGoodIsComplete(ms: seq<Manifest>, p: string)
    ensures AllGood(Rows(ms, p)) <==> Complete(ms, p)
  {
    var rows := Rows(ms, p);
    var phases := set m | m in rows && Good(m) :: m.phase;
    if AllGood(rows) {
      assert "PRE" in phases && "POST" in phases;
      forall m | m in ms && m.pair == p ensures Good(m) && m.phase in {"PRE", "POST"} {
        assert m in rows;
        assert m.phase in phases;
      }
    }
    if Complete(ms, p) {
      var pre :| pre in ms && pre.pair == p && pre.phase == "PRE";
      var post :| post in ms && post.pair == p && post.phase == "POST";
      assert pre in rows && post in rows;
      assert phases == {"PRE", "POST"};
    }
  }

  lemma {:induction false} FirstAtMost(ms: seq<Manifest>, i: nat)
    requires i < |ms|
    ensures FirstAt(ms, ms[i].pair) <= i
  {
    if i > 0 && ms[0].pair != ms[i].pair {
      FirstAtMost(ms[1..], i - 1);
    }
  }

  ghost predicate Ascending(ids: seq<nat>) {
    forall i, j :: 0 <= i < j < |ids| ==> ids[i] <= ids[j]
  }

  function InsertId(ids: seq<nat>, x: nat): (r: seq<nat>)
    ensures multiset(r) == multiset(ids) + multiset{x}
  {
    if ids == [] then [x]
    else if ids[0] < x then
      assert ids == [ids[0]] + ids[1..];
      [ids[0]] + InsertId(ids[1..], x)
    else [x] + ids
  }

  lemma {:induction false} PrependAscending(x: nat, ids: seq<nat>)
    requires Ascending(ids) && forall y <- ids :: x <= y
    ensures Ascending([x] + ids)
  {
    var r := [x] + ids;
    forall i, j | 0 <= i < j < |r| ensures r[i] <= r[j] {
      assert r[j] == ids[j - 1] && ids[j - 1] in ids;
      if i > 0 {
        assert r[i] == ids[i - 1];
      }
    }
  }

  lemma {:induction false} InsertAscending(ids: seq<nat>, x: nat)
    requires Ascending(ids)
    ensures Ascending(InsertId(ids, x))
  {
    if ids != [] && ids[0] < x {
      InsertAscending(ids[1..], x);
      var rest := InsertId(ids[1..], x);
      forall y | y in rest ensures ids[0] <= y {
        assert y in multiset(rest);
        assert y == x || y in ids[1..];
      }
      PrependAscending(ids[0], rest);
    }
  }

  /** The identifiers of the manifests of the given pairs. */
  function Selected(ms: seq<Manifest>, gone: set<string>): seq<nat> {
    if ms == [] then []
    else
      var last := ms[|ms| - 1];
      Selected(ms[..|ms| - 1], gone) + if last.pair in gone then [last.backupId] else []
  }

  /** The first `n` manifests, grouped: pairs in the order of their first manifest. */
  ghost predicate Grouped(ms: seq<Manifest>, n: nat, order: seq<string>, pairs: map<string, seq<Manifest>>)
    requires n <= |ms|
  {
    && Listed(ms, order)
    && (forall p :: p in order <==> p in pairs)
    && (forall p :: p in pairs <==> p in Pairs(ms) && FirstAt(ms, p) < n)
    && (forall p :: p in pairs ==> pairs[p] == Rows(ms[..n], p))
  }

  lemma {:induction false} RowsNext(ms: seq<Manifest>, n: nat, p: string)
    requires n < |ms|
    ensures Rows(ms[..n + 1], p) == Rows(ms[..n], p) + if ms[n].pair == p then [ms[n]] else []
  {
    assert ms[..n + 1][..n] == ms[..n];
  }

  /** The pairs seen after one more manifest. */
  lemma {:induction false} SeenNext(ms: seq<Manifest>, n: nat, p: string)
    requires n < |ms|
    ensures p in Pairs(ms) && FirstAt(ms, p) < n + 1 <==> (p in Pairs(ms) && FirstAt(ms, p) < n) || p == ms[n].pair
  {
    FirstAtMost(ms, n);
    FirstIsThere(ms);
  }

  lemma {:induction false} GroupedMore(ms: seq<Manifest>, n: nat, order: seq<string>, pairs: map<string, seq<Manifest>>)
    requires n < |ms| && Grouped(ms, n, order, pairs) && ms[n].pair in pairs
    ensures Grouped(ms, n + 1, order, pairs[ms[n].pair := pairs[ms[n].pair] + [ms[n]]])
  {
    hide Rows, FirstAt, Pairs;
    forall p ensures p in pairs <==> p in Pairs(ms) && FirstAt(ms, p) < n + 1 {
      SeenNext(ms, n, p);
    }
    forall p | p in pairs ensures Rows(ms[..n + 1], p) == pairs[p] + if ms[n].pair == p then [ms[n]] else [] {
      RowsNext(ms, n, p);
    }
  }

  lemma {:induction false} ListedNew(ms: seq<Manifest>, order: seq<string>, key: string)
    requires Listed(ms, order) && key in Pairs(ms) && forall p <- order :: FirstAt(ms, p) < FirstAt(ms, key)
    ensures Listed(ms, order + [key])
  {
    hide FirstAt, Pairs;
  }

  lemma {:induction false} RowsNew(ms: seq<Manifest>, n: nat, pairs: map<string, seq<Manifest>>)
    requires n < |ms| && ms[n].pair !in pairs && FirstAt(ms, ms[n].pair) >= n
    requires forall p :: p in pairs ==> pairs[p] == Rows(ms[..n], p)
    ensures var grown := pairs[ms[n].pair := [ms[n]]];
            forall p :: p in grown ==> grown[p] == Rows(ms[..n + 1], p)
  {
    var key := ms[n].pair;
    RowsBefore(ms, n, key);
    hide Rows, FirstAt;
    forall p ensures Rows(ms[..n + 1], p) == Rows(ms[..n], p) + if key == p then [ms[n]] else [] {
      RowsNext(ms, n, p);
    }
  }

  lemma {:induction false} GroupedNew(ms: seq<Manifest>, n: nat, order: seq<string>, pairs: map<string, seq<Manifest>>)
    requires n < |ms| && Grouped(ms, n, order, pairs) && ms[n].pair !in pairs
    ensures Grouped(ms, n + 1, order + [ms[n].pair], pairs[ms[n].pair := [ms[n]]])
  {
    var key := ms[n].pair;
    assert key in Pairs(ms);
    hide Rows, FirstAt, Pairs, Listed;
    forall p ensures p in pairs || p == key <==> p in Pairs(ms) && FirstAt(ms, p) < n + 1 {
      SeenNext(ms, n, p);
    }
    RowsNew(ms, n, pairs);
    ListedNew(ms, order, key);
  }

  lemma {:induction false} FirstIsThere(ms: seq<Manifest>)
    ensures forall p :: p in Pairs(ms) ==> FirstAt(ms, p) < |ms| && ms[FirstAt(ms, p)].pair == p
  {
  }

  lemma {:induction false} RowsBefore(ms: seq<Manifest>, n: nat, p: string)
    requires n <= |ms| && FirstAt(ms, p) >= n
    ensures Rows(ms[..n], p) == []
  {
    if n > 0 {
      RowsBefore(ms, n - 1, p);
      RowsNext(ms, n - 1, p);
      FirstAtMost(ms, n - 1);
    }
  }

  /** Pairs in the order of their first manifest, with their manifests. */
  method Group(ms: seq<Manifest>) returns (order: seq<string>, pairs: map<string, seq<Manifest>>)
    ensures Listed(ms, order) && (forall p :: p in order <==> p in Pairs(ms)) && pairs.Keys == Pairs(ms)
    ensures forall p :: p in pairs ==> pairs[p] == Rows(ms, p)
  {
    order, pairs := [], map[];
    for n := 0 to |ms|
      invariant Grouped(ms, n, order, pairs)
    {
      hide Grouped;
      var m := ms[n];
      if m.pair !in pairs {
        GroupedNew(ms, n, order, pairs);
        order := order + [m.pair];
        pairs := pairs[m.pair := [m]];
      } else {
        GroupedMore(ms, n, order, pairs);
        pairs := pairs[m.pair := pairs[m.pair] + [m]];
      }
    }
    assert ms[..|ms|] == ms;
    hide Rows;
  }

  lemma {:induction false} SelectedNext(ms: seq<Manifest>, n: nat, gone: set<string>)
    requires n < |ms|
    ensures Selected(ms[..n + 1], gone) == Selected(ms[..n], gone) + if ms[n].pair in gone then [ms[n].backupId] else []
  {
    assert ms[..n + 1][..n] == ms[..n];
  }

  /** A manifest that on its own may go: verified throughout, of a known phase, held by nobody,
      and from before the thirteenth midnight in Shanghai before the one that has just passed. */
  ghost predicate Old(m: Manifest, now: int) {
    && m.integrity && m.restored && m.mirrored && (m.phase == "PRE" || m.phase == "POST")
    && !m.stable && !m.postPending && !m.referenced
    && exists midnight :: midnight % 86_400_000_000 == 0 && midnight <= now + 28_800_000_000 < midnight + 86_400_000_000
                          && m.created + 28_800_000_000 < midnight - 13 * 86_400_000_000
  }

  /** A pair that may go: all its manifests may, it has both phases, and five complete pairs are
      ahead of it, newer or equally new and listed first. */
  ghost predicate Expendable(ms: seq<Manifest>, now: int, p: string) {
    && (forall m <- ms :: m.pair == p ==> Old(m, now))
    && (exists m <- ms :: m.pair == p && m.phase == "PRE") && (exists m <- ms :: m.pair == p && m.phase == "POST")
    && |Better(ms, p)| >= 5
  }

  lemma {:induction false} OldIs(m: Manifest, now: int)
    ensures Old(m, now) <==> Good(m) && m.phase in {"PRE", "POST"} && !Holds(m, now)
  {
    var midnight := (now + UTC_PLUS_8) / DAY * DAY;
    assert midnight % 86_400_000_000 == 0;
    if Old(m, now) {
      var other :| other % 86_400_000_000 == 0 && other <= now + 28_800_000_000 < other + 86_400_000_000
                   && m.created + 28_800_000_000 < other - 13 * 86_400_000_000;
      assert other == midnight;
    }
    if DayOf(m.created) < DayOf(now) - 13 {
      assert m.created + 28_800_000_000 < midnight - 13 * 86_400_000_000;
    }
  }

  /** Deletability, in the manifests' own fields. */
  lemma {:induction false} DeletableIs(ms: seq<Manifest>, now: int, p: string)
    requires p in Pairs(ms)
    ensures Deletable(ms, now, p) <==> Expendable(ms, now, p)
  {
    forall m | m in ms ensures Old(m, now) <==> Good(m) && m.phase in {"PRE", "POST"} && !Holds(m, now) {
      OldIs(m, now);
    }
    hide Old, Good, Holds, Better;
  }

  lemma {:induction false} SelectedMembers(ms: seq<Manifest>, gone: set<string>)
    ensures forall id :: id in Selected(ms, gone) <==> exists m <- ms :: m.backupId == id && m.pair in gone
  {
    if ms != [] {
      var init, last := ms[..|ms| - 1], ms[|ms| - 1];
      assert ms == init + [last];
      SelectedMembers(init, gone);
    }
  }

  lemma {:induction false} CandidatesAre(ms: seq<Manifest>, now: int, ids: seq<nat>)
    requires multiset(ids) == multiset(Selected(ms, DeletablePairs(ms, now)))
    ensures forall id :: id in ids <==> exists m <- ms :: m.backupId == id && Expendable(ms, now, m.pair)
  {
    hide Deletable, Expendable, Selected;
    SelectedMembers(ms, DeletablePairs(ms, now));
    forall m | m in ms ensures Deletable(ms, now, m.pair) <==> Expendable(ms, now, m.pair) {
      DeletableIs(ms, now, m.pair);
    }
    forall id ensures id in ids <==> id in Selected(ms, DeletablePairs(ms, now)) {
      assert id in ids <==> id in multiset(ids);
      assert id in Selected(ms, DeletablePairs(ms, now)) <==> id in multiset(Selected(ms, DeletablePairs(ms, now)));
    }
  }

  /** The identifiers of all backups that may be deleted, in ascending order. */
  method Candidates(ms: seq<Manifest>, now: int) returns (ids: seq<nat>)
    ensures forall id :: id in ids <==> exists m <- ms :: m.backupId == id && Expendable(ms, now, m.pair)
    ensures multiset(ids) == multiset(Selected(ms, DeletablePairs(ms, now)))
    ensures Ascending(ids)
  {
    hide Selected, DeletablePairs, CompletePairs, Listed, Newest, Rows;
    var order, pairs := Group(ms);
    var complete := CompleteOf(ms, order, pairs);
    var sorted := Sorted(ms, complete);
    var recent := set i | 0 <= i < KEPT && i < |sorted| :: sorted[i];
    RecentIsNewest(ms, complete, recent);
    var guarded := ProtectedPairs(ms, now, complete, recent);
    ids := [];
    assert Selected(ms[..0], DeletablePairs(ms, now)) == [] by {
      SelectedNone(ms, DeletablePairs(ms, now));
    }
    for n := 0 to |ms|
      invariant multiset(ids) == multiset(Selected(ms[..n], DeletablePairs(ms, now)))
      invariant Ascending(ids)
    {
      hide Ascending, InsertId;
      SelectedNext(ms, n, DeletablePairs(ms, now));
      assert ms[n].pair in Pairs(ms);
      if ms[n].pair !in guarded {
        InsertAscending(ids, ms[n].backupId);
        ids := InsertId(ids, ms[n].backupId);
      }
    }
    assert ms[..|ms|] == ms;
    CandidatesAre(ms, now, ids);
  }

  lemma {:induction false} SelectedNone(ms: seq<Manifest>, gone: set<string>)
    ensures Selected(ms[..0], gone) == []
  {
  }

  /** The pairs listed so far whose manifests are all good. */
  ghost predicate CompleteSoFar(ms: seq<Manifest>, order: seq<string>, n: nat, complete: seq<string>)
    requires n <= |order|
  {
    && Listed(ms, complete)
    && (forall p :: p in complete <==> p in order[..n] && Complete(ms, p))
  }

  lemma {:induction false} CompleteNext(ms: seq<Manifest>, order: seq<string>, n: nat, complete: seq<string>)
    requires n < |order| && Listed(ms, order) && CompleteSoFar(ms, order, n, complete)
    ensures CompleteSoFar(ms, order, n + 1, if Complete(ms, order[n]) then complete + [order[n]] else complete)
  {
    hide Complete, Pairs, FirstAt;
    assert order[n] in order;
    assert order[..n + 1] == order[..n] + [order[n]];
    forall p | p in complete ensures FirstAt(ms, p) < FirstAt(ms, order[n]) {
      var i :| 0 <= i < n && order[..n][i] == p;
    }
  }

  method CompleteOf(ms: seq<Manifest>, order: seq<string>, pairs: map<string, seq<Manifest>>)
    returns (complete: seq<string>)
    requires Listed(ms, order) && (forall p :: p in order <==> p in Pairs(ms)) && pairs.Keys == Pairs(ms)
    requires forall p :: p in pairs ==> pairs[p] == Rows(ms, p)
    ensures Listed(ms, complete) && forall p :: p in complete <==> p in CompletePairs(ms)
  {
    complete := [];
    for n := 0 to |order|
      invariant CompleteSoFar(ms, order, n, complete)
    {
      hide CompleteSoFar, Complete, AllGood, Rows, Listed;
      AllGoodIsComplete(ms, order[n]);
      CompleteNext(ms, order, n, complete);
      assert order[n] in order;
      if AllGood(pairs[order[n]]) {
        complete := complete + [order[n]];
      }
    }
    assert order[..|order|] == order;
    hide Complete, Rows, FirstAt;
  }

  lemma {:induction false} RecentIsNewest(ms: seq<Manifest>, complete: seq<string>, recent: set<string>)
    requires Listed(ms, complete) && forall p :: p in complete <==> p in CompletePairs(ms)
    requires var s := Sorted(ms, complete); recent == set i | 0 <= i < KEPT && i < |s| :: s[i]
    ensures forall p :: p in recent <==> Newest(ms, p)
  {
    var s := Sorted(ms, complete);
    assert |multiset(s)| == |multiset(complete)|;
    forall i | 0 <= i < |s| ensures s[i] in CompletePairs(ms) && (Newest(ms, s[i]) <==> i < KEPT) {
      FirstFive(ms, complete, i);
      assert s[i] in multiset(s);
      assert s[i] in complete;
    }
    forall p | Newest(ms, p) ensures p in recent {
      assert p in multiset(complete);
      assert p in s;
      var i :| 0 <= i < |s| && s[i] == p;
    }
  }

  method ProtectedPairs(ms: seq<Manifest>, now: int, complete: seq<string>, recent: set<string>)
    returns (guarded: set<string>)
    requires forall p :: p in complete <==> p in CompletePairs(ms)
    requires forall p :: p in recent <==> Newest(ms, p)
    ensures forall p :: p in Pairs(ms) ==> (p in guarded <==> p !in DeletablePairs(ms, now))
  {
    guarded := {};
    for n := 0 to |ms|
      invariant forall p :: p in guarded <==>
                  exists k :: 0 <= k < n && ms[k].pair == p && (!Complete(ms, p) || Newest(ms, p) || Holds(ms[k], now))
    {
      var m := ms[n];
      assert m.pair in Pairs(ms);
      if m.pair !in complete || m.pair in recent || Holds(m, now) {
        guarded := guarded + {m.pair};
      }
    }
    forall p | p in Pairs(ms) ensures p in guarded <==> !Deletable(ms, now, p) {
      if !Deletable(ms, now, p) && (!Complete(ms, p) || Newest(ms, p)) {
        var m :| m in ms && m.pair == p;
        var k :| 0 <= k < |ms| && ms[k] == m;
        assert p in guarded;
      }
    }
  }
}
