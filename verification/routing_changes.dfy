/**
 What each operation of the router does to the zone it is about and to every other one: who is stacked
 afterwards, in which order, who waits and who has the DAC.
 */
module RoutingChanges {
  import opened Lists
  import opened Text
  import opened Routing
  import opened RoutingRuns
  import opened RoutingOrder

  // --- Order ------------------------------------------------------------------------------

  ghost predicate Before(s: seq<int>, x: int, y: int) {
    exists i, j | 0 <= i < j < |s| :: s[i] == x && s[j] == y
  }

  /** No two zones other than `z` that are on both lists have changed places. */
  ghost predicate SameOrder(a: seq<int>, b: seq<int>, z: int) {
    forall x, y | x != z && y != z && x in a && y in a && x in b && y in b :: Before(a, x, y) <==> Before(b, x, y)
  }

  lemma BeforeCons(h: int, s: seq<int>, x: int, y: int)
    ensures Before([h] + s, x, y) <==> (h == x && y in s) || Before(s, x, y)
  {
    var t := [h] + s;
    if Before(t, x, y) {
      var i, j :| 0 <= i < j < |t| && t[i] == x && t[j] == y;
      assert t[j] == s[j - 1];
      if i > 0 { assert t[i] == s[i - 1]; }
    }
    if h == x && y in s {
      var j :| 0 <= j < |s| && s[j] == y;
      assert t[0] == x && t[j + 1] == y;
    }
    if Before(s, x, y) {
      var i, j :| 0 <= i < j < |s| && s[i] == x && s[j] == y;
      assert t[i + 1] == x && t[j + 1] == y;
    }
  }

  lemma {:induction false} DropBefore(s: seq<int>, gone: set<int>, x: int, y: int)
    requires x !in gone && y !in gone
    ensures Before(Drop(s, gone), x, y) <==> Before(s, x, y)
  {
    if s != [] {
      assert s == [s[0]] + s[1..];
      DropBefore(s[1..], gone, x, y);
      BeforeCons(s[0], s[1..], x, y);
      if s[0] !in gone { BeforeCons(s[0], Drop(s[1..], gone), x, y); }
    }
  }

  lemma SnocBefore(s: seq<int>, z: int, x: int, y: int)
    requires y != z
    ensures Before(s + [z], x, y) <==> Before(s, x, y)
  {
    var t := s + [z];
    if Before(t, x, y) {
      var i, j :| 0 <= i < j < |t| && t[i] == x && t[j] == y;
      assert s[i] == x && s[j] == y;
    }
    if Before(s, x, y) {
      var i, j :| 0 <= i < j < |s| && s[i] == x && s[j] == y;
      assert t[i] == x && t[j] == y;
    }
  }

  lemma DropSameOrder(s: seq<int>, gone: set<int>, z: int)
    ensures SameOrder(s, Drop(s, gone), z)
  {
    forall x, y | x in Drop(s, gone) && y in Drop(s, gone) ensures Before(s, x, y) <==> Before(Drop(s, gone), x, y) {
      DropBefore(s, gone, x, y);
    }
  }

  lemma PushSameOrder(s: seq<int>, z: int)
    ensures SameOrder(s, Push(s, z), z)
  {
    forall x, y | x != z && y != z ensures Before(s, x, y) <==> Before(Push(s, z), x, y) {
      DropBefore(s, {z}, x, y);
      BeforeCons(z, Drop(s, {z}), x, y);
    }
  }

  lemma SnocSameOrder(s: seq<int>, z: int)
    ensures SameOrder(s, s + [z], z)
  {
    forall x, y | x != z && y != z ensures Before(s, x, y) <==> Before(s + [z], x, y) {
      SnocBefore(s, z, x, y);
    }
  }

  lemma OrderThrough(a: seq<int>, b: seq<int>, c: seq<int>, z: int)
    requires SameOrder(a, b, z) && SameOrder(b, c, z)
    requires forall x | x != z && x in c :: x in b
    ensures SameOrder(a, c, z)
  {
  }

  ghost predicate SameOthers(a: seq<int>, b: seq<int>, z: int) {
    (forall x | x != z :: x in a <==> x in b) && SameOrder(a, b, z)
  }

  // --- Promotion --------------------------------------------------------------------------

  /** Zone `z` has the DAC and the front; nobody waits; the others stand as they stood. */
  ghost predicate GivenTheDac(s: State, t: State, z: int) {
    && t.owner == z && t.stack != [] && t.stack[0] == z && t.pending == 0 && t.handoff == 0
    && SameOthers(s.stack, t.stack, z) && t.enabled == s.enabled && t.routedAt == s.routedAt
  }

  lemma PromoteGives(s: State, z: int)
    requires Inv(s) && s.pending == z && z != 0
    ensures GivenTheDac(s, PromoteCommit(s, z), z)
  {
    PushSameOrder(s.stack, z);
  }

  /** The second half gives the DAC to its zone, hand-off or not, just when that zone is ready and still waits. */
  lemma PromotionIff(sys: Sys, tid: nat, ready: bool)
    requires sys.Shape() && Inv(sys.r) && tid in sys.calls && sys.calls[tid].Promoting?
    ensures var s, t, z := sys.r, Next(sys, PromoteSecond(tid, ready)).r, sys.calls[tid].zone;
            if ready && z != 0 && z == s.pending then GivenTheDac(s, t, z) else t == s
  {
    var z := sys.calls[tid].zone;
    if z != 0 && z == sys.r.pending { PromoteGives(sys.r, z); }
  }

  /** So it is in every run, whatever happened between the halves. */
  lemma EveryPromotion(mask: seq<bool>, steps: seq<Step>, tid: nat, ready: bool)
    requires |mask| == MAX_ZONES + 1 && LegalRun(Booted(mask), steps)
    requires var sys := Run(Booted(mask), steps); tid in sys.calls && sys.calls[tid].Promoting?
    ensures var sys := Run(Booted(mask), steps);
            var s, t, z := sys.r, Next(sys, PromoteSecond(tid, ready)).r, sys.calls[tid].zone;
            if ready && z != 0 && z == s.pending then GivenTheDac(s, t, z) else t == s
  {
    RouterSafety(mask, steps);
    PromotionIff(Run(Booted(mask), steps), tid, ready);
  }

  /** A zone that waits gets the DAC from an uninterrupted promotion, if it is ready. */
  lemma WaitingZoneGetsDac(sys: Sys, tid: nat)
    requires sys.Shape() && Inv(sys.r) && tid !in sys.calls && sys.r.pending != 0
    ensures var t := Next(Next(sys, PromoteFirst(tid)), PromoteSecond(tid, true)).r;
            GivenTheDac(sys.r, t, sys.r.pending)
  {
    PromotionIff(Next(sys, PromoteFirst(tid)), tid, true);
  }

  // --- Starts -----------------------------------------------------------------------------

  /** No live audio, and no start of its own in the last half second. */
  predicate Silent(snap: Snapshot, look: Look, x: int)
    requires |snap.routedAt| == MAX_ZONES + 1
  {
    x !in look.live && !(1 <= x <= 16 && 0 < snap.routedAt[x] && look.now <= snap.routedAt[x] + 500)
  }

  /** A start of `z` forgets `x`: the owner has fallen silent, or `x` has. */
  predicate Forgotten(snap: Snapshot, probe: Probe, z: int, x: int)
    requires |snap.routedAt| == MAX_ZONES + 1
  {
    probe.Probe? && x != z &&
    if snap.owner > 0 && snap.owner != z && Silent(snap, probe.prune, snap.owner) then true
    else x != snap.owner && Silent(snap, probe.prune, x)
  }

  /** A zone other than `z` that plays live: the bridge's, else the owner, else the first one left. */
  ghost predicate SomeonePlays(s: State, z: int, snap: Snapshot, playback: int, probe: Probe)
    requires |snap.routedAt| == MAX_ZONES + 1
  {
    probe.Probe? &&
    if playback > 0 then playback != z && !Silent(snap, probe.defer, playback)
    else if snap.owner > 0 then snap.owner != z && !Silent(snap, probe.defer, snap.owner)
    else exists w | w in s.stack && w != z && !Forgotten(snap, probe, z, w) && !Silent(snap, probe.defer, w) ::
           forall y | Before(s.stack, y, w) :: y != z && Forgotten(snap, probe, z, y)
  }

  lemma SilentIs(snap: Snapshot, look: Look, x: int)
    requires |snap.routedAt| == MAX_ZONES + 1
    ensures Silent(snap, look, x) <==> !SessionActive(snap, look, x)
  {
  }

  /** Pruning forgets exactly those, and reorders nobody. */
  lemma PrunedIs(s: State, z: int, snap: Snapshot, probe: Probe)
    requires Inv(s) && |snap.routedAt| == MAX_ZONES + 1
    ensures forall x | x != z :: x in Pruned(s, z, snap, probe) <==> x in s.stack && !Forgotten(snap, probe, z, x)
    ensures SameOrder(s.stack, Pruned(s, z, snap, probe), 0) && NoDup(Pruned(s, z, snap, probe))
    ensures forall x | x in Pruned(s, z, snap, probe) :: On(s.enabled, x)
  {
    match probe
    case NoProbe =>
    case Probe(look, _) =>
      var gone := set x | x in s.stack && x != z && x != snap.owner && !SessionActive(snap, look, x);
      DropSameOrder(s.stack, gone, 0);
      SilentIs(snap, look, snap.owner);
      forall x ensures Silent(snap, look, x) <==> !SessionActive(snap, look, x) { SilentIs(snap, look, x); }
  }

  /** The front of what is kept is the first that is not dropped. */
  lemma {:induction false} DropFront(s: seq<int>, gone: set<int>, w: int)
    requires NoDup(s)
    ensures Drop(s, gone) != [] && Drop(s, gone)[0] == w <==>
            w in s && w !in gone && forall y | Before(s, y, w) :: y in gone
  {
    if s != [] {
      var rest := s[1..];
      assert s == [s[0]] + rest;
      assert s[0] !in rest && NoDup(rest);
      DropFront(rest, gone, w);
      forall y ensures Before(s, y, w) <==> (s[0] == y && w in rest) || Before(rest, y, w) {
        BeforeCons(s[0], rest, y, w);
      }
    }
  }

  /** The first zone left after pruning, when no zone is known to play. */
  lemma FirstLeft(s: State, z: int, snap: Snapshot, probe: Probe)
    requires Inv(s) && On(s.enabled, z) && |snap.routedAt| == MAX_ZONES + 1 && probe.Probe? && snap.owner <= 0
    ensures Defers(Pruned(s, z, snap, probe), z, snap, 0, probe) <==> SomeonePlays(s, z, snap, 0, probe)
  {
    var gone := set x | x in s.stack && x != z && x != snap.owner && !SessionActive(snap, probe.prune, x);
    var kept := Drop(s.stack, gone);
    forall x ensures Silent(snap, probe.prune, x) <==> !SessionActive(snap, probe.prune, x) {
      SilentIs(snap, probe.prune, x);
    }
    forall x | x in s.stack ensures x in gone <==> x != z && Forgotten(snap, probe, z, x) {
      assert On(s.enabled, x);
    }
    if kept != [] {
      DropFront(s.stack, gone, kept[0]);
      SilentIs(snap, probe.defer, kept[0]);
    }
    if SomeonePlays(s, z, snap, 0, probe) {
      var w :| w in s.stack && w != z && !Forgotten(snap, probe, z, w) && !Silent(snap, probe.defer, w) &&
        forall y | Before(s.stack, y, w) :: y != z && Forgotten(snap, probe, z, y);
      DropFront(s.stack, gone, w);
    }
  }

  /** The newcomer waits just when someone else plays. */
  lemma WaitsIff(s: State, z: int, snap: Snapshot, playback: int, probe: Probe)
    requires Inv(s) && On(s.enabled, z) && |snap.routedAt| == MAX_ZONES + 1
    ensures Defers(Pruned(s, z, snap, probe), z, snap, playback, probe) <==> SomeonePlays(s, z, snap, playback, probe)
  {
    if probe.Probe? {
      SilentIs(snap, probe.defer, playback);
      SilentIs(snap, probe.defer, snap.owner);
      if playback <= 0 && snap.owner <= 0 { FirstLeft(s, z, snap, probe); }
    }
  }

  /** Waiting: pending, and stacked last or where it was. Taking over: the DAC, the front, nobody pending. */
  ghost predicate Waits(s: State, t: State, z: int) {
    && t.pending == z && z in t.stack && t.owner == t.stack[0]
    && (if z in s.stack then SameOrder(s.stack, t.stack, 0)
        else SameOrder(s.stack, t.stack, z) && t.stack[|t.stack| - 1] == z)
  }

  ghost predicate TakesOver(s: State, t: State, z: int) {
    t.pending == 0 && t.owner == z && t.stack != [] && t.stack[0] == z && SameOrder(s.stack, t.stack, z)
  }

  /**
   A start, from any snapshot: it ends a hand-off and stamps the zone, keeps of the others those it does not
   forget, in their order, and then waits if and only if someone else plays.
   */
  lemma StartOutcome(s: State, z: int, snap: Snapshot, playback: int, probe: Probe, now: int)
    requires Inv(s) && On(s.enabled, z) && |snap.routedAt| == MAX_ZONES + 1
    ensures var t := StartCommit(s, z, snap, playback, probe, now);
            && t.handoff == 0 && t.enabled == s.enabled && t.routedAt == s.routedAt[z := now]
            && (forall x | x != z :: x in t.stack <==> x in s.stack && !Forgotten(snap, probe, z, x))
            && (if SomeonePlays(s, z, snap, playback, probe) then Waits(s, t, z) else TakesOver(s, t, z))
  {
    var kept := Pruned(s, z, snap, probe);
    PrunedIs(s, z, snap, probe);
    WaitsIff(s, z, snap, playback, probe);
    PushSameOrder(kept, z);
    SnocSameOrder(kept, z);
    OrderThrough(s.stack, kept, Push(kept, z), z);
    OrderThrough(s.stack, kept, kept + [z], z);
  }

  /**
   A start is safe from newcomers for half a second: another zone that starts while no live audio is seen
   anywhere waits if and only if both looks come within that time.
   */
  lemma RecentStartHoldsIff(s: State, o: int, z: int, started: int, prune: int, defer: int, now: int)
    requires Inv(s) && s.stack == [] && s.pending == 0 && s.handoff == 0 && On(s.enabled, o) && On(s.enabled, z) && z != o
    requires started > 0
    ensures var idle := Look({}, started);
            var first := StartCommit(s, o, Snapshot(s.owner, s.routedAt), 0, Probe(idle, idle), started);
            var looks := Probe(Look({}, prune), Look({}, defer));
            var second := StartCommit(first, z, Snapshot(first.owner, first.routedAt), o, looks, now);
            && first.owner == o && first.stack == [o]
            && (second.owner == (if prune <= started + 500 && defer <= started + 500 then o else z))
  {
    var idle := Look({}, started);
    var snap := Snapshot(s.owner, s.routedAt);
    var first := StartCommit(s, o, snap, 0, Probe(idle, idle), started);
    StartOutcome(s, o, snap, 0, Probe(idle, idle), started);
    StartCommitInv(s, o, snap, 0, Probe(idle, idle), started);
    assert first.stack == [o];
    TakeoverIff(first, z, Look({}, prune), Look({}, defer), now);
  }

  // --- The other operations ---------------------------------------------------------------

  /** An ended zone leaves; no other is moved, and waiting and hand-off change only if they were about it. */
  lemma EndOutcome(s: State, z: int)
    requires Inv(s) && On(s.enabled, z)
    ensures var t := RouteEnd(s, z);
            && z !in t.stack && SameOthers(s.stack, t.stack, z) && t.enabled == s.enabled && t.routedAt == s.routedAt
            && (z != s.owner ==> t.owner == s.owner && t.handoff == s.handoff
                                 && t.pending == if s.pending == z then 0 else s.pending)
            && (z == s.owner && t.stack == [] ==> t.owner == 0 && t.pending == 0 && t.handoff == 0)
            && (z == s.owner && t.stack != [] ==> t.owner == z && t.pending == t.stack[0] && t.handoff == z)
  {
    DropSameOrder(s.stack, {z}, z);
  }

  /** A joining zone is stacked last unless it is stacked already, and plays only on an idle router. */
  lemma JoinOutcome(s: State, z: int)
    requires Inv(s) && On(s.enabled, z)
    ensures var t := RouteJoin(s, z);
            && SameOthers(s.stack, t.stack, z) && t.pending == s.pending && t.handoff == s.handoff
            && t.enabled == s.enabled && t.routedAt == s.routedAt
            && (if z in s.stack then t.stack == s.stack else t.stack != [] && t.stack[|t.stack| - 1] == z)
            && t.owner == if s.owner == 0 then z else s.owner
  {
    SnocSameOrder(s.stack, z);
    assert s.stack != [] ==> s.stack[0] in s.stack;
  }

  /** A disabled zone leaves stack and waiting, an enabled one only may come back; nothing else moves. */
  lemma EnableOutcome(s: State, z: int, on: bool)
    requires Inv(s) && 1 <= z <= MAX_ZONES
    ensures var t := SetEnabled(s, z, on).0;
            && t.enabled == s.enabled[z := on] && t.handoff == s.handoff && t.routedAt == s.routedAt
            && SameOthers(s.stack, t.stack, z)
            && (z in t.stack <==> on && z in s.stack) && t.pending == if !on && s.pending == z then 0 else s.pending
  {
    DropSameOrder(s.stack, {z}, z);
  }

  /** A new mask takes exactly the zones it disables from stack and waiting. */
  lemma MaskOutcome(s: State, mask: seq<bool>)
    requires Inv(s) && |mask| == MAX_ZONES + 1
    ensures var t := LoadMask(s, mask);
            && t.enabled == mask && t.handoff == s.handoff && t.routedAt == s.routedAt
            && (forall x :: x in t.stack <==> x in s.stack && On(mask, x)) && SameOrder(s.stack, t.stack, 0)
            && t.pending == if On(mask, s.pending) then s.pending else 0
  {
    DropSameOrder(s.stack, set z | z in s.stack && !On(mask, z), 0);
  }

  /** A requested stack: its enabled zones in the order of the request, an enabled owner in front. */
  lemma RouteOutcome(s: State, owner: int, zones: seq<int>)
    requires Inv(s) && owner <= MAX_ZONES && RequestDupFree(s, owner, zones)
    ensures var t := SetRouting(s, owner, zones);
            && (forall x :: x in t.stack <==> On(s.enabled, x) && (x in zones || x == owner))
            && SameOrder(zones, t.stack, owner) && (On(s.enabled, owner) ==> t.stack[0] == owner)
            && t.pending == s.pending && t.handoff == s.handoff && t.enabled == s.enabled && t.routedAt == s.routedAt
  {
    var off := set z | z in zones && !On(s.enabled, z);
    var kept := EnabledOnly(s, zones);
    DropSameOrder(zones, off, owner);
    PushSameOrder(kept, owner);
    OrderThrough(zones, kept, Push(kept, owner), owner);
  }
}
