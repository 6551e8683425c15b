/**
 Which events a step of the router announces, and the list of enabled zones that the metadata service
 keeps from them.
 */
module Announcements {
  import opened Lists
  import opened Text
  import opened Routing
  import opened RoutingRuns
  import opened OwnerEvents

  // --- What is announced ------------------------------------------------------------------

  ghost predicate SaysPending(es: seq<Event>) { exists e | e in es :: e.OwnerPending? }
  ghost predicate SaysOwner(es: seq<Event>) { exists e | e in es :: e.OwnerChanged? }

  /** Everything an event says about the router is true of the state. */
  ghost predicate True(e: Event, r: State)
    requires r.Shape()
  {
    match e
    case OwnerPending(owner, pending, stack) => owner == r.owner && pending == r.pending && stack == r.stack
    case OwnerChanged(owner, pending, stack) =>
      owner == r.owner && stack == r.stack && (pending.Some? ==> pending.value == r.pending)
    case RouterSnapshot(owner, pending, stack, zones) =>
      owner == r.owner && pending == r.pending && stack == r.stack && zones == EnabledList(r.enabled, MAX_ZONES)
    case RoutingChanged(owner, pending, stack, zones) =>
      owner == r.owner && pending == r.pending && stack == r.stack && zones == EnabledList(r.enabled, MAX_ZONES)
    case ZoneDisabled(zone) => !On(r.enabled, zone)
    case ZoneCaptureClosed(_) => true
  }

  ghost predicate AllTrue(es: seq<Event>, r: State)
    requires r.Shape()
  {
    forall e | e in es :: True(e, r)
  }

  lemma ReportTrue(before: State, after: State)
    requires after.Shape()
    ensures AllTrue(OwnerEventsOf(before, after), after) && AllTrue(ReportOf(before, after), after)
    ensures AllTrue([SnapshotOf(after)], after) && AllTrue([], after)
  {
  }

  lemma BothTrue(a: seq<Event>, b: seq<Event>, r: State)
    requires r.Shape() && AllTrue(a, r) && AllTrue(b, r)
    ensures AllTrue(a + b, r)
  {
  }

  lemma SetEnabledTrue(s: State, z: int, on: bool)
    requires Inv(s)
    ensures AllTrue(SetEnabledEvents(s, z, on), SetEnabled(s, z, on).0)
  {
    EnableAndOwner(s, z, on);
  }

  lemma RequestTrue(s: State, t: Trigger, zoneCount: int)
    requires Inv(s) && LegalTrigger(s, t) && (t.Socket? || t.Broker?)
    ensures AllTrue(Emitted(s, t, zoneCount), After(s, t))
  {
    hide True, AllTrue, SetEnabledEvents, ReportOf, OwnerEventsOf, SnapshotOf, Settled;
    var r := After(s, t);
    ReportTrue(s, r);
    match t.request
    case SetZoneEnabledRequest(z, on) => SetEnabledTrue(s, z, on);
    case RouteJoinRequest(z) =>
      BothTrue(PrewarmEvents(r, z, zoneCount), ReportOf(s, r), r);
      BothTrue(PrewarmEvents(r, z, zoneCount), [SnapshotOf(r)], r);
    case _ => BothTrue(OwnerEventsOf(s, r), [SnapshotOf(r)], r);
  }

  lemma ClosedTrue(closed: seq<int>, r: State)
    requires r.Shape()
    ensures AllTrue(seq(|closed|, i requires 0 <= i < |closed| => ZoneCaptureClosed(closed[i])), r)
  {
  }

  /** No event of a step tells anything but the state the step leads to. */
  lemma OnlyTheTruth(s: State, t: Trigger, zoneCount: int)
    requires Inv(s) && LegalTrigger(s, t)
    ensures forall e | e in Emitted(s, t, zoneCount) :: True(e, After(s, t))
  {
    hide True, OwnerEventsOf, SnapshotOf, Settled;
    var r := After(s, t);
    ReportTrue(s, r);
    match t
    case Socket(_) => RequestTrue(s, t, zoneCount);
    case Broker(_) => RequestTrue(s, t, zoneCount);
    case PromotionTick(_) => BothTrue(OwnerEventsOf(s, r), [SnapshotOf(r)], r);
    case LifecycleTick(closed) =>
      ClosedTrue(closed, r);
      BothTrue(seq(|closed|, i requires 0 <= i < |closed| => ZoneCaptureClosed(closed[i])), [SnapshotOf(r)], r);
    case ProfileEvent =>
  }

  /** A step that changes anything ends in a snapshot of the new state, behind whatever else it says. */
  lemma ChangesAreTold(s: State, t: Trigger, zoneCount: int)
    requires s.Shape() && Accepts(t) && After(s, t) != s
    ensures SnapshotOf(After(s, t)) in Emitted(s, t, zoneCount)
  {
  }

  /** A waiting zone is announced exactly when it is a new one, whatever the step. */
  lemma PendingAnnouncedIff(s: State, t: Trigger, zoneCount: int)
    requires Inv(s) && LegalTrigger(s, t)
    ensures SaysPending(Emitted(s, t, zoneCount)) <==> After(s, t).pending > 0 && After(s, t).pending != s.pending
  {
    var es, r := Emitted(s, t, zoneCount), After(s, t);
    if r.pending > 0 && r.pending != s.pending {
      assert OwnerPending(r.owner, r.pending, r.stack) in es;
    }
  }

  /** A new owner is announced exactly when there is one, unless a join through the broker made it owner. */
  lemma OwnerAnnouncedIff(s: State, t: Trigger, zoneCount: int)
    requires Inv(s) && LegalTrigger(s, t)
    ensures SaysOwner(Emitted(s, t, zoneCount)) <==>
            After(s, t).owner != s.owner && !(t.Broker? && t.request.RouteJoinRequest?)
  {
    var es, r := Emitted(s, t, zoneCount), After(s, t);
    if (t.Socket? || t.Broker?) && t.request.SetZoneEnabledRequest? {
      EnableAndOwner(s, t.request.zone, t.request.on);
    }
    if r.owner != s.owner && !(t.Broker? && t.request.RouteJoinRequest?) {
      assert OwnerChanged(r.owner, Some(r.pending), r.stack) in es || OwnerChanged(r.owner, None, r.stack) in es;
    }
  }

  /** Only one kind of request enables or disables. */
  lemma EnabledKept(s: State, t: Trigger)
    requires s.Shape() && Accepts(t) && !((t.Socket? || t.Broker?) && t.request.SetZoneEnabledRequest?)
    ensures After(s, t).enabled == s.enabled
  {
    hide ModeOf, Pruned, Defers, Drop;
  }

  lemma NoneDisabled(s: State, t: Trigger, zoneCount: int, z: int)
    requires s.Shape() && Accepts(t) && !((t.Socket? || t.Broker?) && t.request.SetZoneEnabledRequest?)
    ensures ZoneDisabled(z) !in Emitted(s, t, zoneCount)
  {
    hide After;
  }

  /** A zone is reported disabled exactly when the step disables it. */
  lemma DisabledAnnouncedIff(s: State, t: Trigger, zoneCount: int, z: int)
    requires s.Shape() && Accepts(t)
    ensures ZoneDisabled(z) in Emitted(s, t, zoneCount) <==> On(s.enabled, z) && !On(After(s, t).enabled, z)
  {
    if (t.Socket? || t.Broker?) && t.request.SetZoneEnabledRequest? {
      hide ModeOf, Drop;
    } else {
      EnabledKept(s, t);
      NoneDisabled(s, t, zoneCount, z);
    }
  }

  /** Each event that carries the stack brings it to the metadata service, unless it is empty. */
  lemma StackIsHeard(m: Mirror, e: Event, r: State)
    requires Inv(r) && True(e, r) && (e.OwnerPending? || e.OwnerChanged? || e.RouterSnapshot?)
    ensures Mirrored(m, e).stack == if r.stack == [] then m.stack else r.stack
  {
    StackPositive(r);
  }

  // --- The list of enabled zones ----------------------------------------------------------

  /** The list names exactly the enabled zones, each once, in rising order. */
  lemma {:induction false} EnabledListIs(enabled: seq<bool>, n: nat)
    requires |enabled| == MAX_ZONES + 1 && n <= MAX_ZONES
    ensures forall z :: z in EnabledList(enabled, n) <==> 1 <= z <= n && enabled[z]
    ensures forall i, j | 0 <= i < j < |EnabledList(enabled, n)| ::
      EnabledList(enabled, n)[i] < EnabledList(enabled, n)[j]
  {
    if n > 0 {
      EnabledListIs(enabled, n - 1);
      var rest := EnabledList(enabled, n - 1);
      forall i | 0 <= i < |rest| ensures rest[i] < n { assert rest[i] in rest; }
    }
  }

  function Zones(s: State): seq<int>
    requires s.Shape()
  {
    EnabledList(s.enabled, MAX_ZONES)
  }

  lemma ZonesPositive(s: State)
    requires s.Shape()
    ensures PositiveOnly(Zones(s)) == Zones(s)
  {
    EnabledListIs(s.enabled, MAX_ZONES);
    forall i | 0 <= i < |Zones(s)| ensures Zones(s)[i] !in (set x | x in Zones(s) && x <= 0) {
      assert Zones(s)[i] in Zones(s);
    }
    DropNothing(Zones(s), set x | x in Zones(s) && x <= 0);
  }

  ghost predicate Follows(m: Mirror, s: State)
    requires s.Shape()
  {
    Zones(s) != [] ==> m.enabledZones == Zones(s)
  }

  /** Events that tell the truth never lead away from the list, and a snapshot brings it. */
  lemma {:induction false} TruthKeepsZones(m: Mirror, es: seq<Event>, r: State)
    requires r.Shape() && AllTrue(es, r)
    ensures Follows(m, r) || SnapshotOf(r) in es ==> Follows(MirrorAll(m, es), r)
    decreases |es|
  {
    if es != [] {
      assert True(es[0], r) && AllTrue(es[1..], r);
      OneEventZones(m, es[0], r);
      TruthKeepsZones(Mirrored(m, es[0]), es[1..], r);
    }
  }

  /** When a step leaves no zone enabled, the old list stays. */
  lemma {:induction false} EmptyListIsKept(m: Mirror, es: seq<Event>, r: State)
    requires r.Shape() && AllTrue(es, r) && Zones(r) == []
    ensures MirrorAll(m, es).enabledZones == m.enabledZones
    decreases |es|
  {
    if es != [] {
      assert True(es[0], r) && AllTrue(es[1..], r);
      EmptyListIsKept(Mirrored(m, es[0]), es[1..], r);
    }
  }

  lemma OneEventZones(m: Mirror, e: Event, r: State)
    requires r.Shape() && True(e, r)
    ensures Follows(m, r) || e == SnapshotOf(r) ==> Follows(Mirrored(m, e), r)
  {
    ZonesPositive(r);
  }

  lemma StepKeepsZones(s: State, t: Trigger, zoneCount: int, m: Mirror)
    requires Inv(s) && LegalTrigger(s, t) && Follows(m, s)
    ensures Follows(MirrorAll(m, Emitted(s, t, zoneCount)), After(s, t))
  {
    hide After, Emitted, MirrorAll;
    OnlyTheTruth(s, t, zoneCount);
    if After(s, t) != s { ChangesAreTold(s, t, zoneCount); }
    TruthKeepsZones(m, Emitted(s, t, zoneCount), After(s, t));
  }

  /**
   After any run the metadata service holds exactly the enabled zones, in rising order, unless none is
   enabled: an empty list never overwrites an old one.
   */
  lemma {:induction false} MirrorHoldsEnabledZones(s: State, ts: seq<Trigger>, zoneCount: int, m: Mirror)
    requires Inv(s) && LegalTriggers(s, ts) && Follows(m, s)
    ensures var r, zones := Ran(s, ts), MirrorAll(m, Heard(s, ts, zoneCount)).enabledZones;
            (exists z :: On(r.enabled, z)) ==>
            (forall z :: z in zones <==> On(r.enabled, z)) && forall i, j | 0 <= i < j < |zones| :: zones[i] < zones[j]
  {
    RunKeepsZones(s, ts, zoneCount, m);
    EnabledListIs(Ran(s, ts).enabled, MAX_ZONES);
    if z :| On(Ran(s, ts).enabled, z) { assert z in Zones(Ran(s, ts)); }
  }

  lemma {:induction false} RunKeepsZones(s: State, ts: seq<Trigger>, zoneCount: int, m: Mirror)
    requires Inv(s) && LegalTriggers(s, ts) && Follows(m, s)
    ensures Follows(MirrorAll(m, Heard(s, ts, zoneCount)), Ran(s, ts))
    decreases |ts|
  {
    hide After, Emitted;
    if ts != [] {
      var es, rest := Emitted(s, ts[0], zoneCount), Heard(After(s, ts[0]), ts[1..], zoneCount);
      StepKeepsZones(s, ts[0], zoneCount, m);
      AfterInv(s, ts[0]);
      MirrorSplit(m, es, rest);
      RunKeepsZones(After(s, ts[0]), ts[1..], zoneCount, MirrorAll(m, es));
    }
  }

  lemma AfterInv(s: State, t: Trigger)
    requires Inv(s) && LegalTrigger(s, t)
    ensures Inv(After(s, t))
  {
    match t
    case Socket(q) => AppliedInv(s, q);
    case Broker(q) => AppliedInv(s, q);
    case PromotionTick(ready) => TryPromoteInv(s, ready);
    case _ =>
  }
}
