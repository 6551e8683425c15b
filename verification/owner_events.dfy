/**
 What the router tells the rest of the house, and what two other processes make of it.

 The backend keeps a cached snapshot and the metadata service keeps the owner zone; both are
 rebuilt from the router's events alone. A request handler is one step here.
 */
module OwnerEvents {
  import opened Lists
  import opened Text
  import opened Routing
  import opened RoutingRuns

  datatype Event =
    // topic modules.pcm.routing
    | OwnerPending(owner: int, pendingOwner: int, stack: seq<int>)
    | OwnerChanged(owner: int, maybePending: Option<int>, stack: seq<int>)
    | ZoneCaptureClosed(zone: int)
    | ZoneDisabled(zone: int)
    // topic modules.pcm.snapshot
    | RouterSnapshot(owner: int, pendingOwner: int, stack: seq<int>, enabledZones: seq<int>)
    // topic modules.pcm
    | RoutingChanged(owner: int, pendingOwner: int, stack: seq<int>, enabledZones: seq<int>)

  datatype Request =
    | RouteStartRequest(zone: int, playback: int, prune: Look, defer: Look, now: int)
    | RouteEndRequest(zone: int, ready: bool)
    | RouteJoinRequest(zone: int)
    | SetRoutingRequest(newOwner: int, zones: seq<int>)
    | SetZoneEnabledRequest(zone: int, on: bool)
    | PrewarmRequest(zone: int)
    | OtherRequest

  /** Where a step comes from: the unix socket, the broker, or the service's own loop. */
  datatype Trigger =
    | Socket(request: Request)
    | Broker(request: Request)
    | PromotionTick(ready: bool)
    | LifecycleTick(closed: seq<int>)
    | ProfileEvent

  // --- The steps --------------------------------------------------------------------------

  /** The enabled zones up to `upTo`, in order. */
  function EnabledList(enabled: seq<bool>, upTo: nat): seq<int>
    requires |enabled| == MAX_ZONES + 1 && upTo <= MAX_ZONES
  {
    if upTo == 0 then []
    else if enabled[upTo] then EnabledList(enabled, upTo - 1) + [upTo]
    else EnabledList(enabled, upTo - 1)
  }

  function SnapshotOf(s: State): Event
    requires s.Shape()
  {
    RouterSnapshot(s.owner, s.pending, s.stack, EnabledList(s.enabled, MAX_ZONES))
  }

  function ChangedOf(s: State): Event
    requires s.Shape()
  {
    RoutingChanged(s.owner, s.pending, s.stack, EnabledList(s.enabled, MAX_ZONES))
  }

  /** `emit_owner_routing_events`: what changed since `before`. */
  function OwnerEventsOf(before: State, after: State): seq<Event> {
    (if after.pending > 0 && after.pending != before.pending
     then [OwnerPending(after.owner, after.pending, after.stack)] else []) +
    (if after.owner != before.owner
     then [OwnerChanged(after.owner, Some(after.pending), after.stack)] else [])
  }

  function ReportOf(before: State, after: State): seq<Event>
    requires after.Shape()
  {
    OwnerEventsOf(before, after) + [SnapshotOf(after), ChangedOf(after)]
  }

  function RouteStart(s: State, q: Request): (t: State)
    requires s.Shape() && q.RouteStartRequest?
    ensures t.Shape()
  {
    match StartSnapshot(s, q.zone)
    case None => s
    case Some(snap) => StartCommit(s, q.zone, snap, q.playback, Probe(q.prune, q.defer), q.now)
  }

  function TryPromote(s: State, ready: bool): (r: (State, bool))
    requires s.Shape()
    ensures r.0.Shape()
  {
    match PromoteSnapshot(s)
    case None => (s, false)
    case Some(z) => if ready then (PromoteCommit(s, z), Promotes(s, z)) else (s, false)
  }

  function PrewarmEvents(s: State, zone: int, zoneCount: int): seq<Event>
    requires s.Shape()
  {
    if 1 <= zone <= zoneCount && On(s.enabled, zone) then [SnapshotOf(s)] else []
  }

  function SetEnabledEvents(s: State, zone: int, on: bool): seq<Event>
    requires s.Shape()
  {
    var (t, change) := SetEnabled(s, zone, on);
    if !change.changed then []
    else if on then [SnapshotOf(t)]
    else [ZoneCaptureClosed(zone), SnapshotOf(t), ZoneDisabled(zone)] +
         if change.ownerChanged then [OwnerChanged(change.newOwner, None, t.stack)] else []
  }

  /** The state a request leads to. */
  function Applied(s: State, q: Request): (t: State)
    requires s.Shape() && (q.SetRoutingRequest? ==> q.newOwner <= MAX_ZONES)
    ensures t.Shape()
  {
    match q
    case RouteStartRequest(_, _, _, _, _) => RouteStart(s, q)
    case RouteEndRequest(zone, ready) => TryPromote(RouteEnd(s, zone), ready).0
    case RouteJoinRequest(zone) => RouteJoin(s, zone)
    case SetRoutingRequest(owner, zones) => SetRouting(s, owner, zones)
    case SetZoneEnabledRequest(zone, on) => SetEnabled(s, zone, on).0
    case _ => s
  }

  predicate Accepts(t: Trigger) {
    match t
    case Socket(SetRoutingRequest(owner, _)) => owner <= MAX_ZONES
    case Broker(SetRoutingRequest(_, _)) => false // the broker handler knows no such event
    case _ => true
  }

  function After(s: State, t: Trigger): (r: State)
    requires s.Shape() && Accepts(t)
    ensures r.Shape()
  {
    match t
    case Socket(q) => Applied(s, q)
    case Broker(q) => Applied(s, q)
    case PromotionTick(ready) => TryPromote(s, ready).0
    case _ => s
  }

  /** The events of one step, in the order they are emitted. */
  function Emitted(s: State, t: Trigger, zoneCount: int): seq<Event>
    requires s.Shape() && Accepts(t)
  {
    var r := After(s, t);
    match t
    case Socket(SetZoneEnabledRequest(zone, on)) => SetEnabledEvents(s, zone, on)
    case Socket(PrewarmRequest(zone)) => PrewarmEvents(s, zone, zoneCount)
    case Socket(RouteJoinRequest(zone)) =>
      PrewarmEvents(r, zone, zoneCount) + ReportOf(s, r)
    case Socket(_) => ReportOf(s, r)
    case Broker(SetZoneEnabledRequest(zone, on)) => SetEnabledEvents(s, zone, on)
    case Broker(PrewarmRequest(zone)) => PrewarmEvents(s, zone, zoneCount)
    case Broker(RouteStartRequest(_, _, _, _, _)) => OwnerEventsOf(s, r) + [SnapshotOf(r)]
    case Broker(RouteEndRequest(_, _)) => ReportOf(s, r)
    case Broker(RouteJoinRequest(zone)) => PrewarmEvents(r, zone, zoneCount) + [SnapshotOf(r)]
    case Broker(_) => []
    case PromotionTick(ready) =>
      if TryPromote(s, ready).1 then OwnerEventsOf(s, r) + [SnapshotOf(r)] else []
    case LifecycleTick(closed) =>
      if closed == [] then []
      else seq(|closed|, i requires 0 <= i < |closed| => ZoneCaptureClosed(closed[i])) + [SnapshotOf(r)]
    case ProfileEvent => [SnapshotOf(r)]
  }

  // --- The service ------------------------------------------------------------------------

  class Service {
    const routing: RoutingState
    const zoneCount: int
    var events: seq<Event>

    constructor (routing: RoutingState, zoneCount: int)
      ensures this.routing == routing && this.zoneCount == zoneCount && events == []
    {
      this.routing, this.zoneCount, events := routing, zoneCount, [];
    }

    method EnabledZones() returns (zones: seq<int>)
      requires routing.Valid()
      ensures zones == EnabledList(routing.View().enabled, MAX_ZONES)
    {
      zones := [];
      ghost var enabled := routing.View().enabled;
      for zone := 1 to MAX_ZONES + 1
        invariant zones == EnabledList(enabled, zone - 1)
      {
        if routing.zoneEnabled[zone] {
          zones := zones + [zone];
        }
      }
    }

    method EmitSnapshot()
      requires routing.Valid()
      modifies this
      ensures events == old(events) + [SnapshotOf(routing.View())]
    {
      var zones := EnabledZones();
      events := events +
        [RouterSnapshot(routing.ownerZoneId, routing.pendingOwnerZoneId, routing.activeStack, zones)];
    }

    method EmitRoutingChanged()
      requires routing.Valid()
      modifies this
      ensures events == old(events) + [ChangedOf(routing.View())]
    {
      var zones := EnabledZones();
      events := events +
        [RoutingChanged(routing.ownerZoneId, routing.pendingOwnerZoneId, routing.activeStack, zones)];
    }

    method EmitOwnerRoutingEvents(ghost before: State, previousOwner: int, previousPending: int)
      requires routing.Valid() && previousOwner == before.owner && previousPending == before.pending
      modifies this
      ensures events == old(events) + OwnerEventsOf(before, routing.View())
    {
      var owner, pending := routing.ownerZoneId, routing.pendingOwnerZoneId;
      if pending > 0 && pending != previousPending {
        events := events + [OwnerPending(owner, pending, routing.activeStack)];
      }
      if owner != previousOwner {
        events := events + [OwnerChanged(owner, Some(pending), routing.activeStack)];
      }
    }

    method ApplySetZoneEnabled(zone: int, on: bool)
      requires routing.Valid()
      modifies this, routing, routing.zoneEnabled, routing.zoneModes
      ensures routing.Valid() && routing.View() == SetEnabled(old(routing.View()), zone, on).0
      ensures events == old(events) + SetEnabledEvents(old(routing.View()), zone, on)
    {
      var change := routing.SetZoneEnabled(zone, on);
      if !change.changed {
        return;
      }
      if !on {
        events := events + [ZoneCaptureClosed(zone)];
      }
      EmitSnapshot();
      if !on {
        events := events + [ZoneDisabled(zone)];
        if change.ownerChanged {
          events := events + [OwnerChanged(change.newOwner, None, routing.activeStack)];
        }
      }
    }

    method HandlePrewarmCapture(zone: int)
      requires routing.Valid()
      modifies this
      ensures events == old(events) + PrewarmEvents(routing.View(), zone, zoneCount)
    {
      if zone < 1 || zone > zoneCount || zone > MAX_ZONES || !routing.zoneEnabled[zone] {
        return;
      }
      EmitSnapshot();
    }

    /** `on_route_start` without interruption. */
    method StartRoute(q: Request)
      requires routing.Valid() && q.RouteStartRequest?
      modifies routing, routing.zoneModes, routing.lastRouteAtMs
      ensures routing.Valid() && routing.View() == RouteStart(old(routing.View()), q)
    {
      var snap := routing.OnRouteStartSnapshot(q.zone);
      if snap.Some? {
        routing.OnRouteStartCommit(q.zone, snap.value, q.playback, Probe(q.prune, q.defer), q.now);
      }
    }

    method PromotePending(ready: bool) returns (promoted: bool)
      requires routing.Valid()
      modifies routing, routing.zoneModes
      ensures routing.Valid() && (routing.View(), promoted) == TryPromote(old(routing.View()), ready)
    {
      var zone := routing.TryPromoteSnapshot();
      if zone.None? || !ready {
        return false;
      }
      promoted := routing.TryPromoteCommit(zone.value);
    }

    method EndRoute(zone: int, ready: bool)
      requires routing.Valid()
      modifies routing, routing.zoneModes
      ensures routing.Valid()
      ensures routing.View() == TryPromote(RouteEnd(old(routing.View()), zone), ready).0
    {
      routing.OnRouteEnd(zone);
      var promoted := PromotePending(ready);
    }

    /** The tail the socket handlers share. */
    method ReportRouting(ghost before: State, previousOwner: int, previousPending: int)
      requires routing.Valid() && previousOwner == before.owner && previousPending == before.pending
      modifies this
      ensures events == old(events) + ReportOf(before, routing.View())
    {
      EmitOwnerRoutingEvents(before, previousOwner, previousPending);
      EmitSnapshot();
      EmitRoutingChanged();
    }

    method ApplySocket(q: Request)
      requires routing.Valid() && Accepts(Socket(q))
      requires q.RouteStartRequest? || q.RouteEndRequest? || q.SetRoutingRequest? || q.OtherRequest?
      modifies routing, routing.zoneModes, routing.lastRouteAtMs
      ensures routing.Valid() && routing.View() == Applied(old(routing.View()), q)
    {
      match q {
        case RouteStartRequest(_, _, _, _, _) => StartRoute(q);
        case RouteEndRequest(zone, ready) => EndRoute(zone, ready);
        case SetRoutingRequest(owner, zones) => routing.SetRoutingTo(owner, zones);
        case OtherRequest =>
      }
    }

    method HandleSocket(q: Request)
      requires routing.Valid() && Accepts(Socket(q))
      modifies this, routing, routing.zoneEnabled, routing.zoneModes, routing.lastRouteAtMs
      ensures routing.Valid() && routing.View() == After(old(routing.View()), Socket(q))
      ensures events == old(events) + Emitted(old(routing.View()), Socket(q), zoneCount)
    {
      ghost var before := routing.View();
      var previousOwner, previousPending := routing.ownerZoneId, routing.pendingOwnerZoneId;
      match q {
        case RouteJoinRequest(zone) =>
          routing.OnRouteJoin(zone);
          HandlePrewarmCapture(zone);
          ReportRouting(before, previousOwner, previousPending);
        case SetZoneEnabledRequest(zone, on) => ApplySetZoneEnabled(zone, on);
        case PrewarmRequest(zone) => HandlePrewarmCapture(zone);
        case _ =>
          ApplySocket(q);
          ReportRouting(before, previousOwner, previousPending);
      }
    }

    method HandleBroker(q: Request)
      requires routing.Valid() && Accepts(Broker(q))
      modifies this, routing, routing.zoneEnabled, routing.zoneModes, routing.lastRouteAtMs
      ensures routing.Valid() && routing.View() == After(old(routing.View()), Broker(q))
      ensures events == old(events) + Emitted(old(routing.View()), Broker(q), zoneCount)
    {
      ghost var before := routing.View();
      var previousOwner, previousPending := routing.ownerZoneId, routing.pendingOwnerZoneId;
      match q {
        case SetZoneEnabledRequest(zone, on) => ApplySetZoneEnabled(zone, on);
        case PrewarmRequest(zone) => HandlePrewarmCapture(zone);
        case RouteStartRequest(_, _, _, _, _) =>
          StartRoute(q);
          EmitOwnerRoutingEvents(before, previousOwner, previousPending);
          EmitSnapshot();
        case RouteEndRequest(zone, ready) =>
          EndRoute(zone, ready);
          ReportRouting(before, previousOwner, previousPending);
        case RouteJoinRequest(zone) =>
          routing.OnRouteJoin(zone);
          HandlePrewarmCapture(zone);
          EmitSnapshot();
        case _ =>
      }
    }

    /** One turn of the promotion loop. */
    method Tick(ready: bool)
      requires routing.Valid()
      modifies this, routing, routing.zoneModes
      ensures routing.Valid() && routing.View() == After(old(routing.View()), PromotionTick(ready))
      ensures events == old(events) + Emitted(old(routing.View()), PromotionTick(ready), zoneCount)
    {
      var previousOwner, previousPending := routing.ownerZoneId, routing.pendingOwnerZoneId;
      var promoted := PromotePending(ready);
      if promoted {
        EmitOwnerRoutingEvents(old(routing.View()), previousOwner, previousPending);
        EmitSnapshot();
      }
    }
  }

  // --- The backend's cache ----------------------------------------------------------------

  datatype Cached = Cached(owner: int, stack: seq<int>, pendingOwner: Option<int>)

  function Ingested(cache: Option<Cached>, e: Event): Option<Cached> {
    var base := if cache.Some? then cache.value else Cached(0, [], None);
    match e
    case RouterSnapshot(owner, pending, stack, _) => Some(Cached(owner, stack, Some(pending)))
    case OwnerChanged(owner, pending, stack) =>
      Some(Cached(owner, stack, if pending.Some? then pending else base.pendingOwner))
    case OwnerPending(owner, pending, stack) => Some(Cached(owner, stack, Some(pending)))
    case RoutingChanged(owner, pending, stack, _) => Some(Cached(owner, stack, Some(pending)))
    case _ => cache
  }

  class SnapshotStore {
    var pcmSnapshot: Option<Cached>

    constructor ()
      ensures pcmSnapshot == None
    {
      pcmSnapshot := None;
    }

    method Ingest(e: Event)
      modifies this
      ensures pcmSnapshot == Ingested(old(pcmSnapshot), e)
    {
      var base := if pcmSnapshot.Some? then pcmSnapshot.value else Cached(0, [], None);
      match e {
        case RouterSnapshot(owner, pending, stack, _) =>
          pcmSnapshot := Some(Cached(owner, stack, Some(pending)));
        case OwnerChanged(owner, maybePending, stack) =>
          pcmSnapshot := Some(base.(owner := owner, stack := stack));
          if maybePending.Some? {
            pcmSnapshot := Some(pcmSnapshot.value.(pendingOwner := maybePending));
          }
        case OwnerPending(owner, pending, stack) =>
          pcmSnapshot := Some(base.(owner := owner, stack := stack, pendingOwner := Some(pending)));
        case RoutingChanged(owner, pending, stack, _) =>
          pcmSnapshot := Some(base.(owner := owner, stack := stack, pendingOwner := Some(pending)));
        case _ =>
      }
    }
  }

  function IngestAll(cache: Option<Cached>, es: seq<Event>): Option<Cached>
    decreases |es|
  {
    if es == [] then cache else IngestAll(Ingested(cache, es[0]), es[1..])
  }

  // --- The metadata service's mirror ------------------------------------------------------

  datatype Mirror = Mirror(owner: int, stack: seq<int>, enabledZones: seq<int>)

  /** Integer arrays are read with non-positive entries left out. */
  function PositiveOnly(s: seq<int>): seq<int> { Drop(s, set x | x in s && x <= 0) }

  function WithLists(m: Mirror, stack: seq<int>, enabledZones: seq<int>): Mirror {
    m.(stack := if stack == [] then m.stack else stack,
       enabledZones := if enabledZones == [] then m.enabledZones else enabledZones)
  }

  /** The metadata service does not subscribe to `modules.pcm`, so `RoutingChanged` never reaches it. */
  function Mirrored(m: Mirror, e: Event): Mirror {
    match e
    case OwnerChanged(owner, _, stack) => WithLists(m, PositiveOnly(stack), []).(owner := owner)
    case OwnerPending(_, _, stack) => WithLists(m, PositiveOnly(stack), [])
    case RouterSnapshot(owner, _, rawStack, zones) =>
      var stack := PositiveOnly(rawStack);
      var n := WithLists(m, stack, PositiveOnly(zones));
      if owner <= 0 && stack == [] then n.(owner := 0)
      else if m.owner <= 0 then n.(owner := if owner > 0 then owner else stack[0])
      else n
    case _ => m
  }

  class OwnerSubscriber {
    var ownerZoneId: int
    var activeStack: seq<int>
    var enabledZones: seq<int>

    ghost function View(): Mirror
      reads this
    {
      Mirror(ownerZoneId, activeStack, enabledZones)
    }

    constructor ()
      ensures View() == Mirror(0, [], [])
    {
      ownerZoneId, activeStack, enabledZones := 0, [], [];
    }

    method ApplyOwnerZone(owner: int, authoritative: bool)
      modifies this`ownerZoneId
      ensures ownerZoneId == if owner == 0 && !authoritative then old(ownerZoneId) else owner
    {
      if owner == 0 && !authoritative {
        return;
      }
      ownerZoneId := owner;
    }

    method ApplyLists(stack: seq<int>, zones: seq<int>)
      modifies this
      ensures View() == WithLists(old(View()), stack, zones)
    {
      if zones != [] {
        enabledZones := zones;
      }
      if stack != [] {
        activeStack := stack;
      }
    }

    method HandleEvent(e: Event)
      modifies this
      ensures View() == Mirrored(old(View()), e)
    {
      match e {
        case OwnerChanged(owner, _, rawStack) =>
          ApplyLists(PositiveOnly(rawStack), []);
          ApplyOwnerZone(owner, true);
        case OwnerPending(_, _, rawStack) =>
          ApplyLists(PositiveOnly(rawStack), []);
        case RouterSnapshot(owner, _, rawStack, zones) =>
          var stack := PositiveOnly(rawStack);
          ApplyLists(stack, PositiveOnly(zones));
          if owner <= 0 && stack == [] {
            ApplyOwnerZone(0, true);
            return;
          }
          if ownerZoneId <= 0 {
            var bootstrapOwner := if owner > 0 then owner else stack[0];
            assert stack != [] ==> stack[0] in stack;
            if bootstrapOwner > 0 {
              ApplyOwnerZone(bootstrapOwner, false);
            }
          }
        case _ =>
      }
    }
  }

  function MirrorAll(m: Mirror, es: seq<Event>): Mirror
    decreases |es|
  {
    if es == [] then m else MirrorAll(Mirrored(m, es[0]), es[1..])
  }

  // --- Agreement --------------------------------------------------------------------------

  ghost predicate Agree(s: State, cache: Option<Cached>, m: Mirror) {
    cache == Some(Cached(s.owner, s.stack, Some(s.pending))) && m.owner == s.owner
  }

  /** Disabling a zone changes the owner only by disabling the owner; enabling never changes it. */
  lemma EnableAndOwner(s: State, z: int, on: bool)
    requires Inv(s)
    ensures var (t, change) := SetEnabled(s, z, on);
            (t.owner != s.owner ==> !on && s.owner == z && change.ownerChanged && change.newOwner == t.owner) &&
            (change.ownerChanged ==> t.owner != s.owner)
  {
  }

  lemma StackPositive(s: State)
    requires Inv(s)
    ensures PositiveOnly(s.stack) == s.stack
    ensures s.owner == 0 <==> s.stack == [] && s.handoff == 0
  {
    forall i | 0 <= i < |s.stack| ensures s.stack[i] !in (set x | x in s.stack && x <= 0) {
      assert s.stack[i] in s.stack;
    }
    DropNothing(s.stack, set x | x in s.stack && x <= 0);
  }

  lemma {:induction false} IngestSplit(cache: Option<Cached>, a: seq<Event>, b: seq<Event>)
    ensures IngestAll(cache, a + b) == IngestAll(IngestAll(cache, a), b)
    decreases |a|
  {
    if a == [] {
      assert a + b == b;
    } else {
      assert (a + b)[1..] == a[1..] + b;
      IngestSplit(Ingested(cache, a[0]), a[1..], b);
    }
  }

  lemma {:induction false} MirrorSplit(m: Mirror, a: seq<Event>, b: seq<Event>)
    ensures MirrorAll(m, a + b) == MirrorAll(MirrorAll(m, a), b)
    decreases |a|
  {
    if a == [] {
      assert a + b == b;
    } else {
      assert (a + b)[1..] == a[1..] + b;
      MirrorSplit(Mirrored(m, a[0]), a[1..], b);
    }
  }

  /** A snapshot brings both caches up to date when the mirror has the owner already, or none. */
  lemma SnapshotAgrees(s: State, cache: Option<Cached>, m: Mirror)
    requires Inv(s) && (m.owner == s.owner || m.owner == 0)
    ensures Agree(s, Ingested(cache, SnapshotOf(s)), Mirrored(m, SnapshotOf(s)))
    ensures s.stack != [] ==> Mirrored(m, SnapshotOf(s)).stack == s.stack
    ensures s.stack == [] ==> Mirrored(m, SnapshotOf(s)).stack == m.stack
  {
    StackPositive(s);
    assert s.stack != [] ==> s.stack[0] in s.stack;
  }

  /** The owner events carry the mirror from the old owner to the new one. */
  lemma OwnerEventsMirror(before: State, after: State, m: Mirror)
    requires Inv(after) && m.owner == before.owner
    ensures var n := MirrorAll(m, OwnerEventsOf(before, after));
            n.owner == after.owner && (n.stack == m.stack || (after.stack != [] && n.stack == after.stack))
  {
    StackPositive(after);
    var p := if after.pending > 0 && after.pending != before.pending
             then [OwnerPending(after.owner, after.pending, after.stack)] else [];
    var c := if after.owner != before.owner
             then [OwnerChanged(after.owner, Some(after.pending), after.stack)] else [];
    MirrorSplit(m, p, c);
    MirrorOne(m, p);
    MirrorOne(MirrorAll(m, p), c);
  }

  lemma MirrorOne(m: Mirror, es: seq<Event>)
    ensures es == [] ==> MirrorAll(m, es) == m
    ensures |es| == 1 ==> MirrorAll(m, es) == Mirrored(m, es[0])
  {
  }

  lemma IngestOne(cache: Option<Cached>, es: seq<Event>)
    ensures es == [] ==> IngestAll(cache, es) == cache
    ensures |es| == 1 ==> IngestAll(cache, es) == Ingested(cache, es[0])
  {
  }

  /** The mirror's stack is current unless the router's is empty: an empty list never overwrites it. */
  ghost predicate Reached(s: State, m: Mirror, cache: Option<Cached>, n: Mirror) {
    Agree(s, cache, n) && n.stack == if s.stack != [] then s.stack else m.stack
  }

  /** A list of events that ends in a snapshot of `s`. */
  lemma EndsInSnapshot(s: State, es: seq<Event>, cache: Option<Cached>, m: Mirror)
    requires Inv(s)
    requires var n := MirrorAll(m, es);
             (n.owner == s.owner || n.owner == 0) &&
             (n.stack == m.stack || (s.stack != [] && n.stack == s.stack))
    ensures Reached(s, m, IngestAll(cache, es + [SnapshotOf(s)]), MirrorAll(m, es + [SnapshotOf(s)]))
  {
    IngestSplit(cache, es, [SnapshotOf(s)]);
    MirrorSplit(m, es, [SnapshotOf(s)]);
    IngestOne(IngestAll(cache, es), [SnapshotOf(s)]);
    MirrorOne(MirrorAll(m, es), [SnapshotOf(s)]);
    SnapshotAgrees(s, IngestAll(cache, es), MirrorAll(m, es));
  }

  /** A routing-changed event repeats the snapshot and does not reach the mirror. */
  lemma EndsInChanged(s: State, es: seq<Event>, cache: Option<Cached>, m: Mirror)
    requires Reached(s, m, IngestAll(cache, es), MirrorAll(m, es)) && s.Shape()
    ensures Reached(s, m, IngestAll(cache, es + [ChangedOf(s)]), MirrorAll(m, es + [ChangedOf(s)]))
  {
    IngestSplit(cache, es, [ChangedOf(s)]);
    MirrorSplit(m, es, [ChangedOf(s)]);
    IngestOne(IngestAll(cache, es), [ChangedOf(s)]);
    MirrorOne(MirrorAll(m, es), [ChangedOf(s)]);
  }

  lemma OwnerThenSnapshot(before: State, after: State, cache: Option<Cached>, m: Mirror)
    requires Inv(after) && m.owner == before.owner
    ensures var es := OwnerEventsOf(before, after) + [SnapshotOf(after)];
            Reached(after, m, IngestAll(cache, es), MirrorAll(m, es))
  {
    OwnerEventsMirror(before, after, m);
    EndsInSnapshot(after, OwnerEventsOf(before, after), cache, m);
  }

  lemma ReportReaches(before: State, after: State, cache: Option<Cached>, m: Mirror)
    requires Inv(after) && m.owner == before.owner
    ensures Reached(after, m, IngestAll(cache, ReportOf(before, after)), MirrorAll(m, ReportOf(before, after)))
  {
    var es := OwnerEventsOf(before, after) + [SnapshotOf(after)];
    OwnerThenSnapshot(before, after, cache, m);
    EndsInChanged(after, es, cache, m);
    assert ReportOf(before, after) == es + [ChangedOf(after)];
  }

  /** A join can only fill an empty router. */
  lemma JoinOwner(s: State, z: int)
    requires Inv(s)
    ensures Inv(RouteJoin(s, z)) && (RouteJoin(s, z).owner == s.owner || s.owner == 0)
  {
  }

  lemma PrewarmReaches(s: State, before: State, z: int, zoneCount: int, cache: Option<Cached>, m: Mirror)
    requires Inv(s) && m.owner == before.owner && (s.owner == before.owner || before.owner == 0)
    ensures var es := PrewarmEvents(s, z, zoneCount);
            (es == [] || Reached(s, m, IngestAll(cache, es), MirrorAll(m, es)))
  {
    assert [] + [SnapshotOf(s)] == [SnapshotOf(s)];
    EndsInSnapshot(s, [], cache, m);
  }

  lemma SetEnabledReaches(s: State, z: int, on: bool, cache: Option<Cached>, m: Mirror)
    requires Inv(s) && Agree(s, cache, m)
    ensures var (t, change) := SetEnabled(s, z, on);
            var es := SetEnabledEvents(s, z, on);
            if change.changed then Reached(t, m, IngestAll(cache, es), MirrorAll(m, es)) else t == s && es == []
  {
    var (t, change) := SetEnabled(s, z, on);
    SetEnabledInv(s, z, on);
    EnableAndOwner(s, z, on);
    StackPositive(t);
    if change.changed && on {
      assert [] + [SnapshotOf(t)] == [SnapshotOf(t)];
      EndsInSnapshot(t, [], cache, m);
    } else if change.changed {
      DisabledReaches(t, z, change, cache, m);
    }
  }

  lemma DisabledReaches(t: State, z: int, change: ZoneChange, cache: Option<Cached>, m: Mirror)
    requires Inv(t) && (change.ownerChanged || m.owner == t.owner)
    requires change.ownerChanged ==> change.newOwner == t.owner
    ensures var tail := if change.ownerChanged then [OwnerChanged(change.newOwner, None, t.stack)] else [];
            var es := [ZoneCaptureClosed(z), SnapshotOf(t), ZoneDisabled(z)] + tail;
            Reached(t, m, IngestAll(cache, es), MirrorAll(m, es))
  {
    var tail := if change.ownerChanged then [OwnerChanged(change.newOwner, None, t.stack)] else [];
    var three := [ZoneCaptureClosed(z), SnapshotOf(t), ZoneDisabled(z)];
    StackPositive(t);
    IngestSplit(cache, three, tail);
    MirrorSplit(m, three, tail);
    IngestOne(IngestAll(cache, three), tail);
    MirrorOne(MirrorAll(m, three), tail);
    assert three[1..] == [SnapshotOf(t), ZoneDisabled(z)];
    assert three[1..][1..] == [ZoneDisabled(z)];
    IngestOne(Ingested(cache, SnapshotOf(t)), [ZoneDisabled(z)]);
    MirrorOne(Mirrored(m, SnapshotOf(t)), [ZoneDisabled(z)]);
    assert IngestAll(cache, three) == Ingested(cache, SnapshotOf(t));
    assert MirrorAll(m, three) == Mirrored(m, SnapshotOf(t));
    assert t.stack != [] ==> t.stack[0] in t.stack;
  }

  ghost predicate LegalTrigger(s: State, t: Trigger)
    requires s.Shape()
  {
    Accepts(t) &&
    (t.Socket? && t.request.SetRoutingRequest? ==> RequestDupFree(s, t.request.newOwner, t.request.zones))
  }

  lemma TryPromoteInv(s: State, ready: bool)
    requires Inv(s)
    ensures Inv(TryPromote(s, ready).0)
  {
  }

  lemma AppliedInv(s: State, q: Request)
    requires Inv(s)
    requires q.SetRoutingRequest? ==> q.newOwner <= MAX_ZONES && RequestDupFree(s, q.newOwner, q.zones)
    ensures Inv(Applied(s, q))
  {
    match q
    case RouteStartRequest(z, playback, prune, defer, now) =>
      if On(s.enabled, z) {
        StartCommitInv(s, z, Snapshot(s.owner, s.routedAt), playback, Probe(prune, defer), now);
      }
    case RouteEndRequest(z, ready) =>
      RouteEndInv(s, z);
      TryPromoteInv(RouteEnd(s, z), ready);
    case RouteJoinRequest(z) => RouteJoinInv(s, z);
    case SetRoutingRequest(owner, zones) => SetRoutingInvIff(s, owner, zones);
    case SetZoneEnabledRequest(z, on) => SetEnabledInv(s, z, on);
    case _ =>
  }

  lemma {:induction false} ClosedOnly(m: Mirror, closed: seq<int>)
    ensures MirrorAll(m, seq(|closed|, i requires 0 <= i < |closed| => ZoneCaptureClosed(closed[i]))) == m
    decreases |closed|
  {
    if closed != [] {
      ClosedOnly(m, closed[1..]);
      assert seq(|closed|, i requires 0 <= i < |closed| => ZoneCaptureClosed(closed[i]))[1..] ==
             seq(|closed[1..]|, i requires 0 <= i < |closed[1..]| => ZoneCaptureClosed(closed[1..][i]));
    }
  }

  /** Whatever one step does, its events bring both caches to the state it leads to. */
  ghost predicate StepReaches(s: State, t: Trigger, zoneCount: int, cache: Option<Cached>, m: Mirror)
    requires s.Shape() && Accepts(t)
  {
    var r, es := After(s, t), Emitted(s, t, zoneCount);
    Inv(r) && (if es == [] then r.stack == s.stack && Agree(r, cache, m)
               else Reached(r, m, IngestAll(cache, es), MirrorAll(m, es)))
  }

  lemma JoinReaches(s: State, z: int, zoneCount: int, cache: Option<Cached>, m: Mirror, broker: bool)
    requires Inv(s) && Agree(s, cache, m)
    ensures StepReaches(s, if broker then Broker(RouteJoinRequest(z)) else Socket(RouteJoinRequest(z)),
                        zoneCount, cache, m)
  {
    var r := RouteJoin(s, z);
    JoinOwner(s, z);
    var pre := PrewarmEvents(r, z, zoneCount);
    PrewarmReaches(r, s, z, zoneCount, cache, m);
    var cache', m' := IngestAll(cache, pre), MirrorAll(m, pre);
    if broker {
      EndsInSnapshot(r, pre, cache, m);
    } else {
      var tail := OwnerEventsOf(s, r) + [SnapshotOf(r)];
      IngestSplit(cache, pre, ReportOf(s, r));
      MirrorSplit(m, pre, ReportOf(s, r));
      if pre == [] {
        ReportReaches(s, r, cache, m);
      } else {
        ReportAgain(s, r, cache', m');
      }
    }
  }

  /** Reporting twice does no harm. */
  lemma ReportAgain(before: State, after: State, cache: Option<Cached>, m: Mirror)
    requires Inv(after) && Agree(after, cache, m)
    ensures Reached(after, m, IngestAll(cache, ReportOf(before, after)), MirrorAll(m, ReportOf(before, after)))
  {
    StackPositive(after);
    var p := if after.pending > 0 && after.pending != before.pending
             then [OwnerPending(after.owner, after.pending, after.stack)] else [];
    var c := if after.owner != before.owner
             then [OwnerChanged(after.owner, Some(after.pending), after.stack)] else [];
    MirrorSplit(m, p, c);
    MirrorOne(m, p);
    MirrorOne(MirrorAll(m, p), c);
    var es := OwnerEventsOf(before, after);
    EndsInSnapshot(after, es, cache, m);
    EndsInChanged(after, es + [SnapshotOf(after)], cache, m);
    assert ReportOf(before, after) == es + [SnapshotOf(after)] + [ChangedOf(after)];
  }

  /** Requests that are answered by a report of what changed. */
  lemma ReportedReaches(s: State, t: Trigger, zoneCount: int, cache: Option<Cached>, m: Mirror)
    requires Inv(s) && Agree(s, cache, m) && LegalTrigger(s, t) && (t.Socket? || t.Broker?)
    requires !t.request.SetZoneEnabledRequest? && !t.request.PrewarmRequest? && !t.request.RouteJoinRequest?
    ensures StepReaches(s, t, zoneCount, cache, m)
  {
    var r := Applied(s, t.request);
    AppliedInv(s, t.request);
    ReportReaches(s, r, cache, m);
    OwnerThenSnapshot(s, r, cache, m);
  }

  lemma RequestReaches(s: State, t: Trigger, zoneCount: int, cache: Option<Cached>, m: Mirror)
    requires Inv(s) && Agree(s, cache, m) && LegalTrigger(s, t) && (t.Socket? || t.Broker?)
    ensures StepReaches(s, t, zoneCount, cache, m)
  {
    match t.request
    case SetZoneEnabledRequest(z, on) =>
      SetEnabledInv(s, z, on);
      SetEnabledReaches(s, z, on, cache, m);
    case PrewarmRequest(z) => PrewarmReaches(s, s, z, zoneCount, cache, m);
    case RouteJoinRequest(z) => JoinReaches(s, z, zoneCount, cache, m, t.Broker?);
    case _ => ReportedReaches(s, t, zoneCount, cache, m);
  }

  lemma StepAgrees(s: State, t: Trigger, zoneCount: int, cache: Option<Cached>, m: Mirror)
    requires Inv(s) && Agree(s, cache, m) && LegalTrigger(s, t)
    ensures StepReaches(s, t, zoneCount, cache, m)
  {
    match t
    case PromotionTick(ready) =>
      TryPromoteInv(s, ready);
      OwnerThenSnapshot(s, After(s, t), cache, m);
    case LifecycleTick(closed) =>
      ClosedOnly(m, closed);
      EndsInSnapshot(s, seq(|closed|, i requires 0 <= i < |closed| => ZoneCaptureClosed(closed[i])), cache, m);
    case ProfileEvent =>
      assert [] + [SnapshotOf(s)] == [SnapshotOf(s)];
      EndsInSnapshot(s, [], cache, m);
    case _ => RequestReaches(s, t, zoneCount, cache, m);
  }

  /** The metadata service's stack goes stale exactly when a step empties the router's. */
  lemma MirrorStackIff(s: State, t: Trigger, zoneCount: int, cache: Option<Cached>, m: Mirror)
    requires Inv(s) && Agree(s, cache, m) && LegalTrigger(s, t) && m.stack == s.stack
    ensures var r := After(s, t);
            MirrorAll(m, Emitted(s, t, zoneCount)).stack == r.stack <==> (r.stack != [] || s.stack == [])
  {
    StepAgrees(s, t, zoneCount, cache, m);
  }

  ghost predicate LegalTriggers(s: State, ts: seq<Trigger>)
    requires s.Shape()
    decreases |ts|
  {
    ts == [] || (LegalTrigger(s, ts[0]) && LegalTriggers(After(s, ts[0]), ts[1..]))
  }

  ghost function Ran(s: State, ts: seq<Trigger>): (r: State)
    requires s.Shape() && LegalTriggers(s, ts)
    ensures r.Shape()
    decreases |ts|
  {
    if ts == [] then s else Ran(After(s, ts[0]), ts[1..])
  }

  ghost function Heard(s: State, ts: seq<Trigger>, zoneCount: int): seq<Event>
    requires s.Shape() && LegalTriggers(s, ts)
    decreases |ts|
  {
    if ts == [] then [] else Emitted(s, ts[0], zoneCount) + Heard(After(s, ts[0]), ts[1..], zoneCount)
  }

  /** After any run, whoever folded all its events agrees with the router. */
  lemma {:induction false} CachesFollowRouter(s: State, ts: seq<Trigger>, zoneCount: int,
                                              cache: Option<Cached>, m: Mirror)
    requires Inv(s) && Agree(s, cache, m) && LegalTriggers(s, ts)
    ensures var es := Heard(s, ts, zoneCount);
            Agree(Ran(s, ts), IngestAll(cache, es), MirrorAll(m, es))
    decreases |ts|
  {
    if ts != [] {
      var es, rest := Emitted(s, ts[0], zoneCount), Heard(After(s, ts[0]), ts[1..], zoneCount);
      StepAgrees(s, ts[0], zoneCount, cache, m);
      IngestSplit(cache, es, rest);
      MirrorSplit(m, es, rest);
      CachesFollowRouter(After(s, ts[0]), ts[1..], zoneCount, IngestAll(cache, es), MirrorAll(m, es));
    }
  }

  /** The start-up snapshot is where agreement begins. */
  lemma StartupAgrees(mask: seq<bool>)
    requires |mask| == MAX_ZONES + 1
    ensures var s := LoadMask(InitialState(), mask);
            Inv(s) && Agree(s, IngestAll(None, [SnapshotOf(s)]), MirrorAll(Mirror(0, [], []), [SnapshotOf(s)]))
  {
  }
}
