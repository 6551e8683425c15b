/**
 The PCM router's ownership state: which of sixteen AirPlay zones feeds the DAC.

 `State` and the functions over it specify each critical section of `RoutingState`; the class at
 the end of the module keeps the fields the service keeps and is proved against them.
 */
module Routing {
  import opened Lists
  import opened Text

  const MAX_ZONES := 16
  const LIVE_PCM_ACTIVE_MS := 500

  datatype Mode = Off | Drain | Buffer | Disabled

  /** The router's fields; the three tables are indexed by zone and slot 0 is unused. */
  datatype State = State(
    stack: seq<int>,
    owner: int,
    pending: int,
    handoff: int,
    enabled: seq<bool>,
    modes: seq<Mode>,
    routedAt: seq<int>)
  {
    ghost predicate Shape() {
      |enabled| == |modes| == |routedAt| == MAX_ZONES + 1
    }
  }

  predicate IsZone(z: int) { 1 <= z <= MAX_ZONES }

  predicate On(enabled: seq<bool>, z: int)
    requires |enabled| == MAX_ZONES + 1
  {
    IsZone(z) && enabled[z]
  }

  function Push(s: seq<int>, z: int): seq<int> { [z] + Drop(s, {z}) }

  function Front(s: seq<int>): int { if s == [] then 0 else s[0] }

  // --- Derived fields ---------------------------------------------------------------------

  /** What the capture worker of zone `z` must do. */
  function ModeOf(s: State, z: int): Mode
    requires s.Shape() && 0 <= z <= MAX_ZONES
  {
    if z == 0 then Drain
    else if !s.enabled[z] then Disabled
    else if z in s.stack || z == s.handoff || z == s.pending then Buffer
    else Drain
  }

  /** The modes when the zones of `stack` have been marked, and no others. */
  function StackModes(enabled: seq<bool>, stack: seq<int>): (modes: seq<Mode>)
    requires |enabled| == MAX_ZONES + 1
    ensures |modes| == MAX_ZONES + 1
  {
    seq(MAX_ZONES + 1, z requires 0 <= z <= MAX_ZONES =>
      if z == 0 then Drain else if !enabled[z] then Disabled else if z in stack then Buffer else Drain)
  }

  /** What `mark_buffer` makes of the table. */
  function Marked(modes: seq<Mode>, enabled: seq<bool>, z: int): (r: seq<Mode>)
    requires |modes| == |enabled| == MAX_ZONES + 1
    ensures |r| == MAX_ZONES + 1
  {
    if On(enabled, z) then modes[z := Buffer] else modes
  }

  function OwnerOf(s: State): int {
    if s.handoff > 0 then s.handoff else Front(s.stack)
  }

  /** The state with its derived fields brought up to date. */
  function Settled(s: State): (t: State)
    requires s.Shape()
    ensures t.Shape()
  {
    s.(modes := seq(MAX_ZONES + 1, z requires 0 <= z <= MAX_ZONES => ModeOf(s, z)), owner := OwnerOf(s))
  }

  lemma MarkedStack(enabled: seq<bool>, stack: seq<int>, z: int)
    requires |enabled| == MAX_ZONES + 1
    ensures Marked(StackModes(enabled, stack), enabled, z) == StackModes(enabled, stack + [z])
  {
  }

  /** The passes over the table come to the derived modes. */
  lemma MarkedAll(s: State)
    requires s.Shape()
    ensures var modes := Marked(StackModes(s.enabled, s.stack), s.enabled, s.handoff);
            (if s.pending > 0 then Marked(modes, s.enabled, s.pending) else modes) == Settled(s).modes
  {
  }

  // --- The critical sections --------------------------------------------------------------

  function LoadMask(s: State, mask: seq<bool>): (t: State)
    requires s.Shape() && |mask| == MAX_ZONES + 1
    ensures t.Shape()
  {
    Settled(s.(
      enabled := mask,
      stack := Drop(s.stack, set z | z in s.stack && !On(mask, z)),
      pending := if s.pending > 0 && !On(mask, s.pending) then 0 else s.pending))
  }

  datatype ZoneChange = ZoneChange(changed: bool, ownerChanged: bool, previousOwner: int, newOwner: int)

  const NO_CHANGE := ZoneChange(false, false, 0, 0)

  function SetEnabled(s: State, z: int, on: bool): (r: (State, ZoneChange))
    requires s.Shape()
    ensures r.0.Shape()
  {
    if !IsZone(z) || s.enabled[z] == on then (s, NO_CHANGE)
    else if on then (Settled(s.(enabled := s.enabled[z := true])), ZoneChange(true, false, 0, 0))
    else
      var t := Settled(s.(
        enabled := s.enabled[z := false],
        stack := Drop(s.stack, {z}),
        pending := if s.pending == z then 0 else s.pending));
      (t, if s.owner == z && t.owner != s.owner
          then ZoneChange(true, true, s.owner, t.owner)
          else ZoneChange(true, false, 0, 0))
  }

  /** The part of a requested stack that names enabled zones. */
  function EnabledOnly(s: State, zones: seq<int>): seq<int>
    requires s.Shape()
  {
    Drop(zones, set z | z in zones && !On(s.enabled, z))
  }

  function SetRouting(s: State, owner: int, zones: seq<int>): (t: State)
    requires s.Shape() && owner <= MAX_ZONES
    ensures t.Shape()
  {
    var kept := EnabledOnly(s, zones);
    Settled(s.(stack := if On(s.enabled, owner) then Push(kept, owner) else kept))
  }

  /** What `on_route_start` copies before it lets go of the lock. */
  datatype Snapshot = Snapshot(owner: int, routedAt: seq<int>)

  /** One look at the outside world: the zones with live PCM, and the clock. */
  datatype Look = Look(live: set<int>, now: int)

  /** The activity callback's answers while pruning and, later, while choosing to defer. */
  datatype Probe = NoProbe | Probe(prune: Look, defer: Look)

  predicate SessionActive(snap: Snapshot, look: Look, z: int)
    requires |snap.routedAt| == MAX_ZONES + 1
  {
    z in look.live ||
    (IsZone(z) && snap.routedAt[z] > 0 && look.now - snap.routedAt[z] <= LIVE_PCM_ACTIVE_MS)
  }

  function StartSnapshot(s: State, z: int): Option<Snapshot>
    requires s.Shape()
  {
    if On(s.enabled, z) then Some(Snapshot(s.owner, s.routedAt)) else None
  }

  /** The stack once sessions without live audio are forgotten. */
  function Pruned(s: State, z: int, snap: Snapshot, probe: Probe): seq<int>
    requires s.Shape() && |snap.routedAt| == MAX_ZONES + 1
  {
    match probe
    case NoProbe => s.stack
    case Probe(look, _) =>
      if snap.owner > 0 && snap.owner != z && !SessionActive(snap, look, snap.owner) then []
      else Drop(s.stack, set x | x in s.stack && x != z && x != snap.owner && !SessionActive(snap, look, x))
  }

  /** The zone a newcomer has to wait for, 0 when there is none. */
  function DeferSource(stack: seq<int>, snap: Snapshot, playback: int): int {
    if playback > 0 then playback else if snap.owner > 0 then snap.owner else Front(stack)
  }

  predicate Defers(stack: seq<int>, z: int, snap: Snapshot, playback: int, probe: Probe)
    requires |snap.routedAt| == MAX_ZONES + 1
  {
    var source := DeferSource(stack, snap, playback);
    probe.Probe? && source > 0 && source != z && SessionActive(snap, probe.defer, source)
  }

  function StartCommit(s: State, z: int, snap: Snapshot, playback: int, probe: Probe, now: int): (t: State)
    requires s.Shape() && IsZone(z) && |snap.routedAt| == MAX_ZONES + 1
    ensures t.Shape()
  {
    if !s.enabled[z] then s
    else
      var stack := Pruned(s, z, snap, probe);
      Entered(s.(stack := stack), z, Defers(stack, z, snap, playback, probe), now)
  }

  function Entered(s: State, z: int, defers: bool, now: int): (t: State)
    requires s.Shape() && IsZone(z)
    ensures t.Shape()
  {
    var stamped := s.(routedAt := s.routedAt[z := now], handoff := 0);
    if defers
    then Settled(stamped.(stack := if z in s.stack then s.stack else s.stack + [z], pending := z))
    else Settled(stamped.(stack := Push(s.stack, z), pending := 0))
  }

  function PromoteSnapshot(s: State): Option<int>
    requires s.Shape()
  {
    if On(s.enabled, s.pending) then Some(s.pending) else None
  }

  /** Whether the second critical section of a promotion of `z` still applies. */
  predicate Promotes(s: State, z: int)
    requires s.Shape()
  {
    s.pending == z && On(s.enabled, z)
  }

  function PromoteCommit(s: State, z: int): (t: State)
    requires s.Shape()
    ensures t.Shape()
  {
    if Promotes(s, z) then Settled(s.(stack := Push(s.stack, z), pending := 0, handoff := 0)) else s
  }

  function RouteEnd(s: State, z: int): (t: State)
    requires s.Shape()
    ensures t.Shape()
  {
    if !On(s.enabled, z) then s
    else
      var stack := Drop(s.stack, {z});
      if s.owner == z || s.handoff == z then
        if stack != [] then Settled(s.(stack := stack, pending := stack[0], handoff := z))
        else Settled(s.(stack := stack, pending := 0, handoff := 0))
      else Settled(s.(stack := stack, pending := if s.pending == z then 0 else s.pending))
  }

  function RouteJoin(s: State, z: int): (t: State)
    requires s.Shape()
    ensures t.Shape()
  {
    if !On(s.enabled, z) then s
    else Settled(s.(stack := if z in s.stack then s.stack else s.stack + [z]))
  }

  function MarkRouted(s: State, z: int, now: int): (t: State)
    requires s.Shape()
    ensures t.Shape()
  {
    if IsZone(z) then s.(routedAt := s.routedAt[z := now]) else s
  }

  // --- The class --------------------------------------------------------------------------

  class RoutingState {
    var activeStack: seq<int>
    var ownerZoneId: int
    var pendingOwnerZoneId: int
    var handoffOwnerZoneId: int
    const zoneEnabled: array<bool>
    const zoneModes: array<Mode>
    const lastRouteAtMs: array<int>

    ghost predicate Valid()
      reads this
    {
      zoneEnabled.Length == zoneModes.Length == lastRouteAtMs.Length == MAX_ZONES + 1
    }

    ghost function View(): (s: State)
      requires Valid()
      reads this, zoneEnabled, zoneModes, lastRouteAtMs
      ensures s.Shape()
    {
      State(activeStack, ownerZoneId, pendingOwnerZoneId, handoffOwnerZoneId,
            zoneEnabled[..], zoneModes[..], lastRouteAtMs[..])
    }

    constructor ()
      ensures Valid() && fresh(zoneEnabled) && fresh(zoneModes) && fresh(lastRouteAtMs)
      ensures View() == InitialState()
    {
      activeStack, ownerZoneId, pendingOwnerZoneId, handoffOwnerZoneId := [], 0, 0, 0;
      zoneEnabled := new bool[MAX_ZONES + 1](_ => false);
      zoneModes := new Mode[MAX_ZONES + 1](_ => Off);
      lastRouteAtMs := new int[MAX_ZONES + 1](_ => 0);
      new;
      assert zoneEnabled[..] == seq(MAX_ZONES + 1, _ => false);
      assert zoneModes[..] == seq(MAX_ZONES + 1, _ => Off);
      assert lastRouteAtMs[..] == seq(MAX_ZONES + 1, _ => 0);
    }

    method MarkBuffer(z: int)
      requires Valid()
      modifies zoneModes
      ensures zoneModes[..] == Marked(old(zoneModes[..]), zoneEnabled[..], z)
    {
      if 1 <= z <= MAX_ZONES && zoneEnabled[z] {
        zoneModes[z] := Buffer;
      }
    }

    method RecomputeModes()
      requires Valid()
      modifies this`ownerZoneId, zoneModes
      ensures View() == Settled(old(View()))
    {
      ghost var enabled := zoneEnabled[..];
      for i := 0 to MAX_ZONES + 1
        invariant forall z | 0 <= z < i :: zoneModes[z] == Drain
      {
        zoneModes[i] := Drain;
      }
      for i := 1 to MAX_ZONES + 1
        invariant forall z | 0 <= z < i :: zoneModes[z] == if z > 0 && !enabled[z] then Disabled else Drain
        invariant forall z | i <= z <= MAX_ZONES :: zoneModes[z] == Drain
      {
        if !zoneEnabled[i] {
          zoneModes[i] := Disabled;
        }
      }
      assert zoneModes[..] == StackModes(enabled, activeStack[..0]);
      for i := 0 to |activeStack|
        invariant zoneModes[..] == StackModes(enabled, activeStack[..i])
      {
        assert activeStack[..i + 1] == activeStack[..i] + [activeStack[i]];
        MarkedStack(enabled, activeStack[..i], activeStack[i]);
        MarkBuffer(activeStack[i]);
      }
      assert activeStack[..|activeStack|] == activeStack;
      MarkBuffer(handoffOwnerZoneId);
      if pendingOwnerZoneId > 0 {
        MarkBuffer(pendingOwnerZoneId);
      }
      if handoffOwnerZoneId > 0 {
        ownerZoneId := handoffOwnerZoneId;
      } else {
        ownerZoneId := if activeStack == [] then 0 else activeStack[0];
      }
      MarkedAll(old(View()));
    }

    method LoadEnabledMask(mask: seq<bool>)
      requires Valid() && |mask| == MAX_ZONES + 1
      modifies this, zoneEnabled, zoneModes
      ensures Valid() && View() == LoadMask(old(View()), mask)
    {
      forall i | 0 <= i <= MAX_ZONES {
        zoneEnabled[i] := mask[i];
      }
      assert zoneEnabled[..] == mask;
      activeStack := Drop(activeStack, set z | z in activeStack && !On(mask, z));
      if pendingOwnerZoneId > 0 && (pendingOwnerZoneId > MAX_ZONES || !zoneEnabled[pendingOwnerZoneId]) {
        pendingOwnerZoneId := 0;
      }
      RecomputeModes();
    }

    method SetZoneEnabled(zone: int, on: bool) returns (r: ZoneChange)
      requires Valid()
      modifies this, zoneEnabled, zoneModes
      ensures Valid() && (View(), r) == SetEnabled(old(View()), zone, on)
    {
      r := NO_CHANGE;
      if zone < 1 || zone > MAX_ZONES || zoneEnabled[zone] == on {
        return;
      }
      r := ZoneChange(true, false, 0, 0);
      zoneEnabled[zone] := on;
      assert zoneEnabled[..] == old(View()).enabled[zone := on];
      if !on {
        var previousOwner := ownerZoneId;
        activeStack := Drop(activeStack, {zone});
        if pendingOwnerZoneId == zone {
          pendingOwnerZoneId := 0;
        }
        RecomputeModes();
        if previousOwner == zone && ownerZoneId != previousOwner {
          r := ZoneChange(true, true, previousOwner, ownerZoneId);
        }
        return;
      }
      RecomputeModes();
    }

    method SetRoutingTo(owner: int, zones: seq<int>)
      requires Valid() && owner <= MAX_ZONES
      modifies this, zoneModes
      ensures Valid() && View() == SetRouting(old(View()), owner, zones)
    {
      activeStack := [];
      for i := 0 to |zones|
        invariant Valid()
        invariant View() == old(View()).(stack := EnabledOnly(old(View()), zones[..i]))
      {
        DropSnoc(old(View()), zones, i);
        if 1 <= zones[i] <= MAX_ZONES && zoneEnabled[zones[i]] {
          activeStack := activeStack + [zones[i]];
        }
      }
      assert zones[..|zones|] == zones;
      if owner > 0 && zoneEnabled[owner] {
        activeStack := Push(activeStack, owner);
      }
      RecomputeModes();
    }

    /** First critical section of `on_route_start`. */
    method OnRouteStartSnapshot(zone: int) returns (snap: Option<Snapshot>)
      requires Valid()
      ensures snap == StartSnapshot(View(), zone)
    {
      if zone < 1 || zone > MAX_ZONES || !zoneEnabled[zone] {
        return None;
      }
      snap := Some(Snapshot(ownerZoneId, lastRouteAtMs[..]));
    }

    method PruneSessions(zone: int, snap: Snapshot, probe: Probe)
      requires Valid() && |snap.routedAt| == MAX_ZONES + 1
      modifies this`activeStack, this`ownerZoneId
      ensures activeStack == Pruned(old(View()), zone, snap, probe)
      ensures ownerZoneId == if probe.Probe? && snap.owner > 0 && snap.owner != zone &&
                                !SessionActive(snap, probe.prune, snap.owner) then 0 else old(ownerZoneId)
    {
      if probe.Probe? {
        if snap.owner > 0 && snap.owner != zone && !SessionActive(snap, probe.prune, snap.owner) {
          activeStack := [];
          ownerZoneId := 0;
        } else {
          activeStack := Drop(activeStack,
            set x | x in activeStack && x != zone && x != snap.owner && !SessionActive(snap, probe.prune, x));
        }
      }
    }

    /** Second critical section of `on_route_start`. */
    method OnRouteStartCommit(zone: int, snap: Snapshot, playback: int, probe: Probe, now: int)
      requires Valid() && IsZone(zone) && |snap.routedAt| == MAX_ZONES + 1
      modifies this, zoneModes, lastRouteAtMs
      ensures Valid() && View() == StartCommit(old(View()), zone, snap, playback, probe, now)
    {
      if !zoneEnabled[zone] {
        return;
      }
      ghost var before := View();
      PruneSessions(zone, snap, probe);
      ghost var stack := activeStack;
      var currentOwner := if activeStack == [] then 0 else activeStack[0];
      var playbackOwner := if playback > 0 then playback else snap.owner;
      var deferSource := if playbackOwner > 0 then playbackOwner else currentOwner;
      var defers := probe.Probe? && deferSource > 0 && deferSource != zone &&
                    SessionActive(snap, probe.defer, deferSource);
      assert defers == Defers(stack, zone, snap, playback, probe);
      Enter(zone, defers, now);
    }

    /** Stacks a starting zone behind the owner it waits for, or on top. */
    method Enter(zone: int, defers: bool, now: int)
      requires Valid() && IsZone(zone)
      modifies this, zoneModes, lastRouteAtMs
      ensures Valid() && View() == Entered(old(View()), zone, defers, now)
    {
      lastRouteAtMs[zone] := now;
      assert lastRouteAtMs[..] == old(View()).routedAt[zone := now];
      handoffOwnerZoneId := 0;
      if defers {
        if zone !in activeStack {
          activeStack := activeStack + [zone];
        }
        pendingOwnerZoneId := zone;
        RecomputeModes();
        return;
      }
      pendingOwnerZoneId := 0;
      activeStack := Push(activeStack, zone);
      RecomputeModes();
    }

    method TryPromoteSnapshot() returns (zone: Option<int>)
      requires Valid()
      ensures zone == PromoteSnapshot(View())
    {
      if pendingOwnerZoneId <= 0 || pendingOwnerZoneId > MAX_ZONES || !zoneEnabled[pendingOwnerZoneId] {
        return None;
      }
      return Some(pendingOwnerZoneId);
    }

    method TryPromoteCommit(zone: int) returns (promoted: bool)
      requires Valid() && IsZone(zone)
      modifies this, zoneModes
      ensures Valid() && View() == PromoteCommit(old(View()), zone) && promoted == Promotes(old(View()), zone)
    {
      if pendingOwnerZoneId != zone || !zoneEnabled[zone] {
        return false;
      }
      activeStack := Push(activeStack, zone);
      pendingOwnerZoneId := 0;
      handoffOwnerZoneId := 0;
      RecomputeModes();
      return true;
    }

    method OnRouteEnd(zone: int)
      requires Valid()
      modifies this, zoneModes
      ensures Valid() && View() == RouteEnd(old(View()), zone)
    {
      if zone < 1 || zone > MAX_ZONES || !zoneEnabled[zone] {
        return;
      }
      var wasOwner := ownerZoneId == zone || handoffOwnerZoneId == zone;
      activeStack := Drop(activeStack, {zone});
      if wasOwner && activeStack != [] {
        pendingOwnerZoneId := activeStack[0];
        handoffOwnerZoneId := zone;
      } else if wasOwner {
        ownerZoneId := 0;
        handoffOwnerZoneId := 0;
        pendingOwnerZoneId := 0;
      } else if pendingOwnerZoneId == zone {
        pendingOwnerZoneId := 0;
      }
      RecomputeModes();
    }

    method OnRouteJoin(zone: int)
      requires Valid()
      modifies this, zoneModes
      ensures Valid() && View() == RouteJoin(old(View()), zone)
    {
      if zone < 1 || zone > MAX_ZONES || !zoneEnabled[zone] {
        return;
      }
      if zone !in activeStack {
        activeStack := activeStack + [zone];
      }
      RecomputeModes();
    }

    method MarkZoneRouted(zone: int, now: int)
      requires Valid()
      modifies lastRouteAtMs
      ensures Valid() && View() == MarkRouted(old(View()), zone, now)
    {
      if zone < 1 || zone > MAX_ZONES {
        return;
      }
      lastRouteAtMs[zone] := now;
      assert lastRouteAtMs[..] == old(View()).routedAt[zone := now];
    }
  }

  function InitialState(): (s: State)
    ensures s.Shape()
  {
    State([], 0, 0, 0, seq(MAX_ZONES + 1, _ => false), seq(MAX_ZONES + 1, _ => Off), seq(MAX_ZONES + 1, _ => 0))
  }

  lemma DropSnoc(s: State, zones: seq<int>, i: nat)
    requires s.Shape() && i < |zones|
    ensures EnabledOnly(s, zones[..i + 1]) ==
            EnabledOnly(s, zones[..i]) + if On(s.enabled, zones[i]) then [zones[i]] else []
  {
    assert zones[..i + 1] == zones[..i] + [zones[i]];
    DropOf(zones[..i], zones[i], set z | z in zones[..i] && !On(s.enabled, z),
           set z | z in zones[..i + 1] && !On(s.enabled, z));
  }
}
