/**
 How a routing decision reaches the bridge: which zone plays, which one it bridges from, which captures
 are opened and closed for it, and which rings that empties.
 */
module PlaybackPath {
  import opened Routing
  import opened RoutingRuns
  import opened RoutingOrder

  /** The bridge's shared variables; `running` says whose capture thread runs. */
  datatype Path = Path(
    owner: int, source: int, revision: nat, handoffAt: int, modes: seq<Mode>,
    started: bool, running: seq<bool>)
  {
    ghost predicate Shape() { |modes| == |running| == MAX_ZONES + 1 }
  }

  /** What the devices answer, and the clock. */
  datatype World = World(dacOpens: bool, captureOpens: set<int>, now: int)

  /** The zone `apply_routing` asks the bridge to play; 0 asks for nothing. */
  function PlaybackZone(s: State): int {
    if s.handoff > 0 && s.pending > 0 then s.pending
    else if s.handoff > 0 then s.handoff
    else s.owner
  }

  /** A capture that is to buffer is opened, unless it runs; its ring starts anew. */
  ghost predicate Opens(path: Path, z: int, mode: Mode, zoneCount: int, world: World)
    requires path.Shape() && 0 <= z <= MAX_ZONES
  {
    z <= zoneCount && mode == Buffer && path.started && !path.running[z] && z in world.captureOpens
  }

  /** The capture of a disabled zone is closed, and its ring emptied. */
  ghost predicate Closes(path: Path, z: int, mode: Mode, zoneCount: int)
    requires path.Shape() && 0 <= z <= MAX_ZONES
  {
    z <= zoneCount && mode == Disabled && path.running[z]
  }

  /** A zone that stops buffering away from the playback path loses what it had. */
  ghost predicate Drains(path: Path, z: int, mode: Mode, zoneCount: int)
    requires path.Shape() && 0 <= z <= MAX_ZONES
  {
    z <= zoneCount && path.modes[z] == Buffer && mode != Buffer && z != path.owner && z != path.source
  }

  ghost function EmptiedBy(path: Path, modes: seq<Mode>, zoneCount: int, world: World): set<int>
    requires path.Shape() && |modes| == MAX_ZONES + 1
  {
    set z | 1 <= z <= MAX_ZONES &&
      (Drains(path, z, modes[z], zoneCount) || Opens(path, z, modes[z], zoneCount, world)
       || Closes(path, z, modes[z], zoneCount))
  }

  ghost predicate RunsAfter(path: Path, z: int, mode: Mode, zoneCount: int, world: World)
    requires path.Shape() && 0 <= z <= MAX_ZONES
  {
    if z == 0 then path.running[0]
    else !Closes(path, z, mode, zoneCount) && (path.running[z] || Opens(path, z, mode, zoneCount, world))
  }

  ghost predicate PathTouched(path: Path, modes: seq<Mode>, below: int)
    requires path.Shape() && |modes| == MAX_ZONES + 1
  {
    exists z | 1 <= z < below && z <= MAX_ZONES :: path.modes[z] != modes[z] && (z == path.owner || z == path.source)
  }

  ghost function ModesApplied(path: Path, modes: seq<Mode>, zoneCount: int, world: World): (p: Path)
    requires path.Shape() && |modes| == MAX_ZONES + 1
    ensures p.Shape()
  {
    path.(modes := path.modes[..1] + modes[1..],
          running := seq(MAX_ZONES + 1, z requires 0 <= z <= MAX_ZONES => RunsAfter(path, z, modes[z], zoneCount, world)),
          revision := path.revision + if PathTouched(path, modes, MAX_ZONES + 1) then 1 else 0)
  }

  /** `set_playback_owner`; a zone of 0 or less ends the session. */
  function OwnerSet(path: Path, zone: int, world: World): Path {
    if zone <= 0 then path.(owner := 0, handoffAt := 0, revision := path.revision + 1)
    else if path.owner == zone || !world.dacOpens then path
    else path.(owner := zone, source := if path.owner > 0 then path.owner else path.source,
               handoffAt := world.now, revision := path.revision + 1)
  }

  ghost function RoutingApplied(path: Path, s: State, zoneCount: int, world: World): (p: Path)
    requires path.Shape() && s.Shape()
    ensures p.Shape()
  {
    var moded := ModesApplied(path, s.modes, zoneCount, world);
    if PlaybackZone(s) > 0 then OwnerSet(moded, PlaybackZone(s), world) else moded
  }

  /** The playback thread has found the target ready and ends the bridge. */
  function BridgeEnded(path: Path): Path { path.(source := 0) }

  class PlaybackControl {
    const zoneCount: int
    const zoneModes: array<Mode>
    const running: array<bool>
    var started: bool
    var playbackOwner: int
    var handoffSource: int
    var routingRevision: nat
    var ownerHandoffAt: int

    ghost predicate Valid()
      reads this
    {
      zoneModes.Length == running.Length == MAX_ZONES + 1
    }

    ghost function View(): (p: Path)
      requires Valid()
      reads this, zoneModes, running
      ensures p.Shape()
    {
      Path(playbackOwner, handoffSource, routingRevision, ownerHandoffAt, zoneModes[..], started, running[..])
    }

    constructor (zoneCount: int)
      ensures Valid() && this.zoneCount == zoneCount && fresh(zoneModes) && fresh(running)
      ensures View() == Path(0, 0, 0, 0, seq(MAX_ZONES + 1, _ => Off), false, seq(MAX_ZONES + 1, _ => false))
    {
      this.zoneCount := zoneCount;
      zoneModes := new Mode[MAX_ZONES + 1](_ => Off);
      running := new bool[MAX_ZONES + 1](_ => false);
      started, playbackOwner, handoffSource, routingRevision, ownerHandoffAt := false, 0, 0, 0, 0;
      new;
      assert zoneModes[..] == seq(MAX_ZONES + 1, _ => Off);
      assert running[..] == seq(MAX_ZONES + 1, _ => false);
    }

    /** `ensure_zone_capture_open`; tells whether the ring was set up anew. */
    method EnsureCaptureOpen(z: int, world: World) returns (emptied: bool)
      requires Valid() && 1 <= z <= MAX_ZONES
      modifies running
      ensures emptied == Opens(old(View()), z, Buffer, zoneCount, world)
      ensures running[..] == old(running[..])[z := old(running[z]) || emptied]
    {
      if !started || z > zoneCount || running[z] || z !in world.captureOpens {
        return false;
      }
      running[z] := true;
      return true;
    }

    /** `close_zone_capture_internal`; tells whether a ring was emptied. */
    method CloseCapture(z: int) returns (emptied: bool)
      requires Valid() && 1 <= z <= MAX_ZONES
      modifies running
      ensures emptied == Closes(old(View()), z, Disabled, zoneCount)
      ensures running[..] == old(running[..])[z := old(running[z]) && !emptied]
    {
      if z > zoneCount || !running[z] {
        return false;
      }
      running[z] := false;
      return true;
    }

    /** One turn of the loop over the zones. */
    method ApplyZoneMode(z: int, mode: Mode, playbackZone: int, handoffZone: int, world: World)
      returns (emptied: bool, touched: bool)
      requires Valid() && 1 <= z <= MAX_ZONES && playbackZone == playbackOwner && handoffZone == handoffSource
      modifies zoneModes, running
      ensures zoneModes[..] == old(zoneModes[..])[z := mode]
      ensures running[..] == old(running[..])[z := RunsAfter(old(View()), z, mode, zoneCount, world)]
      ensures touched == (old(zoneModes[z]) != mode && (z == playbackOwner || z == handoffSource))
      ensures emptied == (Drains(old(View()), z, mode, zoneCount) || Opens(old(View()), z, mode, zoneCount, world)
                          || Closes(old(View()), z, mode, zoneCount))
    {
      var previous := zoneModes[z];
      emptied := previous == Buffer && (mode == Drain || mode == Disabled || mode == Off) && z <= zoneCount
                 && z != playbackZone && z != handoffZone;
      touched := previous != mode && (z == playbackZone || z == handoffZone);
      zoneModes[z] := mode;
      if z <= zoneCount {
        if mode == Buffer {
          var renewed := EnsureCaptureOpen(z, world);
          emptied := emptied || renewed;
        } else if mode == Disabled {
          var closed := CloseCapture(z);
          emptied := emptied || closed;
        }
      }
    }

    /** The loop over the zones. */
    method UpdateZones(modes: seq<Mode>, world: World) returns (emptied: set<int>, pathChanged: bool)
      requires Valid() && |modes| == MAX_ZONES + 1
      modifies zoneModes, running
      ensures forall z | 1 <= z <= MAX_ZONES :: zoneModes[z] == modes[z]
      ensures forall z | 1 <= z <= MAX_ZONES :: running[z] == RunsAfter(old(View()), z, modes[z], zoneCount, world)
      ensures zoneModes[0] == old(zoneModes[0]) && running[0] == old(running[0])
      ensures pathChanged == PathTouched(old(View()), modes, MAX_ZONES + 1)
      ensures emptied == EmptiedBy(old(View()), modes, zoneCount, world)
    {
      ghost var before := View();
      var playbackZone, handoffZone := playbackOwner, handoffSource;
      pathChanged := false;
      emptied := {};
      for i := 1 to MAX_ZONES + 1
        invariant forall z | 1 <= z < i :: zoneModes[z] == modes[z]
        invariant forall z | 0 <= z <= MAX_ZONES && (z == 0 || i <= z) :: zoneModes[z] == before.modes[z]
        invariant forall z | 1 <= z < i :: running[z] == RunsAfter(before, z, modes[z], zoneCount, world)
        invariant forall z | 0 <= z <= MAX_ZONES && (z == 0 || i <= z) :: running[z] == before.running[z]
        invariant pathChanged == PathTouched(before, modes, i)
        invariant emptied == set z | z in EmptiedBy(before, modes, zoneCount, world) && z < i
      {
        assert zoneModes[i] == before.modes[i] && running[i] == before.running[i];
        var lost, touched := ApplyZoneMode(i, modes[i], playbackZone, handoffZone, world);
        if lost {
          emptied := emptied + {i};
        }
        pathChanged := pathChanged || touched;
      }
    }

    method ApplyZoneModes(modes: seq<Mode>, world: World) returns (emptied: set<int>)
      requires Valid() && |modes| == MAX_ZONES + 1
      modifies this`routingRevision, zoneModes, running
      ensures Valid() && View() == ModesApplied(old(View()), modes, zoneCount, world)
      ensures emptied == EmptiedBy(old(View()), modes, zoneCount, world)
    {
      ghost var after := ModesApplied(View(), modes, zoneCount, world);
      var pathChanged: bool;
      emptied, pathChanged := UpdateZones(modes, world);
      if pathChanged {
        routingRevision := routingRevision + 1;
      }
      assert zoneModes[..] == after.modes;
      assert running[..] == after.running;
    }

    /** `set_playback_owner`; ending the session empties every ring. */
    method SetPlaybackOwner(zone: int, world: World) returns (allEmptied: bool)
      requires Valid()
      modifies this`playbackOwner, this`handoffSource, this`routingRevision, this`ownerHandoffAt
      ensures Valid() && View() == OwnerSet(old(View()), zone, world) && (allEmptied <==> zone <= 0)
    {
      if zone <= 0 {
        playbackOwner := 0;
        ownerHandoffAt := 0;
        routingRevision := routingRevision + 1;
        return true;
      }
      var previousOwner := playbackOwner;
      if previousOwner == zone || !world.dacOpens {
        return false;
      }
      if previousOwner > 0 {
        handoffSource := previousOwner;
      }
      ownerHandoffAt := world.now;
      playbackOwner := zone;
      routingRevision := routingRevision + 1;
      return false;
    }

    method ApplyRouting(routing: RoutingState, world: World) returns (emptied: set<int>)
      requires Valid()
      requires routing.Valid() && routing.zoneModes != zoneModes && routing.zoneEnabled != running
      modifies this, zoneModes, running
      ensures Valid() && View() == RoutingApplied(old(View()), routing.View(), zoneCount, world)
      ensures emptied == EmptiedBy(old(View()), routing.View().modes, zoneCount, world)
    {
      emptied := ApplyZoneModes(routing.zoneModes[..], world);
      var handoffZone, pendingZone := routing.handoffOwnerZoneId, routing.pendingOwnerZoneId;
      var playbackZone := if handoffZone > 0 && pendingZone > 0 then pendingZone
                          else if handoffZone > 0 then handoffZone
                          else routing.ownerZoneId;
      if playbackZone > 0 {
        var all := SetPlaybackOwner(playbackZone, world);
      }
    }
  }

  // --- A hand-off on its way to the bridge ------------------------------------------------

  /**
   A hand-off in the router becomes a bridge from the leaving zone to the pending one. The ring of the
   pending zone is emptied only when its capture has to be opened; that of the leaving zone also when
   that zone has been disabled while its capture runs.
   */
  lemma HandoffBridges(path: Path, s: State, o: int, p: int, zoneCount: int, world: World)
    requires path.Shape() && HandingOff(s, o, p) && path.owner == o && world.dacOpens
    ensures var bridging := RoutingApplied(path, s, zoneCount, world);
            && bridging.owner == p && bridging.source == o
            && bridging.modes[p] == Buffer && bridging.modes[o] == (if s.enabled[o] then Buffer else Disabled)
            && (!s.enabled[o] && o <= zoneCount ==> !bridging.running[o])
    ensures var emptied := EmptiedBy(path, s.modes, zoneCount, world);
            && (p in emptied <==> Opens(path, p, Buffer, zoneCount, world))
            && (o in emptied <==> if s.enabled[o] then Opens(path, o, Buffer, zoneCount, world)
                                  else Closes(path, o, Disabled, zoneCount))
  {
    assert On(s.enabled, p) by { assert s.stack[0] in s.stack; }
    assert s.modes[p] == Buffer;
  }

  lemma PromotedModes(s: State, o: int, p: int)
    requires HandingOff(s, o, p)
    ensures var t := PromoteCommit(s, p);
            && Inv(t) && t.owner == p && t.handoff == 0 && t.modes[p] == Buffer
            && t.modes[o] == if !s.enabled[o] then Disabled else if o in s.stack then Buffer else Drain
  {
    assert On(s.enabled, p) by { assert s.stack[0] in s.stack; }
    PromoteCommitInv(s, p);
    PushFront(s.stack, p);
  }

  /**
   The promotion finds the bridge as the playback thread has left it. It survives if and only if that
   thread has not ended it; and the leaving zone's ring is emptied if and only if the zone is away from the
   bridge and from the stack, or its capture has to be opened.
   */
  lemma PromotionOnBridge(path: Path, s: State, o: int, p: int, zoneCount: int, ended: bool, world: World, later: World)
    requires path.Shape() && HandingOff(s, o, p) && path.owner == o && world.dacOpens
    ensures var bridging := RoutingApplied(path, s, zoneCount, world);
            var found := if ended then BridgeEnded(bridging) else bridging;
            var promoted := PromoteCommit(s, p);
            var after := RoutingApplied(found, promoted, zoneCount, later);
            var emptied := EmptiedBy(found, promoted.modes, zoneCount, later);
            && promoted.owner == p && after.owner == p
            && (after.source == o <==> !ended)
            && (p in emptied <==> Opens(found, p, Buffer, zoneCount, later))
            && (o in emptied <==> s.enabled[o] && if o in s.stack then Opens(found, o, Buffer, zoneCount, later)
                                                  else ended && o <= zoneCount)
  {
    HandoffBridges(path, s, o, p, zoneCount, world);
    PromotedModes(s, o, p);
  }

  /** While both captures run and no zone is disabled, only an ended bridge costs a ring, and only the leaving one's. */
  lemma HandoffKeepsRingsIff(path: Path, s: State, o: int, p: int, zoneCount: int, ended: bool, world: World,
                             later: World)
    requires path.Shape() && HandingOff(s, o, p) && path.owner == o && world.dacOpens
    requires o <= zoneCount && path.running[o] && path.running[p]
    ensures var bridging := RoutingApplied(path, s, zoneCount, world);
            var found := if ended then BridgeEnded(bridging) else bridging;
            var first := EmptiedBy(path, s.modes, zoneCount, world);
            var second := EmptiedBy(found, PromoteCommit(s, p).modes, zoneCount, later);
            && p !in first + second
            && (o !in first + second <==> s.enabled[o] && (ended ==> o in s.stack))
  {
    HandoffBridges(path, s, o, p, zoneCount, world);
    PromotionOnBridge(path, s, o, p, zoneCount, ended, world, later);
    assert On(s.enabled, p) by { assert s.stack[0] in s.stack; }
  }

  // --- Any decision on its way to the bridge ----------------------------------------------

  /** A session that was ended leaves no bridge: the next owner starts with the source that was there before. */
  lemma EndedSessionLeavesNoBridge(path: Path, ended: int, next: int, world: World, later: World)
    requires path.owner > 0 && ended <= 0 && next > 0 && later.dacOpens
    ensures OwnerSet(path, ended, world).owner == 0 && OwnerSet(path, ended, world).revision == path.revision + 1
    ensures var p := OwnerSet(OwnerSet(path, ended, world), next, later);
            p.owner == next && p.source == path.source && p.revision == path.revision + 2
  {
  }

  /** With the DAC open: which zone the bridge plays, and from which it bridges. */
  lemma BridgePlays(path: Path, s: State, zoneCount: int, world: World)
    requires path.Shape() && Inv(s) && world.dacOpens
    ensures var p := RoutingApplied(path, s, zoneCount, world);
            && (s.handoff == 0 && s.owner > 0 ==> p.owner == s.owner)
            && (s.handoff > 0 && s.pending > 0 ==> p.owner == s.pending)
            && (s.handoff > 0 && s.pending <= 0 ==> p.owner == s.handoff)
            && (s.owner == 0 ==> p.owner == path.owner)
            && (if p.owner == path.owner then p.source == path.source && p.handoffAt == path.handoffAt
                else p.source == (if path.owner > 0 then path.owner else path.source) && p.handoffAt == world.now)
  {
    assert s.stack != [] ==> s.stack[0] in s.stack;
  }

  /** While the DAC does not open the bridge stays as it was. */
  lemma ClosedDacKeepsBridge(path: Path, s: State, zoneCount: int, world: World)
    requires path.Shape() && Inv(s) && !world.dacOpens
    ensures var p := RoutingApplied(path, s, zoneCount, world);
            p.owner == path.owner && p.source == path.source && p.handoffAt == path.handoffAt
  {
    assert s.stack != [] ==> s.stack[0] in s.stack;
  }

  /** With the DAC open the bridge plays the owner, or who follows it, unless the router has become idle. */
  lemma BridgeFollowsIff(path: Path, s: State, zoneCount: int, world: World)
    requires path.Shape() && Inv(s) && world.dacOpens
    ensures RoutingApplied(path, s, zoneCount, world).owner ==
            (if s.handoff > 0 && s.pending > 0 then s.pending else s.owner)
            <==> s.owner != 0 || path.owner == 0
  {
    assert s.stack != [] ==> s.stack[0] in s.stack;
  }

  /** The playback loop is told of every change of the zone it plays, or of a mode on its path, and of nothing else. */
  lemma RevisionTellsIff(path: Path, s: State, zoneCount: int, world: World)
    requires path.Shape() && Inv(s)
    ensures var p := RoutingApplied(path, s, zoneCount, world);
            p.revision > path.revision <==>
            p.owner != path.owner || (exists z | 1 <= z <= MAX_ZONES && (z == path.owner || z == path.source) ::
                                        p.modes[z] != path.modes[z])
  {
    assert s.stack != [] ==> s.stack[0] in s.stack;
    var p := RoutingApplied(path, s, zoneCount, world);
    forall z | 1 <= z <= MAX_ZONES ensures p.modes[z] == s.modes[z] {
    }
  }

  /** Which captures run: those that ran go on unless disabled, and only zones that matter are opened. */
  lemma CapturesFollow(path: Path, s: State, z: int, zoneCount: int, world: World)
    requires path.Shape() && Inv(s) && 1 <= z <= MAX_ZONES && z <= zoneCount
    ensures var p := RoutingApplied(path, s, zoneCount, world);
            if !s.enabled[z] then !p.running[z]
            else p.running[z] <==>
                 path.running[z] || (path.started && z in world.captureOpens
                                     && (z in s.stack || z == s.handoff || z == s.pending))
  {
  }

  /**
   Which rings are emptied: those of zones that stop buffering off the path, those of captures that are
   opened, and those of running captures that are closed.
   */
  lemma RingEmptiedIff(path: Path, s: State, z: int, zoneCount: int, world: World)
    requires path.Shape() && Inv(s) && 1 <= z <= MAX_ZONES && z <= zoneCount
    ensures var wanted := z in s.stack || z == s.handoff || z == s.pending;
            var stops := path.modes[z] == Buffer && z != path.owner && z != path.source;
            z in EmptiedBy(path, s.modes, zoneCount, world) <==>
            if !s.enabled[z] then stops || path.running[z]
            else if wanted then path.started && !path.running[z] && z in world.captureOpens
            else stops
  {
  }

  // --- A newcomer that waits --------------------------------------------------------------

  /** The bridge after each critical section of a run, with the routing applied behind it. */
  ghost function AppliedAlong(path: Path, sys: Sys, steps: seq<Step>, worlds: seq<World>, zoneCount: int): (p: Path)
    requires path.Shape() && sys.Shape() && LegalRun(sys, steps) && |worlds| == |steps|
    ensures p.Shape()
    decreases |steps|
  {
    if steps == [] then path
    else
      var n := Next(sys, steps[0]);
      AppliedAlong(RoutingApplied(path, n.r, zoneCount, worlds[0]), n, steps[1..], worlds[1..], zoneCount)
  }

  /** Newcomers that a live owner keeps waiting leave the bridge on it, and on the source it had. */
  lemma {:induction false} NewcomersLeaveBridge(path: Path, sys: Sys, steps: seq<Step>, worlds: seq<World>, o: int,
                                                from: nat,
                                                zoneCount: int)
    requires path.Shape() && path.owner == o && Undisturbed(sys, o) && LegalRun(sys, steps) && |worlds| == |steps|
    requires AllSeeLive(sys, steps, o) && LastIsPending(sys, from)
    ensures var p := AppliedAlong(path, sys, steps, worlds, zoneCount); p.owner == o && p.source == path.source
    decreases |steps|
  {
    if steps != [] {
      var n := Next(sys, steps[0]);
      NewcomerWaits(sys, steps[0], o, from);
      if worlds[0].dacOpens {
        BridgePlays(path, n.r, zoneCount, worlds[0]);
      } else {
        ClosedDacKeepsBridge(path, n.r, zoneCount, worlds[0]);
      }
      NewcomersLeaveBridge(RoutingApplied(path, n.r, zoneCount, worlds[0]), n, steps[1..], worlds[1..], o, from, zoneCount);
    }
  }
}
