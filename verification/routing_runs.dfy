/**
 Whole runs of the router, one critical section at a time.

 `on_route_start` and `try_promote_pending_owner` each take the lock twice, so a run interleaves
 their halves with every other operation; a call that is between its two halves is kept under the
 id of the thread that makes it.
 */
module RoutingRuns {
  import opened Lists
  import opened Text
  import opened Routing

  datatype Call =
    | Starting(zone: int, snap: Snapshot, playback: int, probed: bool)
    | Promoting(zone: int)

  /** What took effect, in the order of the second critical sections. */
  datatype Commit = Started(zone: int) | Ended(zone: int) | Promoted(zone: int)

  datatype Sys = Sys(r: State, calls: map<nat, Call>, log: seq<Commit>) {
    ghost predicate Shape() {
      r.Shape() &&
      forall t | t in calls && calls[t].Starting? ::
        IsZone(calls[t].zone) && |calls[t].snap.routedAt| == MAX_ZONES + 1
    }
  }

  datatype Step =
    | StartFirst(tid: nat, zone: int, playback: int, probed: bool)
    | StartSecond(tid: nat, prune: Look, defer: Look, now: int)
    | PromoteFirst(tid: nat)
    | PromoteSecond(tid: nat, ready: bool)
    | End(zone: int)
    | Join(zone: int)
    | Enable(zone: int, on: bool)
    | Route(owner: int, zones: seq<int>)
    | Mask(mask: seq<bool>)
    | Mark(zone: int, now: int)

  /** No enabled zone other than the requested owner is listed twice. */
  ghost predicate RequestDupFree(s: State, owner: int, zones: seq<int>)
    requires s.Shape()
  {
    forall i, j | 0 <= i < j < |zones| && zones[i] == zones[j] && On(s.enabled, zones[i]) :: zones[i] == owner
  }

  /** What the operations ask of their callers. */
  ghost predicate Legal(sys: Sys, step: Step)
    requires sys.Shape()
  {
    match step
    case Route(owner, zones) => owner <= MAX_ZONES && RequestDupFree(sys.r, owner, zones)
    case Mask(mask) => |mask| == MAX_ZONES + 1
    case _ => true
  }

  /** The promotion half that is about to take effect. */
  ghost predicate Accepted(sys: Sys, step: Step)
    requires sys.Shape()
  {
    step.PromoteSecond? && step.ready && step.tid in sys.calls &&
    sys.calls[step.tid].Promoting? && Promotes(sys.r, sys.calls[step.tid].zone)
  }

  ghost function Next(sys: Sys, step: Step): (t: Sys)
    requires sys.Shape() && Legal(sys, step)
    ensures t.Shape()
  {
    match step
    case StartFirst(tid, zone, playback, probed) =>
      if tid in sys.calls then sys
      else (match StartSnapshot(sys.r, zone)
            case None => sys
            case Some(snap) => sys.(calls := sys.calls[tid := Starting(zone, snap, playback, probed)]))
    case StartSecond(tid, prune, defer, now) =>
      if tid !in sys.calls || !sys.calls[tid].Starting? then sys
      else
        var c := sys.calls[tid];
        Sys(StartCommit(sys.r, c.zone, c.snap, c.playback, if c.probed then Probe(prune, defer) else NoProbe, now),
            sys.calls - {tid},
            if sys.r.enabled[c.zone] then sys.log + [Started(c.zone)] else sys.log)
    case PromoteFirst(tid) =>
      if tid in sys.calls then sys
      else (match PromoteSnapshot(sys.r)
            case None => sys
            case Some(zone) => sys.(calls := sys.calls[tid := Promoting(zone)]))
    case PromoteSecond(tid, ready) =>
      if tid !in sys.calls || !sys.calls[tid].Promoting? then sys
      else if Accepted(sys, step)
      then Sys(PromoteCommit(sys.r, sys.calls[tid].zone), sys.calls - {tid}, sys.log + [Promoted(sys.calls[tid].zone)])
      else sys.(calls := sys.calls - {tid})
    case End(zone) =>
      sys.(r := RouteEnd(sys.r, zone), log := if On(sys.r.enabled, zone) then sys.log + [Ended(zone)] else sys.log)
    case Join(zone) => sys.(r := RouteJoin(sys.r, zone))
    case Enable(zone, on) => sys.(r := SetEnabled(sys.r, zone, on).0)
    case Route(owner, zones) => sys.(r := SetRouting(sys.r, owner, zones))
    case Mask(mask) => sys.(r := LoadMask(sys.r, mask))
    case Mark(zone, now) => sys.(r := MarkRouted(sys.r, zone, now))
  }

  ghost predicate LegalRun(sys: Sys, steps: seq<Step>)
    requires sys.Shape()
    decreases |steps|
  {
    steps == [] || (Legal(sys, steps[0]) && LegalRun(Next(sys, steps[0]), steps[1..]))
  }

  ghost function Run(sys: Sys, steps: seq<Step>): (t: Sys)
    requires sys.Shape() && LegalRun(sys, steps)
    ensures t.Shape()
    decreases |steps|
  {
    if steps == [] then sys else Run(Next(sys, steps[0]), steps[1..])
  }

  /** The service starts by loading the enabled mask. */
  ghost function Booted(mask: seq<bool>): (sys: Sys)
    requires |mask| == MAX_ZONES + 1
    ensures sys.Shape()
  {
    Sys(LoadMask(InitialState(), mask), map[], [])
  }

  // --- Safety over every run --------------------------------------------------------------

  /** The part of the invariant about the fields that are not derived. */
  ghost predicate Sound(s: State) {
    s.Shape() &&
    NoDup(s.stack) &&
    (forall z | z in s.stack :: On(s.enabled, z)) &&
    (s.pending == 0 || (On(s.enabled, s.pending) && s.pending != s.handoff)) &&
    (s.handoff == 0 || IsZone(s.handoff))
  }

  ghost predicate Inv(s: State) {
    Sound(s) &&
    s.owner == (if s.handoff > 0 then s.handoff else if s.stack != [] then s.stack[0] else 0) &&
    (forall z | 1 <= z <= MAX_ZONES ::
      && (s.modes[z] == Disabled <==> !s.enabled[z])
      && (s.modes[z] == Buffer <==> s.enabled[z] && (z in s.stack || z == s.handoff || z == s.pending))
      && s.modes[z] != Off)
  }

  lemma SettledInv(s: State)
    requires Sound(s)
    ensures Inv(Settled(s))
  {
  }

  /** `remove` keeps a sequence free of duplicates exactly when it takes every repeated value. */
  lemma {:induction false} DropNoDup(s: seq<int>, gone: set<int>)
    ensures NoDup(Drop(s, gone)) <==> forall i, j | 0 <= i < j < |s| && s[i] == s[j] :: s[i] in gone
  {
    if s != [] {
      var rest := s[1..];
      DropNoDup(rest, gone);
      var r := Drop(rest, gone);
      if s[0] !in gone {
        assert Drop(s, gone) == [s[0]] + r;
        assert NoDup([s[0]] + r) <==> NoDup(r) && s[0] !in r by { NoDupCons(s[0], r); }
        assert s[0] in r <==> s[0] in rest;
        if s[0] in rest {
          var k :| 0 <= k < |rest| && rest[k] == s[0];
          assert s[0] == s[k + 1];
        }
      }
      assert forall i | 0 < i < |s| :: s[i] == rest[i - 1];
      if forall i, j | 0 <= i < j < |s| && s[i] == s[j] :: s[i] in gone {
        forall i, j | 0 <= i < j < |rest| && rest[i] == rest[j] ensures rest[i] in gone {
          assert s[i + 1] == s[j + 1];
        }
      }
    }
  }

  lemma NoDupCons(x: int, r: seq<int>)
    ensures NoDup([x] + r) <==> NoDup(r) && x !in r
  {
    var s := [x] + r;
    if NoDup(s) {
      forall i, j | 0 <= i < j < |r| ensures r[i] != r[j] { assert s[i + 1] != s[j + 1]; }
      forall i | 0 <= i < |r| ensures r[i] != x { assert s[0] != s[i + 1]; }
    }
  }

  lemma NoDupSnoc(r: seq<int>, x: int)
    requires NoDup(r) && x !in r
    ensures NoDup(r + [x])
  {
  }

  lemma PushSound(s: State, z: int)
    requires Sound(s) && On(s.enabled, z)
    ensures NoDup(Push(s.stack, z)) && forall x | x in Push(s.stack, z) :: On(s.enabled, x)
  {
  }

  lemma LoadMaskInv(s: State, mask: seq<bool>)
    requires Sound(s) && |mask| == MAX_ZONES + 1
    ensures Inv(LoadMask(s, mask))
  {
  }

  lemma SetEnabledInv(s: State, z: int, on: bool)
    requires Inv(s)
    ensures Inv(SetEnabled(s, z, on).0)
  {
    if IsZone(z) && s.enabled[z] != on {
      if on {
        SettledInv(s.(enabled := s.enabled[z := true]));
      } else {
        SettledInv(s.(enabled := s.enabled[z := false], stack := Drop(s.stack, {z}),
                      pending := if s.pending == z then 0 else s.pending));
      }
    }
  }

  lemma RoutedNoDupIff(s: State, owner: int, zones: seq<int>)
    requires s.Shape()
    ensures NoDup(if On(s.enabled, owner) then Push(EnabledOnly(s, zones), owner) else EnabledOnly(s, zones))
            <==> RequestDupFree(s, owner, zones)
  {
    var off := set z | z in zones && !On(s.enabled, z);
    var kept := EnabledOnly(s, zones);
    assert forall i | 0 <= i < |zones| :: zones[i] in off <==> !On(s.enabled, zones[i]);
    if On(s.enabled, owner) {
      DropDrop(zones, off, {owner});
      DropNoDup(zones, off + {owner});
      NoDupCons(owner, Drop(kept, {owner}));
    } else {
      DropNoDup(zones, off);
    }
  }

  /** `set_routing` keeps the invariant exactly on the requests that repeat no enabled zone but the owner. */
  lemma SetRoutingInvIff(s: State, owner: int, zones: seq<int>)
    requires Inv(s) && owner <= MAX_ZONES
    ensures Inv(SetRouting(s, owner, zones)) <==> RequestDupFree(s, owner, zones)
  {
    var kept := EnabledOnly(s, zones);
    var stack := if On(s.enabled, owner) then Push(kept, owner) else kept;
    RoutedNoDupIff(s, owner, zones);
    if NoDup(stack) {
      SettledInv(s.(stack := stack));
    }
  }

  lemma StartCommitInv(s: State, z: int, snap: Snapshot, playback: int, probe: Probe, now: int)
    requires Inv(s) && IsZone(z) && |snap.routedAt| == MAX_ZONES + 1
    ensures Inv(StartCommit(s, z, snap, playback, probe, now))
  {
    if s.enabled[z] {
      var stack := Pruned(s, z, snap, probe);
      var stamped := s.(routedAt := s.routedAt[z := now], handoff := 0);
      assert Sound(stamped.(stack := stack, pending := 0));
      if Defers(stack, z, snap, playback, probe) {
        if z !in stack { NoDupSnoc(stack, z); }
        SettledInv(stamped.(stack := if z in stack then stack else stack + [z], pending := z));
      } else {
        PushSound(stamped.(stack := stack, pending := 0), z);
        SettledInv(stamped.(stack := Push(stack, z), pending := 0));
      }
    }
  }

  lemma PromoteCommitInv(s: State, z: int)
    requires Inv(s)
    ensures Inv(PromoteCommit(s, z))
  {
  }

  lemma RouteEndInv(s: State, z: int)
    requires Inv(s)
    ensures Inv(RouteEnd(s, z))
  {
    if On(s.enabled, z) {
      var stack := Drop(s.stack, {z});
      if s.owner == z || s.handoff == z {
        if stack != [] {
          assert stack[0] in stack;
          SettledInv(s.(stack := stack, pending := stack[0], handoff := z));
        } else {
          SettledInv(s.(stack := stack, pending := 0, handoff := 0));
        }
      } else {
        SettledInv(s.(stack := stack, pending := if s.pending == z then 0 else s.pending));
      }
    }
  }

  lemma RouteJoinInv(s: State, z: int)
    requires Inv(s)
    ensures Inv(RouteJoin(s, z))
  {
  }

  lemma StepInv(sys: Sys, step: Step)
    requires sys.Shape() && Inv(sys.r) && Legal(sys, step)
    ensures Inv(Next(sys, step).r)
  {
    match step
    case StartFirst(_, _, _, _) =>
    case StartSecond(tid, prune, defer, now) =>
      if tid in sys.calls && sys.calls[tid].Starting? {
        var c := sys.calls[tid];
        StartCommitInv(sys.r, c.zone, c.snap, c.playback, if c.probed then Probe(prune, defer) else NoProbe, now);
      }
    case PromoteFirst(_) =>
    case PromoteSecond(tid, _) =>
      if Accepted(sys, step) { PromoteCommitInv(sys.r, sys.calls[tid].zone); }
    case End(zone) => RouteEndInv(sys.r, zone);
    case Join(zone) => RouteJoinInv(sys.r, zone);
    case Enable(zone, on) => SetEnabledInv(sys.r, zone, on);
    case Route(owner, zones) => SetRoutingInvIff(sys.r, owner, zones);
    case Mask(mask) => LoadMaskInv(sys.r, mask);
    case Mark(_, _) =>
  }

  lemma {:induction false} RunInv(sys: Sys, steps: seq<Step>)
    requires sys.Shape() && Inv(sys.r) && LegalRun(sys, steps)
    ensures Inv(Run(sys, steps).r)
    decreases |steps|
  {
    if steps != [] {
      StepInv(sys, steps[0]);
      RunInv(Next(sys, steps[0]), steps[1..]);
    }
  }

  lemma {:induction false} NoDupCard(s: seq<int>, all: set<int>)
    requires NoDup(s) && forall x | x in s :: x in all
    ensures |s| <= |all|
  {
    if s != [] {
      var head := s[0];
      assert head in s && head in all;
      assert |all - {head}| == |all| - 1;
      forall x | x in s[1..] ensures x in all - {s[0]} {
        var k :| 0 < k < |s| && s[k] == x;
        assert s[0] != s[k];
      }
      NoDupCard(s[1..], all - {s[0]});
    }
  }

  ghost function EnabledZones(s: State): set<int>
    requires s.Shape()
  {
    set z | 1 <= z <= MAX_ZONES && s.enabled[z]
  }

  /** Safety: every state of every interleaved run of the booted router satisfies the invariant. */
  lemma RouterSafety(mask: seq<bool>, steps: seq<Step>)
    requires |mask| == MAX_ZONES + 1 && LegalRun(Booted(mask), steps)
    ensures var s := Run(Booted(mask), steps).r;
            Inv(s) && |s.stack| <= |EnabledZones(s)|
  {
    LoadMaskInv(InitialState(), mask);
    RunInv(Booted(mask), steps);
    var s := Run(Booted(mask), steps).r;
    NoDupCard(s.stack, EnabledZones(s));
  }

  /**
   Disabling a zone leaves a disabled zone in charge of the DAC in one case only: the zone is the
   one that a hand-off is draining.
   */
  lemma DisabledOwnerIff(s: State, z: int)
    requires Inv(s) && (s.owner == 0 || On(s.enabled, s.owner)) && On(s.enabled, z)
    ensures var t := SetEnabled(s, z, false).0;
            (t.owner != 0 && !On(t.enabled, t.owner)) <==> s.handoff == z
  {
    var t := SetEnabled(s, z, false).0;
    SetEnabledInv(s, z, false);
    if s.handoff == 0 && t.stack != [] { assert t.stack[0] in t.stack; }
  }

  /** A newly loaded mask does so exactly when it disables the zone that a hand-off is draining. */
  lemma MaskedOwnerIff(s: State, mask: seq<bool>)
    requires Inv(s) && |mask| == MAX_ZONES + 1
    ensures var t := LoadMask(s, mask);
            (t.owner != 0 && !On(t.enabled, t.owner)) <==> s.handoff > 0 && !mask[s.handoff]
  {
    LoadMaskInv(s, mask);
    var t := LoadMask(s, mask);
    assert t.stack != [] ==> t.stack[0] in t.stack;
  }

  /** Such a run: start 1, join 2, end 1, disable 1. */
  lemma DisabledOwnerRun(mask: seq<bool>)
    requires |mask| == MAX_ZONES + 1 && mask[1] && mask[2]
    ensures exists steps :: LegalRun(Booted(mask), steps) &&
              var s := Run(Booted(mask), steps).r; s.owner == 1 && !s.enabled[1]
  {
    var s0 := Booted(mask);
    var idle := Look({}, 0);
    var s1 := Next(s0, StartFirst(0, 1, 0, true));
    var s2 := Next(s1, StartSecond(0, idle, idle, 7));
    assert s2.r.stack == [1];
    var s3 := Next(s2, Join(2));
    assert s3.r.stack == [1, 2];
    var s4 := Next(s3, End(1));
    assert Drop([1, 2], {1}) == [2] by { assert [1, 2][1..] == [2]; }
    assert s4.r.handoff == 1 && s4.r.pending == 2;
    var s5 := Next(s4, Enable(1, false));
    var e5: seq<Step> := [];
    var e4 := [Enable(1, false)] + e5;
    var e3 := [End(1)] + e4;
    var e2 := [Join(2)] + e3;
    var e1 := [StartSecond(0, idle, idle, 7)] + e2;
    var e0 := [StartFirst(0, 1, 0, true)] + e1;
    assert LegalRun(s4, e4) && Run(s4, e4) == s5 by { assert e4[1..] == e5; }
    assert LegalRun(s3, e3) && Run(s3, e3) == s5 by { assert e3[1..] == e4; }
    assert LegalRun(s2, e2) && Run(s2, e2) == s5 by { assert e2[1..] == e3; }
    assert LegalRun(s1, e1) && Run(s1, e1) == s5 by { assert e1[1..] == e2; }
    assert LegalRun(s0, e0) && Run(s0, e0) == s5 by { assert e0[1..] == e1; }
  }
}
