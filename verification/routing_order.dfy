/** Who owns the DAC, and in which order zones wait for it, over whole runs of the router. */
module RoutingOrder {
  import opened Lists
  import opened Text
  import opened Routing
  import opened RoutingRuns

  // --- The hand-off: an owner that leaves is followed by exactly the pending zone ----------

  ghost predicate HandingOff(s: State, o: int, p: int) {
    Inv(s) && s.handoff == o && s.owner == o && s.pending == p && o != p && o > 0 &&
    s.stack != [] && s.stack[0] == p
  }

  /** The owner's `on_route_end` opens a hand-off whenever it leaves another zone stacked. */
  lemma OwnerEndOpensHandoff(s: State, o: int)
    requires Inv(s) && On(s.enabled, o) && s.owner == o
    ensures Drop(s.stack, {o}) != [] ==> HandingOff(RouteEnd(s, o), o, Drop(s.stack, {o})[0])
    ensures Drop(s.stack, {o}) == [] ==> RouteEnd(s, o).owner == 0 && RouteEnd(s, o).stack == []
  {
  }

  /** Joins, ends of zones other than `p`, and promotions, each half on its own. */
  ghost predicate Bridging(step: Step, p: int) {
    step.Join? || (step.End? && step.zone != p) || step.PromoteFirst? || step.PromoteSecond? || step.Mark?
  }

  lemma BridgingKeeps(sys: Sys, step: Step, o: int, p: int)
    requires sys.Shape() && HandingOff(sys.r, o, p) && Bridging(step, p)
    requires !Accepted(sys, step)
    ensures HandingOff(Next(sys, step).r, o, p)
  {
    StepInv(sys, step);
    match step
    case Join(_) =>
    case End(z) =>
      if On(sys.r.enabled, z) {
        var stack := Drop(sys.r.stack, {z});
        assert stack != [] && stack[0] == p;
      }
    case _ =>
  }

  lemma AcceptedEndsHandoff(sys: Sys, step: Step, o: int, p: int)
    requires sys.Shape() && HandingOff(sys.r, o, p) && Accepted(sys, step)
    ensures var t := Next(sys, step).r;
            t.owner == p && t.pending == 0 && t.handoff == 0 && t.stack == sys.r.stack
  {
    PushFront(sys.r.stack, p);
  }

  lemma PushFront(s: seq<int>, p: int)
    requires NoDup(s) && s != [] && s[0] == p
    ensures Push(s, p) == s
  {
    assert Drop(s, {p}) == s[1..] by {
      assert forall i | 1 <= i < |s| :: s[i] != s[0];
      DropNothing(s[1..], {p});
    }
  }

  /** Index of the first promotion of a run that takes effect. */
  ghost function FirstAccepted(sys: Sys, steps: seq<Step>): (r: Option<nat>)
    requires sys.Shape() && LegalRun(sys, steps)
    ensures r.Some? ==> r.value < |steps|
    decreases |steps|
  {
    if steps == [] then None
    else if Accepted(sys, steps[0]) then Some(0)
    else Shift(1, FirstAccepted(Next(sys, steps[0]), steps[1..]))
  }

  /**
   While no promotion is accepted the leaving zone stays owner and the pending zone stays pending;
   the first accepted one makes exactly the pending zone owner, over the same stack.
   */
  lemma {:induction false} HandoffGoesToPending(sys: Sys, steps: seq<Step>, o: int, p: int)
    requires sys.Shape() && LegalRun(sys, steps) && HandingOff(sys.r, o, p)
    requires forall i | 0 <= i < |steps| :: Bridging(steps[i], p)
    ensures match FirstAccepted(sys, steps)
            case None => HandingOff(Run(sys, steps).r, o, p)
            case Some(k) =>
              LegalRun(sys, steps[..k]) && LegalRun(sys, steps[..k + 1]) &&
              var before := Run(sys, steps[..k]).r;
              var after := Run(sys, steps[..k + 1]).r;
              HandingOff(before, o, p) && after.owner == p && after.handoff == 0 && after.pending == 0 &&
              after.stack == before.stack
    decreases |steps|
  {
    if steps != [] {
      var next := Next(sys, steps[0]);
      if Accepted(sys, steps[0]) {
        AcceptedEndsHandoff(sys, steps[0], o, p);
        assert steps[..1][1..] == [];
      } else {
        BridgingKeeps(sys, steps[0], o, p);
        HandoffGoesToPending(next, steps[1..], o, p);
        match FirstAccepted(next, steps[1..])
        case None =>
        case Some(k) =>
          assert steps[..k + 1][1..] == steps[1..][..k];
          assert steps[..k + 2][1..] == steps[1..][..k + 1];
      }
    }
  }

  // --- A live owner is not disturbed by newcomers -----------------------------------------

  ghost predicate Undisturbed(sys: Sys, o: int) {
    sys.Shape() && Inv(sys.r) && o > 0 && sys.r.handoff == 0 && sys.r.owner == o &&
    (forall t | t in sys.calls && sys.calls[t].Starting? ::
      var c := sys.calls[t];
      c.zone != o && c.probed && c.snap.owner == o && c.playback == o)
  }

  /** Starts of other zones that see live audio from `o`, the zone on the DAC. */
  ghost predicate SeesLive(sys: Sys, step: Step, o: int)
    requires sys.Shape()
  {
    match step
    case StartFirst(_, zone, playback, probed) => zone != o && playback == o && probed
    case StartSecond(tid, prune, defer, _) =>
      tid in sys.calls && sys.calls[tid].Starting? ==>
        SessionActive(sys.calls[tid].snap, prune, o) && SessionActive(sys.calls[tid].snap, defer, o)
    case _ => false
  }

  ghost predicate AllSeeLive(sys: Sys, steps: seq<Step>, o: int)
    requires sys.Shape()
    decreases |steps|
  {
    steps == [] ||
    (SeesLive(sys, steps[0], o) && AllSeeLive(Next(sys, steps[0]), steps[1..], o))
  }

  /** Whoever committed last is pending and stacked. */
  ghost predicate LastIsPending(sys: Sys, from: nat) {
    |sys.log| >= from &&
    (|sys.log| > from ==>
      sys.log[|sys.log| - 1] == Started(sys.r.pending) && sys.r.pending in sys.r.stack)
  }

  lemma NewcomerWaits(sys: Sys, step: Step, o: int, from: nat)
    requires Undisturbed(sys, o) && SeesLive(sys, step, o) && LastIsPending(sys, from)
    ensures Undisturbed(Next(sys, step), o) && LastIsPending(Next(sys, step), from)
  {
    StepInv(sys, step);
    if step.StartSecond? && step.tid in sys.calls && sys.calls[step.tid].Starting? {
      var c := sys.calls[step.tid];
      var probe := Probe(step.prune, step.defer);
      var stack := Pruned(sys.r, c.zone, c.snap, probe);
      assert stack != [] && stack[0] == o;
      assert Defers(stack, c.zone, c.snap, c.playback, probe);
    }
  }

  /** Any number of overlapping starts leaves a live owner in place and the last starter pending. */
  lemma {:induction false} LiveOwnerStays(sys: Sys, steps: seq<Step>, o: int, from: nat)
    requires Undisturbed(sys, o) && LegalRun(sys, steps) && AllSeeLive(sys, steps, o)
    requires LastIsPending(sys, from)
    ensures var t := Run(sys, steps);
            t.r.owner == o && t.r.stack != [] && t.r.stack[0] == o && LastIsPending(t, from)
    decreases |steps|
  {
    if steps != [] {
      NewcomerWaits(sys, steps[0], o, from);
      LiveOwnerStays(Next(sys, steps[0]), steps[1..], o, from);
    }
  }

  /**
   An uninterrupted start of another zone leaves the playing owner in place if and only if both looks,
   while pruning and while choosing to wait, see it live; otherwise the newcomer is the owner.
   */
  lemma TakeoverIff(s: State, z: int, prune: Look, defer: Look, now: int)
    requires Inv(s) && s.handoff == 0 && s.owner > 0 && z != s.owner && On(s.enabled, z)
    ensures var snap := Snapshot(s.owner, s.routedAt);
            var t := StartCommit(s, z, snap, s.owner, Probe(prune, defer), now);
            t.owner == (if SessionActive(snap, prune, s.owner) && SessionActive(snap, defer, s.owner) then s.owner else z)
            && (t.owner == s.owner ==> t.pending == z)
  {
    var snap := Snapshot(s.owner, s.routedAt);
    var stack := Pruned(s, z, snap, Probe(prune, defer));
    assert SessionActive(snap, prune, s.owner) ==> stack != [] && stack[0] == s.owner;
  }

  /** An enabled zone requested through `set_routing` owns the DAC unless a hand-off from another zone is under way. */
  lemma RequestedOwnerIff(s: State, owner: int, zones: seq<int>)
    requires s.Shape() && On(s.enabled, owner) && s.handoff >= 0
    ensures SetRouting(s, owner, zones).owner == owner <==> s.handoff == 0 || s.handoff == owner
    ensures s.handoff > 0 ==> SetRouting(s, owner, zones).owner == s.handoff
  {
  }

  // --- Without activity checks the stack is the history of starts --------------------------

  /** Position of the last `c` in the history, -1 when there is none. */
  ghost function LastOf(log: seq<Commit>, c: Commit): (i: int)
    ensures -1 <= i < |log|
  {
    if log == [] then -1
    else if log[|log| - 1] == c then |log| - 1
    else LastOf(log[..|log| - 1], c)
  }

  lemma {:induction false} LastOfIsLast(log: seq<Commit>, c: Commit)
    ensures LastOf(log, c) >= 0 ==> log[LastOf(log, c)] == c
    ensures forall j | LastOf(log, c) < j < |log| :: log[j] != c
  {
    if log != [] && log[|log| - 1] != c {
      LastOfIsLast(log[..|log| - 1], c);
    }
  }

  /** Started and not ended since. */
  ghost predicate Open(z: int, log: seq<Commit>) { LastOf(log, Started(z)) > LastOf(log, Ended(z)) }

  ghost predicate HoldsOpen(stack: seq<int>, log: seq<Commit>) {
    forall z :: z in stack <==> Open(z, log)
  }

  /** The most recent start first. */
  ghost predicate Newest(stack: seq<int>, log: seq<Commit>) {
    forall i, j | 0 <= i < j < |stack| :: LastOf(log, Started(stack[i])) > LastOf(log, Started(stack[j]))
  }

  ghost predicate StackIsHistory(stack: seq<int>, log: seq<Commit>) {
    HoldsOpen(stack, log) && Newest(stack, log)
  }

  lemma LastOfSnoc(log: seq<Commit>, c: Commit, x: Commit)
    ensures LastOf(log + [c], x) == if x == c then |log| else LastOf(log, x)
  {
    assert (log + [c])[..|log|] == log;
  }

  lemma OpenSnoc(log: seq<Commit>, c: Commit, z: int)
    ensures Open(z, log + [c]) <==> c == Started(z) || (c != Ended(z) && Open(z, log))
  {
    LastOfSnoc(log, c, Started(z));
    LastOfSnoc(log, c, Ended(z));
  }

  ghost predicate PendingLeads(s: State) {
    s.pending > 0 ==> s.stack != [] && s.stack[0] == s.pending
  }

  ghost predicate Plain(step: Step) {
    (step.StartFirst? && !step.probed) || step.StartSecond? || step.PromoteFirst? || step.PromoteSecond? ||
    step.End?
  }

  ghost predicate History(sys: Sys) {
    sys.Shape() && Inv(sys.r) && PendingLeads(sys.r) && StackIsHistory(sys.r.stack, sys.log) &&
    forall t | t in sys.calls && sys.calls[t].Starting? :: !sys.calls[t].probed
  }

  /** Where an element of `Drop` came from, in order. */
  lemma {:induction false} DropOrder(s: seq<int>, gone: set<int>, i: nat, j: nat) returns (a: nat, b: nat)
    requires i < j < |Drop(s, gone)|
    ensures a < b < |s| && s[a] == Drop(s, gone)[i] && s[b] == Drop(s, gone)[j]
  {
    if s[0] in gone {
      a, b := DropOrder(s[1..], gone, i, j);
      a, b := a + 1, b + 1;
    } else if i > 0 {
      a, b := DropOrder(s[1..], gone, i - 1, j - 1);
      a, b := a + 1, b + 1;
    } else {
      a := 0;
      var x := Drop(s, gone)[j];
      assert x == Drop(s[1..], gone)[j - 1] && x in Drop(s[1..], gone);
      var k :| 0 <= k < |s[1..]| && s[1..][k] == x;
      b := k + 1;
    }
  }

  lemma RestIsOther(stack: seq<int>, z: int, i: nat)
    requires 0 < i < |Push(stack, z)|
    ensures i - 1 < |Drop(stack, {z})| && Push(stack, z)[i] == Drop(stack, {z})[i - 1] != z
  {
    assert Drop(stack, {z})[i - 1] in Drop(stack, {z});
  }

  /** What `Drop` keeps stays in order. */
  lemma DropNewest(stack: seq<int>, log: seq<Commit>, z: int, i: nat, j: nat)
    requires Newest(stack, log) && i < j < |Drop(stack, {z})|
    ensures LastOf(log, Started(Drop(stack, {z})[i])) > LastOf(log, Started(Drop(stack, {z})[j]))
  {
    var a, b := DropOrder(stack, {z}, i, j);
    assert LastOf(log, Started(stack[a])) > LastOf(log, Started(stack[b]));
  }

  lemma StartNewest(stack: seq<int>, log: seq<Commit>, z: int)
    requires Newest(stack, log)
    ensures Newest(Push(stack, z), log + [Started(z)])
  {
    var t, l := Push(stack, z), log + [Started(z)];
    forall i, j | 0 <= i < j < |t| ensures LastOf(l, Started(t[i])) > LastOf(l, Started(t[j])) {
      RestIsOther(stack, z, j);
      LastOfSnoc(log, Started(z), Started(t[j]));
      LastOfSnoc(log, Started(z), Started(t[i]));
      if i > 0 {
        RestIsOther(stack, z, i);
        DropNewest(stack, log, z, i - 1, j - 1);
      }
    }
  }

  lemma EndNewest(stack: seq<int>, log: seq<Commit>, z: int)
    requires Newest(stack, log)
    ensures Newest(Drop(stack, {z}), log + [Ended(z)])
  {
    var t, l := Drop(stack, {z}), log + [Ended(z)];
    forall i, j | 0 <= i < j < |t| ensures LastOf(l, Started(t[i])) > LastOf(l, Started(t[j])) {
      DropNewest(stack, log, z, i, j);
      LastOfSnoc(log, Ended(z), Started(t[i]));
      LastOfSnoc(log, Ended(z), Started(t[j]));
    }
  }

  lemma StartHistory(stack: seq<int>, log: seq<Commit>, z: int)
    requires StackIsHistory(stack, log)
    ensures StackIsHistory(Push(stack, z), log + [Started(z)])
  {
    StartNewest(stack, log, z);
    forall x ensures x in Push(stack, z) <==> Open(x, log + [Started(z)]) {
      OpenSnoc(log, Started(z), x);
      assert x in Push(stack, z) <==> x == z || x in Drop(stack, {z});
    }
  }

  lemma EndHistory(stack: seq<int>, log: seq<Commit>, z: int)
    requires StackIsHistory(stack, log)
    ensures StackIsHistory(Drop(stack, {z}), log + [Ended(z)])
  {
    EndNewest(stack, log, z);
    forall x ensures x in Drop(stack, {z}) <==> Open(x, log + [Ended(z)]) {
      OpenSnoc(log, Ended(z), x);
    }
  }

  lemma PromoteHistory(stack: seq<int>, log: seq<Commit>, z: int)
    requires StackIsHistory(stack, log)
    ensures StackIsHistory(stack, log + [Promoted(z)])
  {
    var l := log + [Promoted(z)];
    forall x ensures x in stack <==> Open(x, l) {
      OpenSnoc(log, Promoted(z), x);
    }
    forall i, j | 0 <= i < j < |stack| ensures LastOf(l, Started(stack[i])) > LastOf(l, Started(stack[j])) {
      LastOfSnoc(log, Promoted(z), Started(stack[i]));
      LastOfSnoc(log, Promoted(z), Started(stack[j]));
    }
  }

  lemma PlainStart(s: State, z: int, snap: Snapshot, playback: int, now: int)
    requires s.Shape() && IsZone(z) && s.enabled[z] && |snap.routedAt| == MAX_ZONES + 1
    ensures var t := StartCommit(s, z, snap, playback, NoProbe, now); t.stack == Push(s.stack, z) && t.pending == 0
  {
  }

  lemma PlainEnd(s: State, z: int)
    requires Inv(s) && PendingLeads(s) && On(s.enabled, z)
    ensures PendingLeads(RouteEnd(s, z)) && RouteEnd(s, z).stack == Drop(s.stack, {z})
  {
  }

  /** In such runs the pending zone is the front of the stack, so a promotion moves nothing. */
  lemma PlainStack(sys: Sys, step: Step)
    requires History(sys) && Plain(step)
    ensures PendingLeads(Next(sys, step).r)
    ensures step.PromoteSecond? ==> Next(sys, step).r.stack == sys.r.stack
    ensures step.StartSecond? && |Next(sys, step).log| > |sys.log| ==>
            Next(sys, step).r.stack == Push(sys.r.stack, sys.calls[step.tid].zone)
    ensures step.End? && On(sys.r.enabled, step.zone) ==>
            Next(sys, step).r.stack == Drop(sys.r.stack, {step.zone})
  {
    match step
    case StartSecond(tid, _, _, now) =>
      if tid in sys.calls && sys.calls[tid].Starting? && sys.r.enabled[sys.calls[tid].zone] {
        var c := sys.calls[tid];
        PlainStart(sys.r, c.zone, c.snap, c.playback, now);
      }
    case PromoteSecond(_, _) =>
      if Accepted(sys, step) { PushFront(sys.r.stack, sys.r.pending); }
    case End(z) =>
      if On(sys.r.enabled, z) { PlainEnd(sys.r, z); }
    case _ =>
  }

  lemma PlainLog(sys: Sys, step: Step)
    requires History(sys) && Plain(step)
    ensures StackIsHistory(Next(sys, step).r.stack, Next(sys, step).log)
  {
    PlainStack(sys, step);
    match step
    case StartSecond(tid, _, _, _) =>
      if tid in sys.calls && sys.calls[tid].Starting? {
        StartHistory(sys.r.stack, sys.log, sys.calls[tid].zone);
      }
    case PromoteSecond(tid, _) =>
      PromoteHistory(sys.r.stack, sys.log, sys.r.pending);
    case End(z) =>
      EndHistory(sys.r.stack, sys.log, z);
    case _ =>
  }

  lemma PlainStep(sys: Sys, step: Step)
    requires History(sys) && Plain(step)
    ensures History(Next(sys, step))
  {
    StepInv(sys, step);
    PlainStack(sys, step);
    PlainLog(sys, step);
  }

  lemma {:induction false} PlainRun(sys: Sys, steps: seq<Step>)
    requires History(sys) && LegalRun(sys, steps)
    requires forall i | 0 <= i < |steps| :: Plain(steps[i])
    ensures History(Run(sys, steps))
    decreases |steps|
  {
    if steps != [] {
      PlainStep(sys, steps[0]);
      PlainRun(Next(sys, steps[0]), steps[1..]);
    }
  }

  /** Some start of `z` is followed by no end of it. */
  ghost predicate StartedAndNotEnded(z: int, log: seq<Commit>) {
    exists i | 0 <= i < |log| :: log[i] == Started(z) && forall j | i < j < |log| :: log[j] != Ended(z)
  }

  lemma OpenMeans(z: int, log: seq<Commit>)
    ensures Open(z, log) <==> StartedAndNotEnded(z, log)
  {
    var s, e := LastOf(log, Started(z)), LastOf(log, Ended(z));
    LastOfIsLast(log, Started(z));
    LastOfIsLast(log, Ended(z));
    if s > e {
      assert log[s] == Started(z);
    }
  }

  /**
   In runs of one-argument starts, ends and promotions the stack holds exactly the zones with a start that
   is followed by no end, and a zone nearer the front has the later last start.
   */
  lemma StackIsWhoStartedLast(sys: Sys, steps: seq<Step>)
    requires History(sys) && LegalRun(sys, steps)
    requires forall i | 0 <= i < |steps| :: Plain(steps[i])
    ensures var t := Run(sys, steps);
            && (forall z :: z in t.r.stack <==> StartedAndNotEnded(z, t.log))
            && Newest(t.r.stack, t.log) && PendingLeads(t.r)
  {
    PlainRun(sys, steps);
    var t := Run(sys, steps);
    forall z ensures z in t.r.stack <==> StartedAndNotEnded(z, t.log) {
      OpenMeans(z, t.log);
    }
  }

  lemma BootedHistory(mask: seq<bool>)
    requires |mask| == MAX_ZONES + 1
    ensures History(Booted(mask))
  {
  }
}
