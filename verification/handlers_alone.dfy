/** A handler that nobody interrupts does and says what the service's handler does. */
module HandlersAlone {
  import opened Text
  import opened Routing
  import opened RoutingRuns
  import opened OwnerEvents
  import opened Handlers
  import opened OwnerTurns

  function Line(w: Worker, s: State): seq<Event>
    requires w.turns != [] && s.Shape()
  {
    match Told(w, s)
    case None => []
    case Some(e) => [e]
  }

  /** The turns of one thread, from first to last: where they take the router, and what is published. */
  ghost function Alone(sys: Sys, w: Worker, zoneCount: int): (Sys, seq<Event>)
    requires sys.Shape()
    decreases |w.turns|
  {
    if w.turns == [] then (sys, [])
    else if !w.turns[0].Do? then
      var (n, es) := Alone(sys, Rested(w, sys.r, zoneCount), zoneCount);
      (n, Line(w, sys.r) + es)
    else if Legal(sys, w.turns[0].step) then
      var step := w.turns[0].step;
      Alone(Next(sys, step), Worked(w, OutcomeOf(sys, step), DisabledTo(sys, step)), zoneCount)
    else (sys, [])
  }

  /** The events that either of the two processes heeds. */
  function Heeded(es: seq<Event>): seq<Event> {
    if es == [] then []
    else if es[0].ZoneCaptureClosed? || es[0].ZoneDisabled? then Heeded(es[1..])
    else [es[0]] + Heeded(es[1..])
  }

  // --- One turn ---------------------------------------------------------------------------

  lemma AloneNotes(sys: Sys, w: Worker, rest: seq<Turn>, zoneCount: int)
    requires sys.Shape() && w.turns == [Note] + rest
    ensures Alone(sys, w, zoneCount) ==
            Alone(sys, w.(turns := rest, previousOwner := sys.r.owner, previousPending := sys.r.pending), zoneCount)
  {
    assert w.turns[1..] == rest;
    var es := Alone(sys, Rested(w, sys.r, zoneCount), zoneCount).1;
    assert [] + es == es;
  }

  lemma AloneFinds(sys: Sys, w: Worker, zone: int, rest: seq<Turn>, zoneCount: int)
    requires sys.Shape() && w.turns == [Find(zone)] + rest
    ensures Alone(sys, w, zoneCount) ==
            Alone(sys, w.(turns := rest, known := 1 <= zone <= zoneCount && On(sys.r.enabled, zone)), zoneCount)
  {
    assert w.turns[1..] == rest;
    var es := Alone(sys, Rested(w, sys.r, zoneCount), zoneCount).1;
    assert [] + es == es;
  }

  lemma AloneDoes(sys: Sys, w: Worker, step: Step, rest: seq<Turn>, zoneCount: int)
    requires sys.Shape() && w.turns == [Do(step)] + rest && Legal(sys, step)
    ensures Alone(sys, w, zoneCount) ==
            Alone(Next(sys, step),
                  w.(turns := rest, outcome := OutcomeOf(sys, step), disabledTo := DisabledTo(sys, step)),
                  zoneCount)
  {
    assert w.turns[1..] == rest;
  }

  lemma AloneTells(sys: Sys, w: Worker, turn: Turn, rest: seq<Turn>, zoneCount: int)
    requires sys.Shape() && w.turns == [turn] + rest && !turn.Do? && !turn.Note? && !turn.Find?
    ensures var (n, es) := Alone(sys, w.(turns := rest), zoneCount);
            Alone(sys, w, zoneCount) == (n, Line(w, sys.r) + es)
  {
    assert w.turns[1..] == rest;
  }

  // --- Reports ----------------------------------------------------------------------------

  lemma OwnerTold(w: Worker, s: State, before: State, when: When, rest: seq<Turn>)
    requires s.Shape() && w.turns == [TellPending(when)] + ([TellOwner(when)] + rest)
    requires w.previousOwner == before.owner && w.previousPending == before.pending
    ensures Line(w, s) + Line(w.(turns := [TellOwner(when)] + rest), s) ==
            if Holds(when, w.outcome, w.known) then OwnerEventsOf(before, s) else []
  {
  }

  lemma Regroup(a: seq<Event>, b: seq<Event>, c: seq<Event>)
    ensures a + (b + c) == (a + b) + c
  {
  }

  lemma AloneOwner(sys: Sys, w: Worker, before: State, when: When, rest: seq<Turn>, zoneCount: int)
    requires sys.Shape() && w.turns == [TellPending(when)] + ([TellOwner(when)] + rest)
    requires w.previousOwner == before.owner && w.previousPending == before.pending
    ensures var (n, es) := Alone(sys, w.(turns := rest), zoneCount);
            Alone(sys, w, zoneCount) ==
            (n, (if Holds(when, w.outcome, w.known) then OwnerEventsOf(before, sys.r) else []) + es)
  {
    var v := w.(turns := [TellOwner(when)] + rest);
    AloneTells(sys, w, TellPending(when), [TellOwner(when)] + rest, zoneCount);
    AloneTells(sys, v, TellOwner(when), rest, zoneCount);
    OwnerTold(w, sys.r, before, when, rest);
    Regroup(Line(w, sys.r), Line(v, sys.r), Alone(sys, w.(turns := rest), zoneCount).1);
  }

  lemma AloneSnapshot(sys: Sys, w: Worker, when: When, rest: seq<Turn>, zoneCount: int)
    requires sys.Shape() && w.turns == [TellSnapshot(when)] + rest
    ensures var (n, es) := Alone(sys, w.(turns := rest), zoneCount);
            Alone(sys, w, zoneCount) ==
            (n, (if Holds(when, w.outcome, w.known) then [SnapshotOf(sys.r)] else []) + es)
  {
    AloneTells(sys, w, TellSnapshot(when), rest, zoneCount);
  }

  lemma AloneReport(sys: Sys, w: Worker, before: State, zoneCount: int)
    requires sys.Shape() && w.turns == TAIL
    requires w.previousOwner == before.owner && w.previousPending == before.pending
    ensures Alone(sys, w, zoneCount) == (sys, ReportOf(before, sys.r))
  {
    var two := [TellSnapshot(Always), TellChanged];
    assert TAIL == [TellPending(Always)] + ([TellOwner(Always)] + two);
    AloneOwner(sys, w, before, Always, two, zoneCount);
    assert two == [TellSnapshot(Always)] + [TellChanged];
    AloneSnapshot(sys, w.(turns := two), Always, [TellChanged], zoneCount);
    assert [TellChanged] == [TellChanged] + [];
    AloneTells(sys, w.(turns := [TellChanged]), TellChanged, [], zoneCount);
    var r := sys.r;
    assert OwnerEventsOf(before, r) + ([SnapshotOf(r)] + ([ChangedOf(r)] + [])) == ReportOf(before, r);
  }

  lemma AloneNews(sys: Sys, w: Worker, before: State, when: When, zoneCount: int)
    requires sys.Shape() && w.turns == [TellPending(when), TellOwner(when), TellSnapshot(when)]
    requires w.previousOwner == before.owner && w.previousPending == before.pending
    ensures Alone(sys, w, zoneCount) ==
            (sys, if Holds(when, w.outcome, w.known) then OwnerEventsOf(before, sys.r) + [SnapshotOf(sys.r)] else [])
  {
    var one := [TellSnapshot(when)];
    assert w.turns == [TellPending(when)] + ([TellOwner(when)] + one) && one == one + [];
    AloneOwner(sys, w, before, when, one, zoneCount);
    AloneSnapshot(sys, w.(turns := one), when, [], zoneCount);
    assert [SnapshotOf(sys.r)] + [] == [SnapshotOf(sys.r)];
  }

  // --- Changes made in several steps ------------------------------------------------------

  /** The thread has made changes of the router and has `tail` left. */
  predicate Left(w: Worker, v: Worker, tail: seq<Turn>) {
    v.turns == tail && v.previousOwner == w.previousOwner && v.previousPending == w.previousPending
  }

  lemma AloneStarts(sys: Sys, tid: nat, q: Request, w: Worker, tail: seq<Turn>, zoneCount: int)
    returns (n: Sys, v: Worker)
    requires sys.Shape() && q.RouteStartRequest? && tid !in sys.calls
    requires w.turns == [Do(StartFirst(tid, q.zone, q.playback, true))] +
                        ([Do(StartSecond(tid, q.prune, q.defer, q.now))] + tail)
    ensures n.Shape() && n.r == RouteStart(sys.r, q) && Left(w, v, tail)
    ensures Alone(sys, w, zoneCount) == Alone(n, v, zoneCount)
  {
    var first, second := StartFirst(tid, q.zone, q.playback, true), StartSecond(tid, q.prune, q.defer, q.now);
    var m := Next(sys, first);
    AloneDoes(sys, w, first, [Do(second)] + tail, zoneCount);
    v := w.(turns := [Do(second)] + tail, outcome := OutcomeOf(sys, first), disabledTo := DisabledTo(sys, first));
    AloneDoes(m, v, second, tail, zoneCount);
    n := Next(m, second);
    v := v.(turns := tail, outcome := OutcomeOf(m, second), disabledTo := DisabledTo(m, second));
  }

  lemma AlonePromotes(sys: Sys, tid: nat, ready: bool, w: Worker, tail: seq<Turn>, zoneCount: int)
    returns (n: Sys, v: Worker)
    requires sys.Shape() && tid !in sys.calls
    requires w.turns == [Do(PromoteFirst(tid))] + ([Do(PromoteSecond(tid, ready))] + tail)
    ensures n.Shape() && (n.r, v.outcome.promoted) == TryPromote(sys.r, ready) && Left(w, v, tail)
    ensures Alone(sys, w, zoneCount) == Alone(n, v, zoneCount)
  {
    var first, second := PromoteFirst(tid), PromoteSecond(tid, ready);
    var m := Next(sys, first);
    AloneDoes(sys, w, first, [Do(second)] + tail, zoneCount);
    v := w.(turns := [Do(second)] + tail, outcome := OutcomeOf(sys, first), disabledTo := DisabledTo(sys, first));
    AloneDoes(m, v, second, tail, zoneCount);
    n := Next(m, second);
    v := v.(turns := tail, outcome := OutcomeOf(m, second), disabledTo := DisabledTo(m, second));
  }

  lemma AloneEnds(sys: Sys, tid: nat, zone: int, ready: bool, w: Worker, tail: seq<Turn>, zoneCount: int)
    returns (n: Sys, v: Worker)
    requires sys.Shape() && tid !in sys.calls
    requires w.turns == [Do(End(zone))] + ([Do(PromoteFirst(tid))] + ([Do(PromoteSecond(tid, ready))] + tail))
    ensures n.Shape() && n.r == TryPromote(RouteEnd(sys.r, zone), ready).0 && Left(w, v, tail)
    ensures Alone(sys, w, zoneCount) == Alone(n, v, zoneCount)
  {
    var rest := [Do(PromoteFirst(tid))] + ([Do(PromoteSecond(tid, ready))] + tail);
    AloneDoes(sys, w, End(zone), rest, zoneCount);
    v := w.(turns := rest, outcome := OutcomeOf(sys, End(zone)), disabledTo := DisabledTo(sys, End(zone)));
    n, v := AlonePromotes(Next(sys, End(zone)), tid, ready, v, tail, zoneCount);
  }

  // --- Whole handlers ---------------------------------------------------------------------

  lemma TurnsFirst(item: Item, items: seq<Item>)
    ensures Turns([item] + items) == TurnsOf(item) + Turns(items)
  {
    assert ([item] + items)[1..] == items;
  }

  /** No event in it is beneath notice. */
  lemma {:induction false} HeededAll(es: seq<Event>)
    requires forall i | 0 <= i < |es| :: !es[i].ZoneCaptureClosed? && !es[i].ZoneDisabled?
    ensures Heeded(es) == es
  {
    if es != [] {
      assert !es[0].ZoneCaptureClosed? && !es[0].ZoneDisabled?;
      HeededAll(es[1..]);
      assert es == [es[0]] + es[1..];
    }
  }

  /** The uninterrupted turns of a handler amount to one step of the service. */
  ghost predicate Agrees(sys: Sys, tid: nat, t: Trigger, zoneCount: int)
    requires sys.Shape() && Accepts(t)
  {
    var (n, es) := Alone(sys, NewWorker(Turns(Items(tid, t))), zoneCount);
    n.r == After(sys.r, t) && es == Heeded(Emitted(sys.r, t, zoneCount))
  }

  lemma EndOfHandler()
    ensures Turns([OwnerNews(Always), Report]) == TAIL
    ensures Turns([OwnerNews(Always), News(Always)]) == [TellPending(Always), TellOwner(Always), TellSnapshot(Always)]
  {
    assert [OwnerNews(Always), Report][1..] == [Report] && [Report][1..] == [];
    assert [OwnerNews(Always), News(Always)][1..] == [News(Always)] && [News(Always)][1..] == [];
  }

  lemma StartTurns(tid: nat, q: Request, tail: seq<Item>)
    requires q.RouteStartRequest?
    ensures Turns([Noted] + (StartItems(tid, q) + tail)) ==
            [Note] + ([Do(StartFirst(tid, q.zone, q.playback, true))] +
                      ([Do(StartSecond(tid, q.prune, q.defer, q.now))] + Turns(tail)))
  {
    var first, second := Done(StartFirst(tid, q.zone, q.playback, true)), Done(StartSecond(tid, q.prune, q.defer, q.now));
    TurnsFirst(second, tail);
    TurnsFirst(first, [second] + tail);
    TurnsFirst(Noted, [first] + ([second] + tail));
    assert StartItems(tid, q) + tail == [first] + ([second] + tail);
  }

  lemma EndTurns(tid: nat, zone: int, ready: bool, tail: seq<Item>)
    ensures Turns([Noted] + (EndItems(tid, zone, ready) + tail)) ==
            [Note] + ([Do(End(zone))] +
                      ([Do(PromoteFirst(tid))] + ([Do(PromoteSecond(tid, ready))] + Turns(tail))))
  {
    var first, second := Done(PromoteFirst(tid)), Done(PromoteSecond(tid, ready));
    TurnsFirst(second, tail);
    TurnsFirst(first, [second] + tail);
    TurnsFirst(Done(End(zone)), [first] + ([second] + tail));
    TurnsFirst(Noted, [Done(End(zone))] + ([first] + ([second] + tail)));
    assert EndItems(tid, zone, ready) + tail == [Done(End(zone))] + ([first] + ([second] + tail));
  }

  /** A thread that has noted owner and pending zone of `s`. */
  predicate HasNoted(w: Worker, s: State) { w.previousOwner == s.owner && w.previousPending == s.pending }

  lemma Notes(sys: Sys, rest: seq<Turn>, zoneCount: int) returns (w: Worker)
    requires sys.Shape()
    ensures HasNoted(w, sys.r) && w.turns == rest
    ensures Alone(sys, NewWorker([Note] + rest), zoneCount) == Alone(sys, w, zoneCount)
  {
    w := NewWorker(rest).(previousOwner := sys.r.owner, previousPending := sys.r.pending);
    AloneNotes(sys, NewWorker([Note] + rest), rest, zoneCount);
  }

  const NEWS := [TellPending(Always), TellOwner(Always), TellSnapshot(Always)]

  function StartTurnsOf(tid: nat, q: Request, tail: seq<Turn>): seq<Turn>
    requires q.RouteStartRequest?
  {
    [Do(StartFirst(tid, q.zone, q.playback, true))] + ([Do(StartSecond(tid, q.prune, q.defer, q.now))] + tail)
  }

  lemma StartReports(sys: Sys, tid: nat, q: Request, zoneCount: int)
    requires sys.Shape() && q.RouteStartRequest? && tid !in sys.calls
    ensures var (n, es) := Alone(sys, NewWorker([Note] + StartTurnsOf(tid, q, TAIL)), zoneCount);
            n.r == RouteStart(sys.r, q) && es == ReportOf(sys.r, n.r)
  {
    var w := Notes(sys, StartTurnsOf(tid, q, TAIL), zoneCount);
    var n, v := AloneStarts(sys, tid, q, w, TAIL, zoneCount);
    AloneReport(n, v, sys.r, zoneCount);
  }

  lemma StartTells(sys: Sys, tid: nat, q: Request, zoneCount: int)
    requires sys.Shape() && q.RouteStartRequest? && tid !in sys.calls
    ensures var (n, es) := Alone(sys, NewWorker([Note] + StartTurnsOf(tid, q, NEWS)), zoneCount);
            n.r == RouteStart(sys.r, q) && es == OwnerEventsOf(sys.r, n.r) + [SnapshotOf(n.r)]
  {
    var w := Notes(sys, StartTurnsOf(tid, q, NEWS), zoneCount);
    var n, v := AloneStarts(sys, tid, q, w, NEWS, zoneCount);
    AloneNews(n, v, sys.r, Always, zoneCount);
  }

  lemma SocketStart(sys: Sys, tid: nat, q: Request, zoneCount: int)
    requires sys.Shape() && q.RouteStartRequest? && tid !in sys.calls
    ensures Agrees(sys, tid, Socket(q), zoneCount)
  {
    EndOfHandler();
    StartTurns(tid, q, [OwnerNews(Always), Report]);
    StartReports(sys, tid, q, zoneCount);
    HeededAll(ReportOf(sys.r, RouteStart(sys.r, q)));
  }

  lemma BrokerStart(sys: Sys, tid: nat, q: Request, zoneCount: int)
    requires sys.Shape() && q.RouteStartRequest? && tid !in sys.calls
    ensures Agrees(sys, tid, Broker(q), zoneCount)
  {
    EndOfHandler();
    StartTurns(tid, q, [OwnerNews(Always), News(Always)]);
    StartTells(sys, tid, q, zoneCount);
    var r := RouteStart(sys.r, q);
    HeededAll(OwnerEventsOf(sys.r, r) + [SnapshotOf(r)]);
  }

  lemma EndReports(sys: Sys, tid: nat, zone: int, ready: bool, zoneCount: int)
    requires sys.Shape() && tid !in sys.calls
    ensures var rest := [Do(End(zone))] + ([Do(PromoteFirst(tid))] + ([Do(PromoteSecond(tid, ready))] + TAIL));
            var (n, es) := Alone(sys, NewWorker([Note] + rest), zoneCount);
            n.r == TryPromote(RouteEnd(sys.r, zone), ready).0 && es == ReportOf(sys.r, n.r)
  {
    var rest := [Do(End(zone))] + ([Do(PromoteFirst(tid))] + ([Do(PromoteSecond(tid, ready))] + TAIL));
    var w := Notes(sys, rest, zoneCount);
    var n, v := AloneEnds(sys, tid, zone, ready, w, TAIL, zoneCount);
    AloneReport(n, v, sys.r, zoneCount);
  }

  /** The socket and the broker end a route alike. */
  lemma EndAlone(sys: Sys, tid: nat, zone: int, ready: bool, zoneCount: int)
    requires sys.Shape() && tid !in sys.calls
    ensures Agrees(sys, tid, Socket(RouteEndRequest(zone, ready)), zoneCount)
    ensures Agrees(sys, tid, Broker(RouteEndRequest(zone, ready)), zoneCount)
  {
    EndOfHandler();
    EndTurns(tid, zone, ready, [OwnerNews(Always), Report]);
    EndReports(sys, tid, zone, ready, zoneCount);
    HeededAll(ReportOf(sys.r, TryPromote(RouteEnd(sys.r, zone), ready).0));
  }

  lemma RouteReports(sys: Sys, step: Step, zoneCount: int)
    requires sys.Shape() && step.Route? && Legal(sys, step)
    ensures var (n, es) := Alone(sys, NewWorker([Note] + ([Do(step)] + TAIL)), zoneCount);
            n == Next(sys, step) && es == ReportOf(sys.r, n.r)
  {
    var w := Notes(sys, [Do(step)] + TAIL, zoneCount);
    AloneDoes(sys, w, step, TAIL, zoneCount);
    var v := w.(turns := TAIL, outcome := OutcomeOf(sys, step), disabledTo := DisabledTo(sys, step));
    AloneReport(Next(sys, step), v, sys.r, zoneCount);
  }

  lemma RouteAlone(sys: Sys, tid: nat, owner: int, zones: seq<int>, zoneCount: int)
    requires sys.Shape() && owner <= MAX_ZONES && RequestDupFree(sys.r, owner, zones)
    ensures Agrees(sys, tid, Socket(SetRoutingRequest(owner, zones)), zoneCount)
  {
    var step, tail := Route(owner, zones), [OwnerNews(Always), Report];
    EndOfHandler();
    TurnsFirst(Done(step), tail);
    TurnsFirst(Noted, [Done(step)] + tail);
    assert SocketItems(tid, SetRoutingRequest(owner, zones)) == [Noted] + ([Done(step)] + tail);
    RouteReports(sys, step, zoneCount);
    HeededAll(ReportOf(sys.r, SetRouting(sys.r, owner, zones)));
  }

  lemma OtherAlone(sys: Sys, tid: nat, zoneCount: int)
    requires sys.Shape()
    ensures Agrees(sys, tid, Socket(OtherRequest), zoneCount)
  {
    EndOfHandler();
    TurnsFirst(Noted, [OwnerNews(Always), Report]);
    assert SocketItems(tid, OtherRequest) == [Noted] + [OwnerNews(Always), Report];
    var w := Notes(sys, TAIL, zoneCount);
    AloneReport(sys, w, sys.r, zoneCount);
    HeededAll(ReportOf(sys.r, sys.r));
  }

  // --- Joins, prewarming and enabling -----------------------------------------------------

  /** `handle_prewarm_capture`, in the middle of a handler or at its end. */
  lemma AlonePrewarms(sys: Sys, w: Worker, zone: int, rest: seq<Turn>, zoneCount: int) returns (v: Worker)
    requires sys.Shape() && w.turns == [Find(zone)] + ([TellSnapshot(IfKnown)] + rest)
    ensures Left(w, v, rest)
    ensures var (n, es) := Alone(sys, v, zoneCount);
            Alone(sys, w, zoneCount) == (n, PrewarmEvents(sys.r, zone, zoneCount) + es)
  {
    AloneFinds(sys, w, zone, [TellSnapshot(IfKnown)] + rest, zoneCount);
    var u := w.(turns := [TellSnapshot(IfKnown)] + rest, known := 1 <= zone <= zoneCount && On(sys.r.enabled, zone));
    AloneSnapshot(sys, u, IfKnown, rest, zoneCount);
    v := u.(turns := rest);
  }

  lemma AloneJoins(sys: Sys, w: Worker, zone: int, rest: seq<Turn>, zoneCount: int) returns (n: Sys, v: Worker)
    requires sys.Shape() && w.turns == [Do(Join(zone))] + ([Find(zone)] + ([TellSnapshot(IfKnown)] + rest))
    ensures n.Shape() && n.r == RouteJoin(sys.r, zone) && Left(w, v, rest)
    ensures var (m, es) := Alone(n, v, zoneCount);
            Alone(sys, w, zoneCount) == (m, PrewarmEvents(n.r, zone, zoneCount) + es)
  {
    var step := Join(zone);
    AloneDoes(sys, w, step, [Find(zone)] + ([TellSnapshot(IfKnown)] + rest), zoneCount);
    n := Next(sys, step);
    v := AlonePrewarms(n, w.(turns := [Find(zone)] + ([TellSnapshot(IfKnown)] + rest),
                             outcome := OutcomeOf(sys, step), disabledTo := DisabledTo(sys, step)),
                       zone, rest, zoneCount);
  }

  lemma JoinItems(zone: int, tail: seq<Item>)
    ensures Turns([Done(Join(zone)), Asked(zone), News(IfKnown)] + tail) ==
            [Do(Join(zone))] + ([Find(zone)] + ([TellSnapshot(IfKnown)] + Turns(tail)))
  {
    TurnsFirst(News(IfKnown), tail);
    TurnsFirst(Asked(zone), [News(IfKnown)] + tail);
    TurnsFirst(Done(Join(zone)), [Asked(zone)] + ([News(IfKnown)] + tail));
    assert [Done(Join(zone)), Asked(zone), News(IfKnown)] + tail ==
           [Done(Join(zone))] + ([Asked(zone)] + ([News(IfKnown)] + tail));
  }

  lemma JoinReports(sys: Sys, zone: int, zoneCount: int)
    requires sys.Shape()
    ensures var rest := [Do(Join(zone))] + ([Find(zone)] + ([TellSnapshot(IfKnown)] + TAIL));
            var (n, es) := Alone(sys, NewWorker([Note] + rest), zoneCount);
            n.r == RouteJoin(sys.r, zone) && es == PrewarmEvents(n.r, zone, zoneCount) + ReportOf(sys.r, n.r)
  {
    var w := Notes(sys, [Do(Join(zone))] + ([Find(zone)] + ([TellSnapshot(IfKnown)] + TAIL)), zoneCount);
    var n, v := AloneJoins(sys, w, zone, TAIL, zoneCount);
    AloneReport(n, v, sys.r, zoneCount);
  }

  lemma SocketJoinTurns(tid: nat, zone: int)
    ensures Turns(Items(tid, Socket(RouteJoinRequest(zone)))) ==
            [Note] + ([Do(Join(zone))] + ([Find(zone)] + ([TellSnapshot(IfKnown)] + TAIL)))
  {
    var items := [Done(Join(zone)), Asked(zone), News(IfKnown)] + [OwnerNews(Always), Report];
    EndOfHandler();
    JoinItems(zone, [OwnerNews(Always), Report]);
    TurnsFirst(Noted, items);
    assert SocketItems(tid, RouteJoinRequest(zone)) == [Noted] + items;
  }

  lemma SocketJoin(sys: Sys, tid: nat, zone: int, zoneCount: int)
    requires sys.Shape()
    ensures Agrees(sys, tid, Socket(RouteJoinRequest(zone)), zoneCount)
  {
    var r := RouteJoin(sys.r, zone);
    SocketJoinTurns(tid, zone);
    JoinReports(sys, zone, zoneCount);
    HeededAll(PrewarmEvents(r, zone, zoneCount) + ReportOf(sys.r, r));
  }

  lemma BrokerJoin(sys: Sys, tid: nat, zone: int, zoneCount: int)
    requires sys.Shape()
    ensures Agrees(sys, tid, Broker(RouteJoinRequest(zone)), zoneCount)
  {
    var items := [Done(Join(zone)), Asked(zone), News(IfKnown)] + [News(Always)];
    JoinItems(zone, [News(Always)]);
    assert [News(Always)][1..] == [] && [TellSnapshot(Always)] == [TellSnapshot(Always)] + [];
    assert BrokerItems(tid, RouteJoinRequest(zone)) == items;
    var n, v := AloneJoins(sys, NewWorker(Turns(items)), zone, [TellSnapshot(Always)], zoneCount);
    AloneSnapshot(n, v, Always, [], zoneCount);
    HeededAll(PrewarmEvents(n.r, zone, zoneCount) + [SnapshotOf(n.r)]);
  }

  function PrewarmTurns(zone: int): seq<Turn> { [Find(zone)] + ([TellSnapshot(IfKnown)] + []) }

  lemma PrewarmItems(tid: nat, zone: int)
    ensures Turns(Items(tid, Broker(PrewarmRequest(zone)))) == PrewarmTurns(zone)
    ensures Turns(Items(tid, Socket(PrewarmRequest(zone)))) == [Note] + PrewarmTurns(zone)
  {
    var items := [Asked(zone)] + ([News(IfKnown)] + []);
    TurnsFirst(News(IfKnown), []);
    TurnsFirst(Asked(zone), [News(IfKnown)] + []);
    TurnsFirst(Noted, items);
    assert BrokerItems(tid, PrewarmRequest(zone)) == items;
    assert SocketItems(tid, PrewarmRequest(zone)) == [Noted] + items;
  }

  lemma PrewarmTells(sys: Sys, w: Worker, zone: int, zoneCount: int)
    requires sys.Shape() && w.turns == PrewarmTurns(zone)
    ensures Alone(sys, w, zoneCount) == (sys, PrewarmEvents(sys.r, zone, zoneCount))
  {
    var v := AlonePrewarms(sys, w, zone, [], zoneCount);
    assert PrewarmEvents(sys.r, zone, zoneCount) + [] == PrewarmEvents(sys.r, zone, zoneCount);
  }

  lemma PrewarmAlone(sys: Sys, tid: nat, zone: int, zoneCount: int)
    requires sys.Shape()
    ensures Agrees(sys, tid, Socket(PrewarmRequest(zone)), zoneCount)
    ensures Agrees(sys, tid, Broker(PrewarmRequest(zone)), zoneCount)
  {
    hide Alone;
    PrewarmItems(tid, zone);
    var w := Notes(sys, PrewarmTurns(zone), zoneCount);
    PrewarmTells(sys, w, zone, zoneCount);
    PrewarmTells(sys, NewWorker(PrewarmTurns(zone)), zone, zoneCount);
    HeededAll(PrewarmEvents(sys.r, zone, zoneCount));
  }

  function EnableTurns(zone: int, on: bool): seq<Turn> {
    [Do(Enable(zone, on))] + ([TellSnapshot(IfChanged)] + ([TellDisabled] + []))
  }

  lemma EnableItems(zone: int, on: bool)
    ensures Turns([Done(Enable(zone, on)), News(IfChanged), DisabledNews]) == EnableTurns(zone, on)
  {
    TurnsFirst(DisabledNews, []);
    TurnsFirst(News(IfChanged), [DisabledNews] + []);
    TurnsFirst(Done(Enable(zone, on)), [News(IfChanged)] + ([DisabledNews] + []));
    assert [Done(Enable(zone, on)), News(IfChanged), DisabledNews] ==
           [Done(Enable(zone, on))] + ([News(IfChanged)] + ([DisabledNews] + []));
  }

  /** The snapshot, and the owner that the disabling led to. */
  function EnableLines(s: State, zone: int, on: bool): seq<Event>
    requires s.Shape()
  {
    var (t, change) := SetEnabled(s, zone, on);
    (if change.changed then [SnapshotOf(t)] else []) +
    (if change.ownerChanged then [OwnerChanged(change.newOwner, None, t.stack)] else [])
  }

  lemma AloneEnables(sys: Sys, w: Worker, zone: int, on: bool, zoneCount: int)
    requires sys.Shape() && w.turns == EnableTurns(zone, on)
    ensures var (n, es) := Alone(sys, w, zoneCount);
            n.r == SetEnabled(sys.r, zone, on).0 && es == EnableLines(sys.r, zone, on)
  {
    var step := Enable(zone, on);
    var n, rest := Next(sys, step), [TellSnapshot(IfChanged)] + ([TellDisabled] + []);
    AloneDoes(sys, w, step, rest, zoneCount);
    var v := w.(turns := rest, outcome := OutcomeOf(sys, step), disabledTo := DisabledTo(sys, step));
    AloneSnapshot(n, v, IfChanged, [TellDisabled] + [], zoneCount);
    AloneTells(n, v.(turns := [TellDisabled] + []), TellDisabled, [], zoneCount);
  }

  lemma EnableHeeded(s: State, zone: int, on: bool)
    requires s.Shape()
    ensures Heeded(SetEnabledEvents(s, zone, on)) == EnableLines(s, zone, on)
  {
    var (t, change) := SetEnabled(s, zone, on);
    var tail := if change.ownerChanged then [OwnerChanged(change.newOwner, None, t.stack)] else [];
    HeededAll(tail);
    if change.changed && !on {
      var disabled := [ZoneDisabled(zone)] + tail;
      var snapshot := [SnapshotOf(t)] + disabled;
      assert disabled[1..] == tail && snapshot[1..] == disabled;
      assert SetEnabledEvents(s, zone, on) == [ZoneCaptureClosed(zone)] + snapshot;
      assert ([ZoneCaptureClosed(zone)] + snapshot)[1..] == snapshot;
      assert Heeded(disabled) == tail && Heeded(snapshot) == [SnapshotOf(t)] + tail;
    } else if change.changed {
      HeededAll([SnapshotOf(t)]);
    }
  }

  lemma EnableAlone(sys: Sys, tid: nat, zone: int, on: bool, zoneCount: int)
    requires sys.Shape()
    ensures Agrees(sys, tid, Socket(SetZoneEnabledRequest(zone, on)), zoneCount)
    ensures Agrees(sys, tid, Broker(SetZoneEnabledRequest(zone, on)), zoneCount)
  {
    var items := [Done(Enable(zone, on)), News(IfChanged), DisabledNews];
    EnableItems(zone, on);
    TurnsFirst(Noted, items);
    assert SocketItems(tid, SetZoneEnabledRequest(zone, on)) == [Noted] + items;
    var w := Notes(sys, EnableTurns(zone, on), zoneCount);
    AloneEnables(sys, w, zone, on, zoneCount);
    AloneEnables(sys, NewWorker(EnableTurns(zone, on)), zone, on, zoneCount);
    EnableHeeded(sys.r, zone, on);
  }

  // --- The service's own loop -------------------------------------------------------------

  const PROMOTED := [TellPending(IfPromoted), TellOwner(IfPromoted), TellSnapshot(IfPromoted)]

  lemma TickTurns(tid: nat, ready: bool)
    ensures Turns(Items(tid, PromotionTick(ready))) ==
            [Note] + ([Do(PromoteFirst(tid))] + ([Do(PromoteSecond(tid, ready))] + PROMOTED))
  {
    var first, second := Done(PromoteFirst(tid)), Done(PromoteSecond(tid, ready));
    var last := [OwnerNews(IfPromoted), News(IfPromoted)];
    assert last[1..] == [News(IfPromoted)] && [News(IfPromoted)][1..] == [];
    assert Turns(last) == PROMOTED;
    TurnsFirst(second, last);
    TurnsFirst(first, [second] + last);
    TurnsFirst(Noted, [first] + ([second] + last));
    assert Items(tid, PromotionTick(ready)) == [Noted] + ([first] + ([second] + last));
  }

  function PromotionLines(before: State, after: State, promoted: bool): seq<Event>
    requires after.Shape()
  {
    if promoted then OwnerEventsOf(before, after) + [SnapshotOf(after)] else []
  }

  lemma TickReports(sys: Sys, tid: nat, ready: bool, zoneCount: int)
    requires sys.Shape() && tid !in sys.calls
    ensures var rest := [Do(PromoteFirst(tid))] + ([Do(PromoteSecond(tid, ready))] + PROMOTED);
            var (n, es) := Alone(sys, NewWorker([Note] + rest), zoneCount);
            n.r == TryPromote(sys.r, ready).0 && es == PromotionLines(sys.r, n.r, TryPromote(sys.r, ready).1)
  {
    var w := Notes(sys, [Do(PromoteFirst(tid))] + ([Do(PromoteSecond(tid, ready))] + PROMOTED), zoneCount);
    var n, v := AlonePromotes(sys, tid, ready, w, PROMOTED, zoneCount);
    AloneNews(n, v, sys.r, IfPromoted, zoneCount);
  }

  lemma TickAlone(sys: Sys, tid: nat, ready: bool, zoneCount: int)
    requires sys.Shape() && tid !in sys.calls
    ensures Agrees(sys, tid, PromotionTick(ready), zoneCount)
  {
    var (r, promoted) := TryPromote(sys.r, ready);
    TickTurns(tid, ready);
    TickReports(sys, tid, ready, zoneCount);
    HeededAll(PromotionLines(sys.r, r, promoted));
  }

  lemma {:induction false} HeededClosed(closed: seq<int>, es: seq<Event>)
    ensures Heeded(seq(|closed|, i requires 0 <= i < |closed| => ZoneCaptureClosed(closed[i])) + es) == Heeded(es)
    decreases |closed|
  {
    var all := seq(|closed|, i requires 0 <= i < |closed| => ZoneCaptureClosed(closed[i]));
    if closed == [] {
      assert all + es == es;
    } else {
      var rest := seq(|closed[1..]|, i requires 0 <= i < |closed[1..]| => ZoneCaptureClosed(closed[1..][i]));
      assert (all + es)[1..] == rest + es;
      HeededClosed(closed[1..], es);
    }
  }

  lemma LoopAlone(sys: Sys, tid: nat, closed: seq<int>, zoneCount: int)
    requires sys.Shape()
    ensures Agrees(sys, tid, LifecycleTick(closed), zoneCount) && Agrees(sys, tid, ProfileEvent, zoneCount)
  {
    assert [News(Always)][1..] == [] && [TellSnapshot(Always)] == [TellSnapshot(Always)] + [];
    AloneSnapshot(sys, NewWorker([TellSnapshot(Always)]), Always, [], zoneCount);
    HeededClosed(closed, [SnapshotOf(sys.r)]);
    HeededAll([SnapshotOf(sys.r)]);
  }

  /** Whatever the trigger: the same state, and the same events for those who heed them. */
  lemma HandlerAlone(sys: Sys, tid: nat, t: Trigger, zoneCount: int)
    requires sys.Shape() && tid !in sys.calls && LegalTrigger(sys.r, t)
    ensures Agrees(sys, tid, t, zoneCount)
  {
    match t
    case Socket(RouteStartRequest(_, _, _, _, _)) => SocketStart(sys, tid, t.request, zoneCount);
    case Broker(RouteStartRequest(_, _, _, _, _)) => BrokerStart(sys, tid, t.request, zoneCount);
    case Socket(RouteEndRequest(zone, ready)) => EndAlone(sys, tid, zone, ready, zoneCount);
    case Broker(RouteEndRequest(zone, ready)) => EndAlone(sys, tid, zone, ready, zoneCount);
    case Socket(RouteJoinRequest(zone)) => SocketJoin(sys, tid, zone, zoneCount);
    case Broker(RouteJoinRequest(zone)) => BrokerJoin(sys, tid, zone, zoneCount);
    case Socket(SetRoutingRequest(owner, zones)) => RouteAlone(sys, tid, owner, zones, zoneCount);
    case Socket(SetZoneEnabledRequest(zone, on)) => EnableAlone(sys, tid, zone, on, zoneCount);
    case Broker(SetZoneEnabledRequest(zone, on)) => EnableAlone(sys, tid, zone, on, zoneCount);
    case Socket(PrewarmRequest(zone)) => PrewarmAlone(sys, tid, zone, zoneCount);
    case Broker(PrewarmRequest(zone)) => PrewarmAlone(sys, tid, zone, zoneCount);
    case Socket(OtherRequest) => OtherAlone(sys, tid, zoneCount);
    case Broker(OtherRequest) =>
    case PromotionTick(ready) => TickAlone(sys, tid, ready, zoneCount);
    case LifecycleTick(closed) => LoopAlone(sys, tid, closed, zoneCount);
    case ProfileEvent => LoopAlone(sys, tid, [], zoneCount);
  }
}
