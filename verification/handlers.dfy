/**
 The router service's handlers, item by item: what a thread notes, what it does to the router, and what
 it reports. How finely the items of different threads interleave is left to the modules that run them.
 */
module Handlers {
  import opened Text
  import opened Routing
  import opened RoutingRuns
  import opened OwnerEvents

  /** What a report waits for. */
  datatype When = Always | IfChanged | IfPromoted | IfKnown

  datatype Item =
    | Noted                // owner and pending zone before the change
    | Done(step: Step)     // one critical section of the router
    | Asked(zone: int)     // is the zone known and enabled
    | OwnerNews(when: When)
    | News(when: When)     // a snapshot
    | Report               // a snapshot, and the routing-changed event built before it
    | DisabledNews         // the owner that disabling a zone has led to

  function StartItems(tid: nat, q: Request): seq<Item>
    requires q.RouteStartRequest?
  {
    [Done(StartFirst(tid, q.zone, q.playback, true)), Done(StartSecond(tid, q.prune, q.defer, q.now))]
  }

  function EndItems(tid: nat, zone: int, ready: bool): seq<Item> {
    [Done(End(zone)), Done(PromoteFirst(tid)), Done(PromoteSecond(tid, ready))]
  }

  function SocketItems(tid: nat, q: Request): seq<Item> {
    match q
    case RouteStartRequest(_, _, _, _, _) => [Noted] + (StartItems(tid, q) + [OwnerNews(Always), Report])
    case RouteEndRequest(zone, ready) => [Noted] + (EndItems(tid, zone, ready) + [OwnerNews(Always), Report])
    case RouteJoinRequest(zone) =>
      [Noted, Done(Join(zone)), Asked(zone), News(IfKnown), OwnerNews(Always), Report]
    case SetRoutingRequest(owner, zones) => [Noted, Done(Route(owner, zones)), OwnerNews(Always), Report]
    case SetZoneEnabledRequest(zone, on) => [Noted, Done(Enable(zone, on)), News(IfChanged), DisabledNews]
    case PrewarmRequest(zone) => [Noted, Asked(zone), News(IfKnown)]
    case OtherRequest => [Noted, OwnerNews(Always), Report]
  }

  function BrokerItems(tid: nat, q: Request): seq<Item> {
    match q
    case RouteStartRequest(_, _, _, _, _) => [Noted] + (StartItems(tid, q) + [OwnerNews(Always), News(Always)])
    case RouteEndRequest(zone, ready) => [Noted] + (EndItems(tid, zone, ready) + [OwnerNews(Always), Report])
    case RouteJoinRequest(zone) => [Done(Join(zone)), Asked(zone), News(IfKnown), News(Always)]
    case SetZoneEnabledRequest(zone, on) => [Done(Enable(zone, on)), News(IfChanged), DisabledNews]
    case PrewarmRequest(zone) => [Asked(zone), News(IfKnown)]
    case _ => []
  }

  /** What thread `tid` does for a trigger. */
  function Items(tid: nat, t: Trigger): seq<Item> {
    match t
    case Socket(q) => SocketItems(tid, q)
    case Broker(q) => BrokerItems(tid, q)
    case PromotionTick(ready) =>
      [Noted, Done(PromoteFirst(tid)), Done(PromoteSecond(tid, ready)), OwnerNews(IfPromoted), News(IfPromoted)]
    case LifecycleTick(closed) => if closed == [] then [] else [News(Always)]
    case ProfileEvent => [News(Always)]
  }

  // --- Every change is followed by a full report ------------------------------------------

  /** The part of the router's state that events carry. */
  datatype View = View(owner: int, pending: int, stack: seq<int>)

  function ViewOf(s: State): View { View(s.owner, s.pending, s.stack) }

  /** What a thread remembers of the last thing it did to the router. */
  datatype Outcome = Outcome(changed: bool, promoted: bool)

  const NOTHING := Outcome(false, false)

  ghost function OutcomeOf(sys: Sys, step: Step): Outcome
    requires sys.Shape()
  {
    Outcome(step.Enable? && SetEnabled(sys.r, step.zone, step.on).1.changed, Accepted(sys, step))
  }

  /** The owner that disabling a zone has led to. */
  ghost function DisabledTo(sys: Sys, step: Step): Option<int>
    requires sys.Shape()
  {
    if step.Enable? && SetEnabled(sys.r, step.zone, step.on).1.ownerChanged
    then Some(SetEnabled(sys.r, step.zone, step.on).1.newOwner) else None
  }

  predicate Holds(when: When, o: Outcome, known: bool) {
    match when
    case Always => true
    case IfChanged => o.changed
    case IfPromoted => o.promoted
    case IfKnown => known
  }

  /** Outcomes that a change by `step` brings about. */
  function SureOf(step: Step): Outcome { Outcome(step.Enable?, step.PromoteSecond?) }

  predicate Implies(a: Outcome, b: Outcome) { (a.changed ==> b.changed) && (a.promoted ==> b.promoted) }

  lemma ChangeHasOutcome(sys: Sys, step: Step)
    requires sys.Shape() && Legal(sys, step) && ViewOf(Next(sys, step).r) != ViewOf(sys.r)
    ensures Implies(SureOf(step), OutcomeOf(sys, step))
  {
  }

  /** A full report is certain to come, given what is known of the last outcome. */
  predicate Owes(items: seq<Item>, o: Outcome) {
    items != [] &&
    match items[0]
    case Report => true
    case News(when) => Holds(when, o, false) || Owes(items[1..], o)
    case Done(_) => Owes(items[1..], NOTHING)
    case _ => Owes(items[1..], o)
  }

  /** Steps that leave what events carry as it is. */
  predicate Silent(step: Step) { step.StartFirst? || step.PromoteFirst? || step.Mark? }

  lemma SilentKeepsView(sys: Sys, step: Step)
    requires sys.Shape() && Legal(sys, step) && Silent(step)
    ensures ViewOf(Next(sys, step).r) == ViewOf(sys.r)
  {
  }

  /** A step that has changed what events carry makes sure of its report. */
  ghost predicate Accounts(before: Sys, step: Step, after: Sys, o: Outcome) {
    ViewOf(after.r) != ViewOf(before.r) ==> !Silent(step) && Implies(SureOf(step), o)
  }

  lemma StepAccounts(sys: Sys, step: Step)
    requires sys.Shape() && Legal(sys, step)
    ensures Accounts(sys, step, Next(sys, step), OutcomeOf(sys, step))
  {
    if ViewOf(Next(sys, step).r) != ViewOf(sys.r) {
      ChangeHasOutcome(sys, step);
      if Silent(step) { SilentKeepsView(sys, step); }
    }
  }

  predicate Disciplined(items: seq<Item>) {
    items == [] ||
    (Disciplined(items[1..]) &&
     (items[0].Done? && !Silent(items[0].step) ==> Owes(items[1..], SureOf(items[0].step))))
  }

  lemma OwesMore(items: seq<Item>, a: Outcome, b: Outcome)
    requires Owes(items, a) && Implies(a, b)
    ensures Owes(items, b)
  {
  }

  lemma DisciplinedMore(item: Item, items: seq<Item>)
    requires Disciplined(items)
    requires item.Done? && !Silent(item.step) ==> Owes(items, SureOf(item.step))
    ensures Disciplined([item] + items)
  {
    assert ([item] + items)[1..] == items;
  }

  lemma OwesLater(item: Item, items: seq<Item>, o: Outcome)
    requires Owes(items, NOTHING)
    ensures Owes([item] + items, o)
  {
    assert ([item] + items)[1..] == items;
    OwesMore(items, NOTHING, o);
  }

  /** A tail that ends a handler: owner events and an unconditional report. */
  lemma TailDisciplined(last: Item)
    requires last == Report || last == News(Always)
    ensures Disciplined([OwnerNews(Always), last]) && Owes([OwnerNews(Always), last], NOTHING)
    ensures Disciplined([last]) && Owes([last], NOTHING)
  {
    var tail := [OwnerNews(Always), last];
    assert tail[1..] == [last] && [last][1..] == [];
  }

  lemma StartDisciplined(tid: nat, q: Request, tail: seq<Item>)
    requires q.RouteStartRequest? && Disciplined(tail) && Owes(tail, NOTHING)
    ensures Disciplined([Noted] + (StartItems(tid, q) + tail))
  {
    var second := Done(StartSecond(tid, q.prune, q.defer, q.now));
    DisciplinedMore(second, tail);
    OwesLater(second, tail, NOTHING);
    DisciplinedMore(Done(StartFirst(tid, q.zone, q.playback, true)), [second] + tail);
    assert StartItems(tid, q) + tail == [Done(StartFirst(tid, q.zone, q.playback, true))] + ([second] + tail);
    DisciplinedMore(Noted, StartItems(tid, q) + tail);
  }

  lemma EndDisciplined(tid: nat, zone: int, ready: bool, tail: seq<Item>)
    requires Disciplined(tail) && Owes(tail, NOTHING)
    ensures Disciplined([Noted] + (EndItems(tid, zone, ready) + tail))
  {
    var first, second := Done(PromoteFirst(tid)), Done(PromoteSecond(tid, ready));
    OwesMore(tail, NOTHING, SureOf(second.step));
    DisciplinedMore(second, tail);
    OwesLater(second, tail, NOTHING);
    DisciplinedMore(first, [second] + tail);
    OwesLater(first, [second] + tail, NOTHING);
    DisciplinedMore(Done(End(zone)), [first] + ([second] + tail));
    assert EndItems(tid, zone, ready) + tail == [Done(End(zone))] + ([first] + ([second] + tail));
    DisciplinedMore(Noted, EndItems(tid, zone, ready) + tail);
  }

  lemma JoinDisciplined(zone: int, tail: seq<Item>)
    requires Disciplined(tail) && Owes(tail, NOTHING)
    ensures Disciplined([Done(Join(zone)), Asked(zone), News(IfKnown)] + tail)
  {
    DisciplinedMore(News(IfKnown), tail);
    OwesLater(News(IfKnown), tail, NOTHING);
    DisciplinedMore(Asked(zone), [News(IfKnown)] + tail);
    OwesLater(Asked(zone), [News(IfKnown)] + tail, NOTHING);
    DisciplinedMore(Done(Join(zone)), [Asked(zone)] + ([News(IfKnown)] + tail));
    assert [Done(Join(zone)), Asked(zone), News(IfKnown)] + tail ==
           [Done(Join(zone))] + ([Asked(zone)] + ([News(IfKnown)] + tail));
  }

  lemma EnableDisciplined(zone: int, on: bool)
    ensures Disciplined([Done(Enable(zone, on)), News(IfChanged), DisabledNews])
  {
    var tail := [News(IfChanged), DisabledNews];
    assert tail[1..] == [DisabledNews] && [DisabledNews][1..] == [];
    assert Disciplined(tail) && Owes(tail, SureOf(Enable(zone, on)));
    DisciplinedMore(Done(Enable(zone, on)), tail);
    assert [Done(Enable(zone, on)), News(IfChanged), DisabledNews] == [Done(Enable(zone, on))] + tail;
  }

  lemma NewsDisciplined(zone: int)
    ensures Disciplined([News(Always)]) && Disciplined([]) && Disciplined([Asked(zone), News(IfKnown)])
  {
    assert [News(Always)][1..] == [] && [Asked(zone), News(IfKnown)][1..] == [News(IfKnown)];
  }

  lemma TickDisciplined(tid: nat, ready: bool)
    ensures Disciplined(Items(tid, PromotionTick(ready)))
  {
    var items := Items(tid, PromotionTick(ready));
    var last := [OwnerNews(IfPromoted), News(IfPromoted)];
    assert last[1..] == [News(IfPromoted)] && [News(IfPromoted)][1..] == [];
    assert Owes(last, Outcome(false, true));
    DisciplinedMore(Done(PromoteSecond(tid, ready)), last);
    DisciplinedMore(Done(PromoteFirst(tid)), [Done(PromoteSecond(tid, ready))] + last);
    assert items == [Noted] + ([Done(PromoteFirst(tid))] + ([Done(PromoteSecond(tid, ready))] + last));
    DisciplinedMore(Noted, [Done(PromoteFirst(tid))] + ([Done(PromoteSecond(tid, ready))] + last));
  }

  lemma RouteDisciplined(owner: int, zones: seq<int>, tail: seq<Item>)
    requires Disciplined(tail) && Owes(tail, NOTHING)
    ensures Disciplined([Noted, Done(Route(owner, zones))] + tail)
  {
    DisciplinedMore(Done(Route(owner, zones)), tail);
    DisciplinedMore(Noted, [Done(Route(owner, zones))] + tail);
    assert [Noted, Done(Route(owner, zones))] + tail == [Noted] + ([Done(Route(owner, zones))] + tail);
  }

  lemma SocketDisciplined(tid: nat, q: Request)
    ensures Disciplined(SocketItems(tid, q))
  {
    var tail := [OwnerNews(Always), Report];
    TailDisciplined(Report);
    match q
    case RouteStartRequest(_, _, _, _, _) => StartDisciplined(tid, q, tail);
    case RouteEndRequest(zone, ready) => EndDisciplined(tid, zone, ready, tail);
    case RouteJoinRequest(zone) =>
      var rest := [Done(Join(zone)), Asked(zone), News(IfKnown)] + tail;
      JoinDisciplined(zone, tail);
      DisciplinedMore(Noted, rest);
      assert SocketItems(tid, q) == [Noted] + rest;
    case SetRoutingRequest(owner, zones) =>
      RouteDisciplined(owner, zones, tail);
      assert SocketItems(tid, q) == [Noted, Done(Route(owner, zones))] + tail;
    case SetZoneEnabledRequest(zone, on) =>
      EnableDisciplined(zone, on);
      DisciplinedMore(Noted, [Done(Enable(zone, on)), News(IfChanged), DisabledNews]);
      assert SocketItems(tid, q) == [Noted] + [Done(Enable(zone, on)), News(IfChanged), DisabledNews];
    case PrewarmRequest(zone) =>
      NewsDisciplined(zone);
      DisciplinedMore(Noted, [Asked(zone), News(IfKnown)]);
      assert SocketItems(tid, q) == [Noted] + [Asked(zone), News(IfKnown)];
    case OtherRequest =>
      DisciplinedMore(Noted, tail);
      assert SocketItems(tid, q) == [Noted] + tail;
  }

  lemma BrokerDisciplined(tid: nat, q: Request)
    ensures Disciplined(BrokerItems(tid, q))
  {
    TailDisciplined(Report);
    TailDisciplined(News(Always));
    match q
    case RouteStartRequest(_, _, _, _, _) => StartDisciplined(tid, q, [OwnerNews(Always), News(Always)]);
    case RouteEndRequest(zone, ready) => EndDisciplined(tid, zone, ready, [OwnerNews(Always), Report]);
    case RouteJoinRequest(zone) =>
      JoinDisciplined(zone, [News(Always)]);
      assert BrokerItems(tid, q) == [Done(Join(zone)), Asked(zone), News(IfKnown)] + [News(Always)];
    case SetZoneEnabledRequest(zone, on) => EnableDisciplined(zone, on);
    case PrewarmRequest(zone) => NewsDisciplined(zone);
    case _ =>
  }

  /** Whatever a handler changes, it reports in full afterwards. */
  lemma EveryHandlerReports(tid: nat, t: Trigger)
    ensures Disciplined(Items(tid, t))
  {
    match t
    case Socket(q) => SocketDisciplined(tid, q);
    case Broker(q) => BrokerDisciplined(tid, q);
    case PromotionTick(ready) => TickDisciplined(tid, ready);
    case _ => NewsDisciplined(0);
  }
}
