/**
 The same handlers when the reads and the publication of each event are one step: what a rule that keeps
 them together buys, and what it does not. Both processes that rebuild the owner are followed.
 */
module OwnerTurns {
  import opened Lists
  import opened Text
  import opened Routing
  import opened RoutingRuns
  import opened OwnerEvents
  import opened Handlers

  // --- Turns ------------------------------------------------------------------------------

  datatype Turn =
    | Note
    | Do(step: Step)
    | Find(zone: int)
    | TellPending(when: When)
    | TellOwner(when: When)
    | TellSnapshot(when: When)
    | TellChanged
    | TellDisabled

  function TurnsOf(item: Item): (turns: seq<Turn>)
    ensures turns != []
  {
    match item
    case Noted => [Note]
    case Done(step) => [Do(step)]
    case Asked(zone) => [Find(zone)]
    case OwnerNews(when) => [TellPending(when), TellOwner(when)]
    case News(when) => [TellSnapshot(when)]
    case Report => [TellSnapshot(Always), TellChanged]
    case DisabledNews => [TellDisabled]
  }

  function Turns(items: seq<Item>): seq<Turn> {
    if items == [] then [] else TurnsOf(items[0]) + Turns(items[1..])
  }

  /** A thread between two turns. */
  datatype Worker = Worker(
    turns: seq<Turn>,
    previousOwner: int,
    previousPending: int,
    outcome: Outcome,
    disabledTo: Option<int>,
    known: bool)

  /** The event of a turn, if it has one. */
  function Told(w: Worker, s: State): Option<Event>
    requires w.turns != [] && s.Shape()
  {
    match w.turns[0]
    case TellPending(when) =>
      if Holds(when, w.outcome, w.known) && s.pending > 0 && s.pending != w.previousPending
      then Some(OwnerPending(s.owner, s.pending, s.stack)) else None
    case TellOwner(when) =>
      if Holds(when, w.outcome, w.known) && s.owner != w.previousOwner
      then Some(OwnerChanged(s.owner, Some(s.pending), s.stack)) else None
    case TellSnapshot(when) => if Holds(when, w.outcome, w.known) then Some(SnapshotOf(s)) else None
    case TellChanged => Some(ChangedOf(s))
    case TellDisabled =>
      if w.disabledTo.Some? then Some(OwnerChanged(w.disabledTo.value, None, s.stack)) else None
    case _ => None
  }

  /** What a turn that does not change the router makes of the thread. */
  function Rested(w: Worker, s: State, zoneCount: int): Worker
    requires w.turns != [] && s.Shape()
  {
    var rest := w.(turns := w.turns[1..]);
    match w.turns[0]
    case Note => rest.(previousOwner := s.owner, previousPending := s.pending)
    case Find(zone) => rest.(known := 1 <= zone <= zoneCount && On(s.enabled, zone))
    case _ => rest
  }

  /** What a change of the router makes of the thread. */
  function Worked(w: Worker, o: Outcome, to: Option<int>): Worker
    requires w.turns != []
  {
    w.(turns := w.turns[1..], outcome := o, disabledTo := to)
  }

  // --- The house --------------------------------------------------------------------------

  /**
   What has been said since the owner changed last. `disabledTo` is the owner that the last event of all
   named, if disabling a zone led to it. `held` is the owner the mirror had at the change, or was given by
   such an event later; `told` and `snapped` say whether an owner event or a snapshot has followed.
   */
  datatype Past = Past(disabledTo: Option<int>, held: int, told: bool, snapped: bool)

  datatype House = House(
    zoneCount: int,
    sys: Sys,
    workers: map<nat, Worker>,
    cache: Option<Cached>,
    mirror: Mirror,
    past: Past)

  datatype Move = Begin(tid: nat, trigger: Trigger) | Go(tid: nat)

  function Remembered(past: Past, e: Event): Past {
    match e
    case OwnerChanged(owner, pending, _) =>
      if pending.Some? then past.(disabledTo := None, told := true) else Past(Some(owner), owner, false, false)
    case RouterSnapshot(_, _, _, _) => past.(disabledTo := None, snapped := true)
    case _ => past.(disabledTo := None)
  }

  ghost predicate Shape(h: House) {
    h.sys.Shape() && Inv(h.sys.r) && forall t | t in h.workers :: h.workers[t].turns != []
  }

  function Put(workers: map<nat, Worker>, tid: nat, w: Worker): map<nat, Worker> {
    if w.turns == [] then workers - {tid} else workers[tid := w]
  }

  function NewWorker(turns: seq<Turn>): Worker { Worker(turns, 0, 0, NOTHING, None, false) }

  function Begun(h: House, tid: nat, turns: seq<Turn>): House {
    h.(workers := Put(h.workers, tid, NewWorker(turns)))
  }

  /** The history after a change of the router. */
  function PastAfter(h: House, owner: int): Past {
    if owner == h.sys.r.owner then h.past else h.past.(held := h.mirror.owner, told := false, snapped := false)
  }

  /** Thread `tid` has taken the router to `sys`. */
  function Changed(h: House, tid: nat, sys: Sys, o: Outcome, to: Option<int>): House
    requires tid in h.workers && h.workers[tid].turns != []
  {
    h.(sys := sys, workers := Put(h.workers, tid, Worked(h.workers[tid], o, to)),
       past := PastAfter(h, sys.r.owner))
  }

  ghost function Said(h: House, tid: nat): House
    requires h.sys.Shape() && tid in h.workers && h.workers[tid].turns != []
  {
    var w := h.workers[tid];
    var n := h.(workers := Put(h.workers, tid, Rested(w, h.sys.r, h.zoneCount)));
    match Told(w, h.sys.r)
    case None => n
    case Some(e) => n.(cache := Ingested(h.cache, e), mirror := Mirrored(h.mirror, e), past := Remembered(h.past, e))
  }

  ghost predicate Possible(h: House, m: Move)
    requires Shape(h)
  {
    match m
    case Begin(tid, _) => tid !in h.workers
    case Go(tid) =>
      tid in h.workers && (h.workers[tid].turns[0].Do? ==> Legal(h.sys, h.workers[tid].turns[0].step))
  }

  ghost function Moved(h: House, m: Move): House
    requires Shape(h) && Possible(h, m)
  {
    match m
    case Begin(tid, trigger) => Begun(h, tid, Turns(Items(tid, trigger)))
    case Go(tid) =>
      var w := h.workers[tid];
      if w.turns[0].Do? then
        Changed(h, tid, Next(h.sys, w.turns[0].step), OutcomeOf(h.sys, w.turns[0].step),
                DisabledTo(h.sys, w.turns[0].step))
      else Said(h, tid)
  }

  lemma MovedShape(h: House, m: Move)
    requires Shape(h) && Possible(h, m)
    ensures Shape(Moved(h, m))
  {
    match m
    case Begin(_, _) =>
    case Go(tid) =>
      if h.workers[tid].turns[0].Do? { StepInv(h.sys, h.workers[tid].turns[0].step); }
  }

  ghost predicate LegalMoves(h: House, ms: seq<Move>)
    requires Shape(h)
    decreases |ms|
  {
    ms == [] || (Possible(h, ms[0]) && (MovedShape(h, ms[0]); LegalMoves(Moved(h, ms[0]), ms[1..])))
  }

  ghost function Ran(h: House, ms: seq<Move>): (n: House)
    requires Shape(h) && LegalMoves(h, ms)
    ensures Shape(n)
    decreases |ms|
  {
    if ms == [] then h else (MovedShape(h, ms[0]); Ran(Moved(h, ms[0]), ms[1..]))
  }

  /** The start-up snapshot has reached both processes. */
  ghost function Started(mask: seq<bool>, zoneCount: int): (h: House)
    requires |mask| == MAX_ZONES + 1
    ensures Shape(h)
  {
    var sys := Booted(mask);
    LoadMaskInv(InitialState(), mask);
    House(zoneCount, sys, map[], Ingested(None, SnapshotOf(sys.r)),
          Mirrored(Mirror(0, [], []), SnapshotOf(sys.r)), Past(None, 0, false, true))
  }

  // --- A change is owed a snapshot --------------------------------------------------------

  predicate Reports(turns: seq<Turn>, o: Outcome) {
    turns != [] &&
    match turns[0]
    case TellSnapshot(when) => Holds(when, o, false) || Reports(turns[1..], o)
    case Do(_) => Reports(turns[1..], NOTHING)
    case _ => Reports(turns[1..], o)
  }

  predicate Drilled(turns: seq<Turn>) {
    turns == [] ||
    (Drilled(turns[1..]) &&
     (turns[0].Do? && !Silent(turns[0].step) ==> Reports(turns[1..], SureOf(turns[0].step))))
  }

  lemma ReportsMore(turns: seq<Turn>, a: Outcome, b: Outcome)
    requires Reports(turns, a) && Implies(a, b)
    ensures Reports(turns, b)
  {
  }

  lemma ReportsBehind(turn: Turn, turns: seq<Turn>, o: Outcome)
    requires !turn.Do? && Reports(turns, o)
    ensures Reports([turn] + turns, o)
  {
    assert ([turn] + turns)[1..] == turns;
  }

  lemma {:induction false} ItemsReport(items: seq<Item>, o: Outcome)
    requires Owes(items, o)
    ensures Reports(Turns(items), o)
  {
    var rest := Turns(items[1..]);
    match items[0]
    case Report =>
      assert Turns(items) == [TellSnapshot(Always)] + ([TellChanged] + rest);
    case News(when) =>
      assert (TurnsOf(items[0]) + rest)[1..] == rest;
      if !Holds(when, o, false) { ItemsReport(items[1..], o); }
    case Done(step) =>
      assert (TurnsOf(items[0]) + rest)[1..] == rest;
      ItemsReport(items[1..], NOTHING);
    case OwnerNews(when) =>
      ItemsReport(items[1..], o);
      ReportsBehind(TellOwner(when), rest, o);
      ReportsBehind(TellPending(when), [TellOwner(when)] + rest, o);
      assert Turns(items) == [TellPending(when)] + ([TellOwner(when)] + rest);
    case _ =>
      ItemsReport(items[1..], o);
      ReportsBehind(TurnsOf(items[0])[0], rest, o);
      assert Turns(items) == [TurnsOf(items[0])[0]] + rest;
  }

  lemma DrilledBehind(turn: Turn, turns: seq<Turn>)
    requires Drilled(turns) && (turn.Do? && !Silent(turn.step) ==> Reports(turns, SureOf(turn.step)))
    ensures Drilled([turn] + turns)
  {
    assert ([turn] + turns)[1..] == turns;
  }

  lemma TellsDrilled(turns: seq<Turn>, rest: seq<Turn>)
    requires 1 <= |turns| <= 2 && Drilled(rest) && forall i | 0 <= i < |turns| :: !turns[i].Do?
    ensures Drilled(turns + rest)
  {
    assert !turns[0].Do?;
    if |turns| == 1 {
      DrilledBehind(turns[0], rest);
      assert turns + rest == [turns[0]] + rest;
    } else {
      assert !turns[1].Do?;
      DrilledBehind(turns[1], rest);
      DrilledBehind(turns[0], [turns[1]] + rest);
      assert turns + rest == [turns[0]] + ([turns[1]] + rest);
    }
  }

  lemma {:induction false} ItemsDrilled(items: seq<Item>)
    requires Disciplined(items)
    ensures Drilled(Turns(items))
  {
    if items != [] {
      var rest := Turns(items[1..]);
      ItemsDrilled(items[1..]);
      if items[0].Done? {
        if !Silent(items[0].step) { ItemsReport(items[1..], SureOf(items[0].step)); }
        DrilledBehind(Do(items[0].step), rest);
      } else {
        TellsDrilled(TurnsOf(items[0]), rest);
      }
    }
  }

  lemma HandlerDrilled(tid: nat, trigger: Trigger)
    ensures Drilled(Turns(Items(tid, trigger)))
  {
    EveryHandlerReports(tid, trigger);
    ItemsDrilled(Items(tid, trigger));
  }

  // --- The invariant ----------------------------------------------------------------------

  /** The cache is up to date, but for an owner that disabling a zone led to and that was told last. */
  predicate CacheFits(cache: Option<Cached>, past: Past, s: State) {
    cache == Some(Cached(if past.disabledTo.Some? then past.disabledTo.value else s.owner, s.stack, Some(s.pending)))
  }

  /** The owner that the mirror has. */
  function MirrorOwner(past: Past, owner: int): int {
    if past.told || (past.snapped && (owner == 0 || past.held <= 0)) then owner else past.held
  }

  ghost predicate AllDrilled(workers: map<nat, Worker>) {
    forall t | t in workers :: Drilled(workers[t].turns)
  }

  ghost predicate Owed(workers: map<nat, Worker>) {
    exists t | t in workers :: Reports(workers[t].turns, workers[t].outcome)
  }

  ghost predicate Pledged(workers: map<nat, Worker>, fits: bool) { AllDrilled(workers) && (fits || Owed(workers)) }

  ghost predicate Kept(h: House) {
    && Shape(h) && h.mirror.owner == MirrorOwner(h.past, h.sys.r.owner)
    && Pledged(h.workers, CacheFits(h.cache, h.past, h.sys.r))
  }

  /** Every event but one kind carries the whole present. */
  lemma ToldFits(w: Worker, s: State, cache: Option<Cached>, past: Past)
    requires w.turns != [] && s.Shape() && Told(w, s).Some?
    requires w.turns[0].TellDisabled? ==> CacheFits(cache, past, s)
    ensures CacheFits(Ingested(cache, Told(w, s).value), Remembered(past, Told(w, s).value), s)
  {
  }

  lemma ToldMirror(w: Worker, s: State, m: Mirror, past: Past)
    requires w.turns != [] && Inv(s) && Told(w, s).Some? && m.owner == MirrorOwner(past, s.owner)
    ensures Mirrored(m, Told(w, s).value).owner == MirrorOwner(Remembered(past, Told(w, s).value), s.owner)
  {
    StackPositive(s);
  }

  lemma PutPledges(workers: map<nat, Worker>, tid: nat, w: Worker, fits: bool)
    requires AllDrilled(workers) && Drilled(w.turns)
    requires fits || Reports(w.turns, w.outcome) ||
             exists u | u in workers && u != tid :: Reports(workers[u].turns, workers[u].outcome)
    ensures Pledged(Put(workers, tid, w), fits)
  {
    var puts := Put(workers, tid, w);
    if Reports(w.turns, w.outcome) {
      assert puts[tid] == w;
    } else if !fits {
      var u :| u in workers && u != tid && Reports(workers[u].turns, workers[u].outcome);
      assert puts[u] == workers[u];
    }
  }

  lemma RestedPledges(workers: map<nat, Worker>, tid: nat, s: State, zoneCount: int, was: bool, fits: bool)
    requires tid in workers && workers[tid].turns != [] && !workers[tid].turns[0].Do? && s.Shape()
    requires Pledged(workers, was) && (was ==> fits)
    requires !fits ==> Told(workers[tid], s).None? || workers[tid].turns[0].TellDisabled?
    ensures Pledged(Put(workers, tid, Rested(workers[tid], s, zoneCount)), fits)
  {
    var w := workers[tid];
    var n := Rested(w, s, zoneCount);
    assert Drilled(w.turns);
    if !fits {
      var u :| u in workers && Reports(workers[u].turns, workers[u].outcome);
      assert u != tid || Reports(n.turns, n.outcome);
    }
    PutPledges(workers, tid, n, fits);
  }

  lemma SaidKept(h: House, tid: nat)
    requires Kept(h) && tid in h.workers && !h.workers[tid].turns[0].Do?
    ensures Kept(Said(h, tid))
  {
    var w, n := h.workers[tid], Said(h, tid);
    var was, fits := CacheFits(h.cache, h.past, h.sys.r), CacheFits(n.cache, n.past, n.sys.r);
    if Told(w, h.sys.r).Some? {
      ToldMirror(w, h.sys.r, h.mirror, h.past);
      if was || !w.turns[0].TellDisabled? { ToldFits(w, h.sys.r, h.cache, h.past); }
    }
    RestedPledges(h.workers, tid, h.sys.r, h.zoneCount, was, fits);
  }

  lemma WorkedPledges(workers: map<nat, Worker>, tid: nat, o: Outcome, to: Option<int>, was: bool, fits: bool)
    requires tid in workers && workers[tid].turns != [] && workers[tid].turns[0].Do? && Pledged(workers, was)
    requires var step := workers[tid].turns[0].step;
             was == fits || (!Silent(step) && Implies(SureOf(step), o))
    ensures Pledged(Put(workers, tid, Worked(workers[tid], o, to)), fits)
  {
    var w := workers[tid];
    var n := Worked(w, o, to);
    assert Drilled(w.turns);
    if was != fits {
      ReportsMore(n.turns, SureOf(w.turns[0].step), o);
    } else if !fits {
      var u :| u in workers && Reports(workers[u].turns, workers[u].outcome);
      if u == tid { ReportsMore(n.turns, NOTHING, o); }
    }
    PutPledges(workers, tid, n, fits);
  }

  lemma ChangedKept(h: House, tid: nat, sys: Sys, o: Outcome, to: Option<int>)
    requires Kept(h) && tid in h.workers && h.workers[tid].turns[0].Do?
    requires sys.Shape() && Inv(sys.r) && Accounts(h.sys, h.workers[tid].turns[0].step, sys, o)
    ensures Kept(Changed(h, tid, sys, o, to))
  {
    var n := Changed(h, tid, sys, o, to);
    var was, fits := CacheFits(h.cache, h.past, h.sys.r), CacheFits(n.cache, n.past, n.sys.r);
    WorkedPledges(h.workers, tid, o, to, was, fits);
  }

  lemma BegunKept(h: House, tid: nat, turns: seq<Turn>)
    requires Kept(h) && tid !in h.workers && Drilled(turns)
    ensures Kept(Begun(h, tid, turns))
  {
    PutPledges(h.workers, tid, NewWorker(turns), CacheFits(h.cache, h.past, h.sys.r));
  }

  lemma MovedKept(h: House, m: Move)
    requires Kept(h) && Possible(h, m)
    ensures Kept(Moved(h, m))
  {
    match m
    case Begin(tid, trigger) =>
      HandlerDrilled(tid, trigger);
      BegunKept(h, tid, Turns(Items(tid, trigger)));
    case Go(tid) =>
      var turn := h.workers[tid].turns[0];
      if turn.Do? {
        StepInv(h.sys, turn.step);
        StepAccounts(h.sys, turn.step);
        ChangedKept(h, tid, Next(h.sys, turn.step), OutcomeOf(h.sys, turn.step), DisabledTo(h.sys, turn.step));
      } else {
        SaidKept(h, tid);
      }
  }

  lemma {:induction false} RanKept(h: House, ms: seq<Move>)
    requires Kept(h) && LegalMoves(h, ms)
    ensures Kept(Ran(h, ms))
    decreases |ms|
  {
    if ms != [] {
      MovedKept(h, ms[0]);
      RanKept(Moved(h, ms[0]), ms[1..]);
    }
  }

  lemma StartedKept(mask: seq<bool>, zoneCount: int)
    requires |mask| == MAX_ZONES + 1
    ensures Kept(Started(mask, zoneCount))
  {
    StackPositive(Booted(mask).r);
  }

  // --- At rest ----------------------------------------------------------------------------

  ghost predicate Current(h: House) {
    h.cache == Some(Cached(h.sys.r.owner, h.sys.r.stack, Some(h.sys.r.pending)))
  }

  /**
   When no handler is under way, the cache has the router's stack and pending zone, and its owner too
   unless the last event told of an owner that disabling a zone had led to and that is no longer the owner.
   */
  lemma RestingCacheIff(mask: seq<bool>, zoneCount: int, ms: seq<Move>)
    requires |mask| == MAX_ZONES + 1 && LegalMoves(Started(mask, zoneCount), ms)
    requires Ran(Started(mask, zoneCount), ms).workers == map[]
    ensures var h := Ran(Started(mask, zoneCount), ms);
            && h.cache.Some? && h.cache.value.stack == h.sys.r.stack
            && h.cache.value.pendingOwner == Some(h.sys.r.pending)
            && (Current(h) <==> h.past.disabledTo.None? || h.past.disabledTo.value == h.sys.r.owner)
  {
    StartedKept(mask, zoneCount);
    RanKept(Started(mask, zoneCount), ms);
  }

  /**
   At every moment of every run, the mirror has the router's owner if and only if it held that owner when
   the owner changed last (or was given it later, by the event of disabling a zone), or an owner event has
   followed, or a snapshot has followed and either there is no owner or the mirror held none.
   */
  lemma MirrorIff(mask: seq<bool>, zoneCount: int, ms: seq<Move>)
    requires |mask| == MAX_ZONES + 1 && LegalMoves(Started(mask, zoneCount), ms)
    ensures var h := Ran(Started(mask, zoneCount), ms);
            h.mirror.owner == h.sys.r.owner <==>
            (h.past.held == h.sys.r.owner || h.past.told ||
             (h.past.snapped && (h.sys.r.owner == 0 || h.past.held <= 0)))
  {
    StartedKept(mask, zoneCount);
    RanKept(Started(mask, zoneCount), ms);
  }

  // --- Runs that end stale ----------------------------------------------------------------

  ghost predicate Leads(h: House, ms: seq<Move>, n: House)
    requires Shape(h)
  {
    LegalMoves(h, ms) && Ran(h, ms) == n
  }

  ghost predicate Reaches(h: House, n: House) {
    Shape(h) && exists ms :: Leads(h, ms, n)
  }

  lemma ReachesSelf(h: House)
    requires Shape(h)
    ensures Reaches(h, h)
  {
    assert Leads(h, [], h);
  }

  lemma MoveFirst(h: House, m: Move, ms: seq<Move>, n: House)
    requires Shape(h) && Possible(h, m) && Shape(Moved(h, m)) && Leads(Moved(h, m), ms, n)
    ensures Leads(h, [m] + ms, n)
  {
    assert ([m] + ms)[1..] == ms;
  }

  lemma ReachesOn(h: House, m: Move, n: House)
    requires Shape(h) && Possible(h, m) && Reaches(Moved(h, m), n)
    ensures Reaches(h, n)
  {
    var ms :| Leads(Moved(h, m), ms, n);
    MoveFirst(h, m, ms, n);
  }

  lemma {:induction false} ReachesBy(h: House, ms: seq<Move>, n: House)
    requires Shape(h) && LegalMoves(h, ms) && Reaches(Ran(h, ms), n)
    ensures Reaches(h, n)
    decreases |ms|
  {
    if ms != [] {
      MovedShape(h, ms[0]);
      ReachesBy(Moved(h, ms[0]), ms[1..], n);
      ReachesOn(h, ms[0], n);
    }
  }

  lemma ReachesThrough(h: House, i: House, n: House)
    requires Reaches(h, i) && Reaches(i, n)
    ensures Reaches(h, n)
  {
    var ms :| Leads(h, ms, i);
    ReachesBy(h, ms, n);
  }

  lemma OneStep(h: House, m: Move) returns (n: House)
    requires Kept(h) && Possible(h, m)
    ensures n == Moved(h, m) && Kept(n) && Reaches(h, n)
  {
    n := Moved(h, m);
    MovedKept(h, m);
    ReachesSelf(n);
    ReachesOn(h, m, n);
  }

  lemma Begins(h: House, tid: nat, trigger: Trigger, turns: seq<Turn>) returns (n: House)
    requires Kept(h) && tid !in h.workers && turns == Turns(Items(tid, trigger)) && turns != []
    ensures Reaches(h, n) && Kept(n) && n == h.(workers := h.workers[tid := NewWorker(turns)])
  {
    n := OneStep(h, Begin(tid, trigger));
  }

  lemma Says(h: House, tid: nat) returns (n: House)
    requires Kept(h) && tid in h.workers && !h.workers[tid].turns[0].Do?
    ensures Reaches(h, n) && Kept(n) && n == Said(h, tid)
  {
    n := OneStep(h, Go(tid));
  }

  lemma ChangedWorkers(h: House, tid: nat, sys: Sys, o: Outcome, to: Option<int>)
    requires tid in h.workers && |h.workers[tid].turns| > 1
    ensures var n := Changed(h, tid, sys, o, to);
            && tid in n.workers && n.workers - {tid} == h.workers - {tid} && n.workers.Keys == h.workers.Keys
            && n.workers[tid] == Worked(h.workers[tid], o, to)
  {
  }

  lemma Does(h: House, tid: nat, step: Step) returns (n: House)
    requires Kept(h) && tid in h.workers && |h.workers[tid].turns| > 1 && h.workers[tid].turns[0] == Do(step)
    requires Legal(h.sys, step)
    ensures Reaches(h, n) && Kept(n) && n.sys == Next(h.sys, step) && n.past == PastAfter(h, n.sys.r.owner)
    ensures tid in n.workers && n.workers - {tid} == h.workers - {tid} && n.workers.Keys == h.workers.Keys
    ensures n.workers[tid] == Worked(h.workers[tid], OutcomeOf(h.sys, step), DisabledTo(h.sys, step))
  {
    n := OneStep(h, Go(tid));
    ChangedWorkers(h, tid, Next(h.sys, step), OutcomeOf(h.sys, step), DisabledTo(h.sys, step));
  }

  /** The next turn changes nothing and tells the mirror of no owner. */
  predicate HushedNow(w: Worker, owner: int) {
    w.turns != [] && !w.turns[0].Do? && !w.turns[0].TellDisabled? &&
    (w.turns[0].TellOwner? ==> w.previousOwner == owner)
  }

  /** No turn that is left does. */
  predicate Hushed(w: Worker, owner: int) {
    forall i | 0 <= i < |w.turns| ::
      && !w.turns[i].Do? && !w.turns[i].Note? && !w.turns[i].TellDisabled?
      && (w.turns[i].TellOwner? ==> w.previousOwner == owner)
  }

  /** The mirror has been told no owner between the two. */
  predicate Quieter(past: Past, later: Past) {
    && later.held == past.held && later.told == past.told && (past.snapped ==> later.snapped)
    && (past.disabledTo.None? ==> later.disabledTo.None?)
  }

  lemma HushedTold(w: Worker, s: State, past: Past)
    requires s.Shape() && HushedNow(w, s.owner) && Told(w, s).Some?
    ensures var later := Remembered(past, Told(w, s).value);
            Quieter(past, later) && (w.turns[0].TellSnapshot? ==> later.snapped)
  {
  }

  lemma HushedSays(h: House, tid: nat) returns (n: House)
    requires Kept(h) && tid in h.workers && HushedNow(h.workers[tid], h.sys.r.owner)
    ensures Reaches(h, n) && Kept(n) && n.sys == h.sys && n.zoneCount == h.zoneCount && Quieter(h.past, n.past)
    ensures n.workers == Put(h.workers, tid, Rested(h.workers[tid], h.sys.r, h.zoneCount))
    ensures h.workers[tid].turns[0] == TellSnapshot(Always) ==> n.past.snapped
  {
    var w := h.workers[tid];
    n := Says(h, tid);
    if Told(w, h.sys.r).Some? { HushedTold(w, h.sys.r, h.past); }
  }

  lemma OwnerSays(h: House, tid: nat) returns (n: House)
    requires Kept(h) && tid in h.workers && h.workers[tid].turns[0] == TellOwner(Always)
    requires h.workers[tid].previousOwner != h.sys.r.owner
    ensures Reaches(h, n) && Kept(n) && n.sys == h.sys && n.zoneCount == h.zoneCount
    ensures n.past == h.past.(disabledTo := None, told := true)
    ensures n.workers == Put(h.workers, tid, Rested(h.workers[tid], h.sys.r, h.zoneCount))
  {
    n := Says(h, tid);
  }

  lemma HushedRests(w: Worker, s: State, zoneCount: int)
    requires w.turns != [] && s.Shape() && Hushed(w, s.owner)
    ensures HushedNow(w, s.owner)
    ensures var n := Rested(w, s, zoneCount);
            Hushed(n, s.owner) && n.turns == w.turns[1..]
  {
  }

  /** A hushed thread can run to its end. */
  lemma {:induction false} Finishes(h: House, tid: nat) returns (n: House)
    requires Kept(h) && tid in h.workers && Hushed(h.workers[tid], h.sys.r.owner)
    ensures Reaches(h, n) && Kept(n) && n.sys == h.sys && Quieter(h.past, n.past)
    ensures n.workers == h.workers - {tid}
    ensures TellSnapshot(Always) in h.workers[tid].turns ==> n.past.snapped
    decreases |h.workers[tid].turns|
  {
    var w := h.workers[tid];
    HushedRests(w, h.sys.r, h.zoneCount);
    var i := HushedSays(h, tid);
    assert w.turns == [w.turns[0]] + w.turns[1..];
    if |w.turns| == 1 {
      n := i;
    } else {
      n := Finishes(i, tid);
      assert i.workers - {tid} == h.workers - {tid};
      ReachesThrough(h, i, n);
    }
  }

  lemma JoinTurns(tid: nat, zone: int)
    ensures Turns(Items(tid, Broker(RouteJoinRequest(zone)))) ==
            [Do(Join(zone)), Find(zone), TellSnapshot(IfKnown), TellSnapshot(Always)]
  {
    var two := [News(IfKnown), News(Always)];
    var three := [Asked(zone)] + two;
    assert two[1..] == [News(Always)] && [News(Always)][1..] == [];
    assert Turns(two) == [TellSnapshot(IfKnown), TellSnapshot(Always)];
    assert three[1..] == two;
    assert Items(tid, Broker(RouteJoinRequest(zone)))[1..] == three;
  }

  /** No owner, and zone `zone` could become it. */
  ghost predicate IdleFor(sys: Sys, zone: int)
    requires sys.Shape()
  {
    sys.r.stack == [] && sys.r.handoff == 0 && On(sys.r.enabled, zone)
  }

  /** Zone `zone` plays alone. */
  ghost predicate PlaysAlone(sys: Sys, zone: int, enabled: seq<bool>) {
    sys.r.owner == zone && sys.r.stack == [zone] && sys.r.handoff == 0 && sys.r.enabled == enabled
  }

  lemma OneJoins(sys: Sys, zone: int)
    requires sys.Shape() && IdleFor(sys, zone)
    ensures Legal(sys, Join(zone)) && PlaysAlone(Next(sys, Join(zone)), zone, sys.r.enabled)
  {
  }

  /** A handler that begins with a change has made it. */
  lemma Performs(h: House, tid: nat, trigger: Trigger, step: Step, rest: seq<Turn>) returns (n: House)
    requires Kept(h) && tid !in h.workers && Turns(Items(tid, trigger)) == [Do(step)] + rest && rest != []
    requires Legal(h.sys, step)
    ensures Reaches(h, n) && Kept(n) && n.sys == Next(h.sys, step)
    ensures tid in n.workers && n.workers - {tid} == h.workers && n.workers.Keys == h.workers.Keys + {tid}
    ensures n.workers[tid].turns == rest && n.workers[tid].disabledTo == DisabledTo(h.sys, step)
    ensures n.past == PastAfter(h, n.sys.r.owner)
  {
    var i := Begins(h, tid, trigger, [Do(step)] + rest);
    n := Does(i, tid, step);
    assert ([Do(step)] + rest)[1..] == rest;
    ReachesThrough(h, i, n);
  }

  /** The first half of a join: the router has changed and nobody has been told. */
  lemma JoinDone(h: House, tid: nat, zone: int) returns (n: House)
    requires Kept(h) && tid !in h.workers && IdleFor(h.sys, zone)
    ensures Reaches(h, n) && Kept(n) && PlaysAlone(n.sys, zone, h.sys.r.enabled)
    ensures tid in n.workers && n.workers - {tid} == h.workers && n.workers.Keys == h.workers.Keys + {tid}
    ensures n.workers[tid].turns == [Find(zone), TellSnapshot(IfKnown), TellSnapshot(Always)]
    ensures n.past == h.past.(held := h.mirror.owner, told := false, snapped := false)
  {
    var rest := [Find(zone), TellSnapshot(IfKnown), TellSnapshot(Always)];
    JoinTurns(tid, zone);
    assert [Do(Join(zone))] + rest == [Do(Join(zone)), Find(zone), TellSnapshot(IfKnown), TellSnapshot(Always)];
    OneJoins(h.sys, zone);
    StackPositive(h.sys.r);
    n := Performs(h, tid, Broker(RouteJoinRequest(zone)), Join(zone), rest);
  }

  /** Zone `zone` joins an idle router, and thread `tid` reports it. */
  lemma JoinReported(h: House, tid: nat, zone: int) returns (n: House)
    requires Kept(h) && tid !in h.workers && IdleFor(h.sys, zone)
    ensures Reaches(h, n) && Kept(n) && PlaysAlone(n.sys, zone, h.sys.r.enabled) && n.workers == h.workers
    ensures n.past.held == h.mirror.owner && !n.past.told && n.past.snapped
    ensures h.past.disabledTo.None? ==> n.past.disabledTo.None?
  {
    var i := JoinDone(h, tid, zone);
    n := Finishes(i, tid);
    ReachesThrough(h, i, n);
  }

  const TAIL := [TellPending(Always), TellOwner(Always), TellSnapshot(Always), TellChanged]

  function RouteTo(zone: int): Trigger { Socket(SetRoutingRequest(zone, [zone])) }

  lemma RouteTurns(tid: nat, zone: int)
    ensures Turns(Items(tid, RouteTo(zone))) == [Note, Do(Route(zone, [zone]))] + TAIL
  {
    var two := [OwnerNews(Always), Report];
    var three := [Done(Route(zone, [zone]))] + two;
    assert two[1..] == [Report] && [Report][1..] == [];
    assert Turns(two) == TAIL;
    assert three[1..] == two;
    assert Items(tid, RouteTo(zone))[1..] == three;
  }

  lemma DropOne(zone: int, gone: set<int>)
    ensures Drop([zone], gone) == if zone in gone then [] else [zone]
  {
    assert [zone][1..] == [];
  }

  lemma OneRouted(sys: Sys, zone: int)
    requires sys.Shape() && sys.r.handoff == 0 && On(sys.r.enabled, zone)
    ensures Legal(sys, Route(zone, [zone])) && PlaysAlone(Next(sys, Route(zone, [zone])), zone, sys.r.enabled)
  {
    DropOne(zone, set z | z in [zone] && !On(sys.r.enabled, z));
    DropOne(zone, {zone});
  }

  /** A request for `zone` begins, and notes the owner. */
  lemma Noted(h: House, tid: nat, zone: int) returns (n: House)
    requires Kept(h) && tid !in h.workers
    ensures Reaches(h, n) && Kept(n) && n.sys == h.sys && n.mirror == h.mirror && n.past == h.past
    ensures tid in n.workers && n.workers - {tid} == h.workers && n.workers.Keys == h.workers.Keys + {tid}
    ensures n.workers[tid].turns == [Do(Route(zone, [zone]))] + TAIL && n.workers[tid].previousOwner == h.sys.r.owner
  {
    var turns := [Note, Do(Route(zone, [zone]))] + TAIL;
    RouteTurns(tid, zone);
    var i := Begins(h, tid, RouteTo(zone), turns);
    n := Says(i, tid);
    assert turns[1..] == [Do(Route(zone, [zone]))] + TAIL;
    ReachesThrough(h, i, n);
  }

  /** It goes on, and reports. */
  lemma RouteReported(h: House, tid: nat, zone: int) returns (n: House)
    requires Kept(h) && tid in h.workers && h.workers[tid].turns == [Do(Route(zone, [zone]))] + TAIL
    requires h.sys.r.handoff == 0 && On(h.sys.r.enabled, zone) && h.sys.r.owner != zone
    ensures Reaches(h, n) && Kept(n) && PlaysAlone(n.sys, zone, h.sys.r.enabled) && n.workers == h.workers - {tid}
    ensures n.past.held == h.mirror.owner && (n.past.told <==> h.workers[tid].previousOwner != zone)
    ensures h.past.disabledTo.None? ==> n.past.disabledTo.None?
  {
    OneRouted(h.sys, zone);
    var i := Does(h, tid, Route(zone, [zone]));
    assert h.workers[tid].turns[1..] == TAIL;
    n := ReportsOwner(i, tid);
    assert i.workers - {tid} == h.workers - {tid};
    ReachesThrough(h, i, n);
  }

  lemma ReportsOwner(h: House, tid: nat) returns (n: House)
    requires Kept(h) && tid in h.workers && h.workers[tid].turns == TAIL && !h.past.told
    ensures Reaches(h, n) && Kept(n) && n.sys == h.sys && n.workers == h.workers - {tid}
    ensures n.past.held == h.past.held && (n.past.told <==> h.workers[tid].previousOwner != h.sys.r.owner)
    ensures h.past.disabledTo.None? ==> n.past.disabledTo.None?
  {
    if h.workers[tid].previousOwner == h.sys.r.owner {
      n := Finishes(h, tid);
    } else {
      var i := TellsOwner(h, tid);
      n := Finishes(i, tid);
      ReachesThrough(h, i, n);
    }
  }

  lemma TellsOwner(h: House, tid: nat) returns (n: House)
    requires Kept(h) && tid in h.workers && h.workers[tid].turns == TAIL
    requires h.workers[tid].previousOwner != h.sys.r.owner
    ensures Reaches(h, n) && Kept(n) && n.sys == h.sys && n.workers - {tid} == h.workers - {tid}
    ensures tid in n.workers && n.workers[tid].turns == [TellSnapshot(Always), TellChanged]
    ensures n.past.held == h.past.held && n.past.told
    ensures h.past.disabledTo.None? ==> n.past.disabledTo.None?
  {
    assert TAIL[1..] == [TellOwner(Always), TellSnapshot(Always), TellChanged];
    assert TAIL[1..][1..] == [TellSnapshot(Always), TellChanged];
    var i := HushedSays(h, tid);
    n := OwnerSays(i, tid);
    ReachesThrough(h, i, n);
  }

  /**
   The mirror can stay with a zone that is no longer the owner: a request for zone 1 notes that 1 is the
   owner, a request for zone 2 is carried out and reported, and the first is carried out after it.
   */
  lemma MirrorStaleRun(mask: seq<bool>, zoneCount: int)
    requires |mask| == MAX_ZONES + 1 && mask[1] && mask[2]
    ensures exists ms :: LegalMoves(Started(mask, zoneCount), ms) &&
              var h := Ran(Started(mask, zoneCount), ms);
              h.workers == map[] && Current(h) && h.sys.r.owner == 1 && h.mirror.owner == 2
  {
    var h := Started(mask, zoneCount);
    StartedKept(mask, zoneCount);
    var h1 := JoinReported(h, 1, 1);
    var h2 := Noted(h1, 2, 1);
    var h3 := Noted(h2, 3, 2);
    var h4 := RouteReported(h3, 3, 2);
    var h5 := RouteReported(h4, 2, 1);
    ReachesThrough(h3, h4, h5);
    ReachesThrough(h2, h3, h5);
    ReachesThrough(h1, h2, h5);
    ReachesThrough(h, h1, h5);
  }

  lemma DisableTurns(tid: nat, zone: int)
    ensures Turns(Items(tid, Broker(SetZoneEnabledRequest(zone, false)))) ==
            [Do(Enable(zone, false)), TellSnapshot(IfChanged), TellDisabled]
  {
    var two := [News(IfChanged), DisabledNews];
    assert two[1..] == [DisabledNews] && [DisabledNews][1..] == [];
    assert Turns(two) == [TellSnapshot(IfChanged), TellDisabled];
    assert Items(tid, Broker(SetZoneEnabledRequest(zone, false)))[1..] == two;
  }

  lemma OneDisabled(sys: Sys, zone: int)
    requires sys.Shape() && PlaysAlone(sys, zone, sys.r.enabled) && On(sys.r.enabled, zone)
    ensures var n := Next(sys, Enable(zone, false)).r;
            n.owner == 0 && n.stack == [] && n.handoff == 0 && n.enabled == sys.r.enabled[zone := false]
    ensures DisabledTo(sys, Enable(zone, false)) == Some(0)
  {
    DropOne(zone, {zone});
  }

  lemma DisableDone(h: House, tid: nat, zone: int) returns (n: House)
    requires Kept(h) && tid !in h.workers && On(h.sys.r.enabled, zone) && PlaysAlone(h.sys, zone, h.sys.r.enabled)
    ensures Reaches(h, n) && Kept(n)
    ensures tid in n.workers && n.workers - {tid} == h.workers && n.workers.Keys == h.workers.Keys + {tid}
    ensures n.workers[tid].turns == [TellSnapshot(IfChanged), TellDisabled] && n.workers[tid].disabledTo == Some(0)
    ensures n.sys.r.stack == [] && n.sys.r.handoff == 0 && n.sys.r.enabled == h.sys.r.enabled[zone := false]
  {
    var rest := [TellSnapshot(IfChanged), TellDisabled];
    DisableTurns(tid, zone);
    assert [Do(Enable(zone, false))] + rest == [Do(Enable(zone, false)), TellSnapshot(IfChanged), TellDisabled];
    OneDisabled(h.sys, zone);
    n := Performs(h, tid, Broker(SetZoneEnabledRequest(zone, false)), Enable(zone, false), rest);
  }

  /** The zone that plays is disabled, and the thread that did it has one event left to publish. */
  lemma Disables(h: House, tid: nat, zone: int) returns (n: House)
    requires Kept(h) && tid !in h.workers && On(h.sys.r.enabled, zone) && PlaysAlone(h.sys, zone, h.sys.r.enabled)
    ensures Reaches(h, n) && Kept(n)
    ensures tid in n.workers && n.workers - {tid} == h.workers && n.workers.Keys == h.workers.Keys + {tid}
    ensures n.workers[tid].turns == [TellDisabled] && n.workers[tid].disabledTo == Some(0)
    ensures n.sys.r.stack == [] && n.sys.r.handoff == 0 && n.sys.r.enabled == h.sys.r.enabled[zone := false]
  {
    var i := DisableDone(h, tid, zone);
    assert i.workers[tid].turns[1..] == [TellDisabled];
    n := HushedSays(i, tid);
    ReachesThrough(h, i, n);
  }

  /** That event, when nothing else is under way. */
  lemma TellsDisabled(h: House, tid: nat) returns (n: House)
    requires Kept(h) && h.workers.Keys == {tid}
    requires h.workers[tid].turns == [TellDisabled] && h.workers[tid].disabledTo == Some(0)
    ensures Reaches(h, n) && n.sys == h.sys && n.workers == map[]
    ensures n.mirror.owner == 0 && n.cache.Some? && n.cache.value.owner == 0
  {
    n := Says(h, tid);
    assert n.workers.Keys == {};
  }

  /** Zone 2 plays and is disabled, zone 1 joins and is reported, and then the owner of the disabling is told. */
  lemma DisabledLate(h: House) returns (n: House)
    requires Kept(h) && h.workers == map[] && PlaysAlone(h.sys, 2, h.sys.r.enabled)
    requires On(h.sys.r.enabled, 1) && On(h.sys.r.enabled, 2)
    ensures Reaches(h, n) && n.workers == map[] && n.sys.r.owner == 1
    ensures n.mirror.owner == 0 && n.cache.Some? && n.cache.value.owner == 0
  {
    var disabled := Disables(h, 2, 2);
    var joined := JoinReported(disabled, 3, 1);
    n := TellsDisabled(joined, 2);
    ReachesThrough(disabled, joined, n);
    ReachesThrough(h, disabled, n);
  }

  /**
   An owner that disabling a zone led to can be told too late: zone 2 is disabled, zone 1 joins and is
   reported, and only then the event of the disabling goes out. Both processes end without an owner.
   */
  lemma DisabledStaleRun(mask: seq<bool>, zoneCount: int)
    requires |mask| == MAX_ZONES + 1 && mask[1] && mask[2]
    ensures exists ms :: LegalMoves(Started(mask, zoneCount), ms) &&
              var h := Ran(Started(mask, zoneCount), ms);
              && h.workers == map[] && h.sys.r.owner == 1 && h.mirror.owner == 0
              && h.cache.Some? && h.cache.value.owner == 0
  {
    var h := Started(mask, zoneCount);
    StartedKept(mask, zoneCount);
    var playing := JoinReported(h, 1, 2);
    var n := DisabledLate(playing);
    ReachesThrough(h, playing, n);
  }
}
