/**
 The backend's cache when handlers of different threads overlap. Every read of the router, every change
 and every publication is a step of its own, in the order in which the handlers make them.
 */
module OwnerRaces {
  import opened Text
  import opened Routing
  import opened RoutingRuns
  import opened OwnerEvents
  import opened Handlers

  // --- Code -------------------------------------------------------------------------------

  datatype Instr =
    | NoteOwner | NotePending
    | Act(step: Step)
    | Ask(zone: int)
    | ReadOwner | ReadPending | ReadStack // into the event under construction
    | Keep                                // the event is put aside
    | Publish(when: When)
    | PublishKept
    | PublishPending(when: When)          // if the pending zone is new
    | PublishOwner(when: When)            // if the owner is new
    | PublishDisabled                     // if disabling a zone has changed the owner

  function Full(when: When): seq<Instr> { [ReadStack, ReadOwner, ReadPending, Publish(when)] }

  function Code(item: Item): (code: seq<Instr>)
    ensures code != []
  {
    match item
    case Noted => [NoteOwner, NotePending]
    case Done(step) => [Act(step)]
    case Asked(zone) => [Ask(zone)]
    case OwnerNews(when) =>
      [ReadOwner, ReadPending, ReadStack, PublishPending(when), ReadStack, PublishOwner(when)]
    case News(when) => Full(when)
    case Report => [ReadStack, ReadOwner, ReadPending, Keep] + (Full(Always) + [PublishKept])
    case DisabledNews => [ReadStack, PublishDisabled]
  }

  function CodeOf(items: seq<Item>): seq<Instr> {
    if items == [] then [] else Code(items[0]) + CodeOf(items[1..])
  }

  // --- The world --------------------------------------------------------------------------

  /** A value, and how many changes of what events carry had happened when it was read. */
  datatype Reading<T> = Reading(value: T, at: nat)

  /** What an event under construction carries, and what the cache holds. */
  datatype Picture = Picture(owner: Reading<int>, pending: Reading<int>, stack: Reading<seq<int>>)

  datatype Thread = Thread(
    code: seq<Instr>,
    draft: Picture,
    kept: Picture,
    previousOwner: int,
    previousPending: int,
    outcome: Outcome,
    disabledTo: Option<Reading<int>>,
    known: bool)

  /** `past` has every view of the router so far, `log` every content of the cache. */
  datatype World = World(zoneCount: int, sys: Sys, past: seq<View>, threads: map<nat, Thread>, log: seq<Picture>)

  datatype Move = Begin(tid: nat, trigger: Trigger) | Go(tid: nat)

  function PictureOf(v: View, at: nat): Picture {
    Picture(Reading(v.owner, at), Reading(v.pending, at), Reading(v.stack, at))
  }

  /** A picture each part of which was true when it was read. */
  predicate True(p: Picture, past: seq<View>) {
    && p.owner.at < |past| && p.owner.value == past[p.owner.at].owner
    && p.pending.at < |past| && p.pending.value == past[p.pending.at].pending
    && p.stack.at < |past| && p.stack.value == past[p.stack.at].stack
  }

  predicate TrueThread(t: Thread, past: seq<View>) {
    && True(t.draft, past) && True(t.kept, past)
    && match t.disabledTo
       case None => true
       case Some(o) => o.at < |past| && o.value == past[o.at].owner
  }

  predicate TrueLog(log: seq<Picture>, past: seq<View>) {
    forall i | 0 <= i < |log| :: True(log[i], past)
  }

  predicate TrueThreads(threads: map<nat, Thread>, past: seq<View>) {
    forall t | t in threads :: threads[t].code != [] && TrueThread(threads[t], past)
  }

  predicate Truthful(past: seq<View>, threads: map<nat, Thread>, log: seq<Picture>) {
    log != [] && TrueLog(log, past) && TrueThreads(threads, past)
  }

  ghost predicate Shape(w: World) {
    && w.sys.Shape() && w.past != [] && w.past[|w.past| - 1] == ViewOf(w.sys.r)
    && Truthful(w.past, w.threads, w.log)
  }

  function Latest(w: World): nat
    requires w.past != []
  {
    |w.past| - 1
  }

  function Cache(w: World): Picture
    requires w.log != []
  {
    w.log[|w.log| - 1]
  }

  function Put(threads: map<nat, Thread>, tid: nat, t: Thread): map<nat, Thread> {
    if t.code == [] then threads - {tid} else threads[tid := t]
  }

  /** What one instruction does to the thread itself. */
  function Advanced(t: Thread, now: Picture, known: bool): Thread
    requires t.code != []
  {
    var rest := t.(code := t.code[1..]);
    match t.code[0]
    case NoteOwner => rest.(previousOwner := now.owner.value)
    case NotePending => rest.(previousPending := now.pending.value)
    case Ask(_) => rest.(known := known)
    case ReadOwner => rest.(draft := t.draft.(owner := now.owner))
    case ReadPending => rest.(draft := t.draft.(pending := now.pending))
    case ReadStack => rest.(draft := t.draft.(stack := now.stack))
    case Keep => rest.(kept := t.draft)
    case _ => rest
  }

  /** What it makes of the cache, if it publishes. */
  function Sent(t: Thread, cache: Picture): seq<Picture>
    requires t.code != []
  {
    match t.code[0]
    case Publish(when) => if Holds(when, t.outcome, t.known) then [t.draft] else []
    case PublishKept => [t.kept]
    case PublishPending(when) =>
      if Holds(when, t.outcome, t.known) && t.draft.pending.value > 0 && t.draft.pending.value != t.previousPending
      then [t.draft] else []
    case PublishOwner(when) =>
      if Holds(when, t.outcome, t.known) && t.draft.owner.value != t.previousOwner then [t.draft] else []
    case PublishDisabled =>
      (match t.disabledTo
       case None => []
       case Some(o) => [Picture(o, cache.pending, t.draft.stack)])
    case _ => []
  }

  /** The history grows when what events carry changes. */
  function Grown(past: seq<View>, v: View): seq<View>
    requires past != []
  {
    if past[|past| - 1] == v then past else past + [v]
  }

  /** The thread after its change of the router. */
  function Changer(t: Thread, o: Outcome, to: Option<int>, at: nat): Thread
    requires t.code != []
  {
    t.(code := t.code[1..], outcome := o, disabledTo := if to.Some? then Some(Reading(to.value, at)) else None)
  }

  /** Thread `tid` has taken the router to `sys`. */
  ghost function Changed(w: World, tid: nat, sys: Sys, o: Outcome, to: Option<int>): World
    requires Shape(w) && tid in w.threads
  {
    var past := Grown(w.past, ViewOf(sys.r));
    w.(sys := sys, past := past, threads := Put(w.threads, tid, Changer(w.threads[tid], o, to, |past| - 1)))
  }

  ghost function Acted(w: World, tid: nat): World
    requires Shape(w) && tid in w.threads && w.threads[tid].code[0].Act?
    requires Legal(w.sys, w.threads[tid].code[0].step)
  {
    var step := w.threads[tid].code[0].step;
    Changed(w, tid, Next(w.sys, step), OutcomeOf(w.sys, step), DisabledTo(w.sys, step))
  }

  /** What an `Ask` finds. */
  ghost predicate Answer(w: World, t: Thread)
    requires w.sys.Shape() && t.code != []
  {
    t.code[0].Ask? && 1 <= t.code[0].zone <= w.zoneCount && On(w.sys.r.enabled, t.code[0].zone)
  }

  ghost function Local(w: World, tid: nat): World
    requires Shape(w) && tid in w.threads && !w.threads[tid].code[0].Act?
  {
    var t := w.threads[tid];
    var now := PictureOf(ViewOf(w.sys.r), Latest(w));
    w.(threads := Put(w.threads, tid, Advanced(t, now, Answer(w, t))), log := w.log + Sent(t, Cache(w)))
  }

  function NewThread(code: seq<Instr>, now: Picture): Thread {
    Thread(code, now, now, 0, 0, NOTHING, None, false)
  }

  ghost function Begun(w: World, tid: nat, code: seq<Instr>): World
    requires Shape(w)
  {
    w.(threads := Put(w.threads, tid, NewThread(code, PictureOf(ViewOf(w.sys.r), Latest(w)))))
  }

  ghost predicate Possible(w: World, m: Move)
    requires Shape(w)
  {
    match m
    case Begin(tid, _) => tid !in w.threads
    case Go(tid) =>
      tid in w.threads && (w.threads[tid].code[0].Act? ==> Legal(w.sys, w.threads[tid].code[0].step))
  }

  ghost function Moved(w: World, m: Move): World
    requires Shape(w) && Possible(w, m)
  {
    match m
    case Begin(tid, trigger) => Begun(w, tid, CodeOf(Items(tid, trigger)))
    case Go(tid) => if w.threads[tid].code[0].Act? then Acted(w, tid) else Local(w, tid)
  }

  /** The service has published its first snapshot. */
  ghost function Started(mask: seq<bool>, zoneCount: int): (w: World)
    requires |mask| == MAX_ZONES + 1
    ensures Shape(w)
  {
    var sys := Booted(mask);
    World(zoneCount, sys, [ViewOf(sys.r)], map[], [PictureOf(ViewOf(sys.r), 0)])
  }

  // --- What was read stays true of its moment ---------------------------------------------

  lemma LogLater(log: seq<Picture>, past: seq<View>, v: View)
    requires past != [] && TrueLog(log, past)
    ensures TrueLog(log, Grown(past, v))
  {
    forall i | 0 <= i < |log| ensures True(log[i], Grown(past, v)) {
      assert True(log[i], past);
    }
  }

  lemma ThreadLater(t: Thread, past: seq<View>, v: View)
    requires past != [] && TrueThread(t, past)
    ensures TrueThread(t, Grown(past, v))
  {
  }

  lemma ThreadsLater(threads: map<nat, Thread>, past: seq<View>, v: View)
    requires past != [] && TrueThreads(threads, past)
    ensures TrueThreads(threads, Grown(past, v))
  {
    forall t | t in threads ensures TrueThread(threads[t], Grown(past, v)) {
      ThreadLater(threads[t], past, v);
    }
  }

  lemma PutTrue(threads: map<nat, Thread>, past: seq<View>, tid: nat, t: Thread)
    requires TrueThreads(threads, past) && TrueThread(t, past)
    ensures TrueThreads(Put(threads, tid, t), past)
  {
  }

  lemma ChangerTrue(t: Thread, o: Outcome, to: Option<int>, past: seq<View>, v: View)
    requires t.code != [] && past != [] && TrueThread(t, past) && (to.Some? ==> to.value == v.owner)
    ensures var after := Grown(past, v); TrueThread(Changer(t, o, to, |after| - 1), after)
  {
    ThreadLater(t, past, v);
  }

  lemma ChangedTruthful(past: seq<View>, threads: map<nat, Thread>, log: seq<Picture>, tid: nat,
                        o: Outcome, to: Option<int>, v: View)
    requires past != [] && Truthful(past, threads, log) && tid in threads && (to.Some? ==> to.value == v.owner)
    ensures var after := Grown(past, v);
            Truthful(after, Put(threads, tid, Changer(threads[tid], o, to, |after| - 1)), log)
  {
    var after := Grown(past, v);
    LogLater(log, past, v);
    ThreadsLater(threads, past, v);
    ChangerTrue(threads[tid], o, to, past, v);
    PutTrue(threads, after, tid, Changer(threads[tid], o, to, |after| - 1));
  }

  lemma GrownLast(past: seq<View>, v: View)
    requires past != []
    ensures |Grown(past, v)| == |past| <==> v == past[|past| - 1]
    ensures Grown(past, v)[|Grown(past, v)| - 1] == v
  {
  }

  lemma ChangedShape(w: World, tid: nat, sys: Sys, o: Outcome, to: Option<int>)
    requires Shape(w) && tid in w.threads && sys.Shape() && (to.Some? ==> to.value == sys.r.owner)
    ensures Shape(Changed(w, tid, sys, o, to))
  {
    GrownLast(w.past, ViewOf(sys.r));
    ChangedTruthful(w.past, w.threads, w.log, tid, o, to, ViewOf(sys.r));
  }

  lemma DisabledToOwner(sys: Sys, step: Step)
    requires sys.Shape() && Legal(sys, step)
    ensures Next(sys, step).Shape()
    ensures DisabledTo(sys, step).Some? ==> DisabledTo(sys, step).value == Next(sys, step).r.owner
  {
  }

  lemma ActedShape(w: World, tid: nat)
    requires Shape(w) && tid in w.threads && w.threads[tid].code[0].Act?
    requires Legal(w.sys, w.threads[tid].code[0].step)
    ensures Shape(Acted(w, tid))
  {
    var step := w.threads[tid].code[0].step;
    DisabledToOwner(w.sys, step);
    ChangedShape(w, tid, Next(w.sys, step), OutcomeOf(w.sys, step), DisabledTo(w.sys, step));
  }

  lemma SentTrue(t: Thread, cache: Picture, past: seq<View>)
    requires t.code != [] && TrueThread(t, past) && True(cache, past)
    ensures TrueLog(Sent(t, cache), past)
  {
  }

  lemma LogMore(log: seq<Picture>, more: seq<Picture>, past: seq<View>)
    requires TrueLog(log, past) && TrueLog(more, past)
    ensures TrueLog(log + more, past)
  {
  }

  lemma AdvancedTrue(t: Thread, now: Picture, known: bool, past: seq<View>)
    requires t.code != [] && TrueThread(t, past) && True(now, past)
    ensures TrueThread(Advanced(t, now, known), past)
  {
  }

  lemma LocalShape(w: World, tid: nat)
    requires Shape(w) && tid in w.threads && !w.threads[tid].code[0].Act?
    ensures Shape(Local(w, tid))
  {
    var t := w.threads[tid];
    var now := PictureOf(ViewOf(w.sys.r), Latest(w));
    SentTrue(t, Cache(w), w.past);
    LogMore(w.log, Sent(t, Cache(w)), w.past);
    AdvancedTrue(t, now, Answer(w, t), w.past);
    PutTrue(w.threads, w.past, tid, Advanced(t, now, Answer(w, t)));
  }

  lemma MovedShape(w: World, m: Move)
    requires Shape(w) && Possible(w, m)
    ensures Shape(Moved(w, m))
  {
    match m
    case Begin(tid, trigger) => BegunShape(w, tid, CodeOf(Items(tid, trigger)));
    case Go(tid) => if w.threads[tid].code[0].Act? { ActedShape(w, tid); } else { LocalShape(w, tid); }
  }

  ghost predicate LegalMoves(w: World, ms: seq<Move>)
    requires Shape(w)
    decreases |ms|
  {
    ms == [] || (Possible(w, ms[0]) && (MovedShape(w, ms[0]); LegalMoves(Moved(w, ms[0]), ms[1..])))
  }

  ghost function Ran(w: World, ms: seq<Move>): (t: World)
    requires Shape(w) && LegalMoves(w, ms)
    ensures Shape(t)
    decreases |ms|
  {
    if ms == [] then w else (MovedShape(w, ms[0]); Ran(Moved(w, ms[0]), ms[1..]))
  }

  // --- A change is owed a report ----------------------------------------------------------

  /** Which parts of the event under construction are recent enough. */
  datatype Have = Have(owner: bool, pending: bool, stack: bool)

  const NONE := Have(false, false, false)

  predicate All(h: Have) { h.owner && h.pending && h.stack }

  predicate Within(a: Have, b: Have) {
    (a.owner ==> b.owner) && (a.pending ==> b.pending) && (a.stack ==> b.stack)
  }

  /** The code is certain to publish an event all of whose parts are recent enough or still to be read. */
  predicate Reports(code: seq<Instr>, h: Have, o: Outcome) {
    code != [] &&
    match code[0]
    case Act(_) => Reports(code[1..], h, NOTHING)
    case ReadOwner => Reports(code[1..], h.(owner := true), o)
    case ReadPending => Reports(code[1..], h.(pending := true), o)
    case ReadStack => Reports(code[1..], h.(stack := true), o)
    case Publish(when) => (Holds(when, o, false) && All(h)) || Reports(code[1..], h, o)
    case _ => Reports(code[1..], h, o)
  }

  predicate Drilled(code: seq<Instr>) {
    code == [] ||
    (Drilled(code[1..]) &&
     (code[0].Act? && !Silent(code[0].step) ==> Reports(code[1..], NONE, SureOf(code[0].step))))
  }

  lemma {:induction false} ReportsMore(code: seq<Instr>, g: Have, h: Have, a: Outcome, b: Outcome)
    requires Reports(code, g, a) && Within(g, h) && Implies(a, b)
    ensures Reports(code, h, b)
  {
    match code[0]
    case Act(_) => ReportsMore(code[1..], g, h, NOTHING, NOTHING);
    case ReadOwner => ReportsMore(code[1..], g.(owner := true), h.(owner := true), a, b);
    case ReadPending => ReportsMore(code[1..], g.(pending := true), h.(pending := true), a, b);
    case ReadStack => ReportsMore(code[1..], g.(stack := true), h.(stack := true), a, b);
    case Publish(when) => if !(Holds(when, a, false) && All(g)) { ReportsMore(code[1..], g, h, a, b); }
    case _ => ReportsMore(code[1..], g, h, a, b);
  }

  predicate NoAct(code: seq<Instr>) { forall i | 0 <= i < |code| :: !code[i].Act? }

  lemma {:induction false} ReportsBehind(a: seq<Instr>, code: seq<Instr>, h: Have, o: Outcome)
    requires NoAct(a) && Reports(code, NONE, o)
    ensures Reports(a + code, h, o)
    decreases |a|
  {
    if a == [] {
      assert a + code == code;
      ReportsMore(code, NONE, h, o, o);
    } else {
      assert (a + code)[1..] == a[1..] + code;
      assert !a[0].Act?;
      ReportsBehind(a[1..], code, h, o);
      ReportsBehind(a[1..], code, h.(owner := true), o);
      ReportsBehind(a[1..], code, h.(pending := true), o);
      ReportsBehind(a[1..], code, h.(stack := true), o);
    }
  }

  lemma FullReports(when: When, code: seq<Instr>, h: Have, o: Outcome)
    requires Holds(when, o, false)
    ensures Reports(Full(when) + code, h, o)
  {
    var publish := [Publish(when)] + code;
    var pending, owner := [ReadPending] + publish, [ReadOwner] + ([ReadPending] + publish);
    assert Reports(publish, Have(true, true, true), o);
    assert pending[1..] == publish && Reports(pending, Have(true, h.pending, true), o);
    assert owner[1..] == pending && Reports(owner, h.(stack := true), o);
    assert (Full(when) + code)[1..] == owner;
  }

  lemma {:induction false} ItemsReport(items: seq<Item>, o: Outcome)
    requires Owes(items, o)
    ensures Reports(CodeOf(items), NONE, o)
  {
    var rest := CodeOf(items[1..]);
    match items[0]
    case Report => ReportReports(rest, o);
    case News(when) =>
      if Holds(when, o, false) {
        FullReports(when, rest, NONE, o);
      } else {
        ItemsReport(items[1..], o);
        ReportsBehind(Full(when), rest, NONE, o);
      }
    case Done(step) =>
      ItemsReport(items[1..], NOTHING);
      assert ([Act(step)] + rest)[1..] == rest;
    case _ =>
      ItemsReport(items[1..], o);
      ReportsBehind(Code(items[0]), rest, NONE, o);
  }

  lemma ReportReports(rest: seq<Instr>, o: Outcome)
    ensures Reports(Code(Report) + rest, NONE, o)
  {
    var first, tail := [ReadStack, ReadOwner, ReadPending, Keep], [PublishKept] + rest;
    FullReports(Always, tail, NONE, o);
    ReportsBehind(first, Full(Always) + tail, NONE, o);
    Joins(first, Full(Always) + [PublishKept], rest);
    Joins(Full(Always), [PublishKept], rest);
    assert Code(Report) + rest == first + (Full(Always) + tail);
  }

  lemma {:induction false} DrilledBehind(a: seq<Instr>, code: seq<Instr>)
    requires NoAct(a) && Drilled(code)
    ensures Drilled(a + code)
    decreases |a|
  {
    if a == [] {
      assert a + code == code;
    } else {
      assert (a + code)[1..] == a[1..] + code;
      assert !a[0].Act?;
      DrilledBehind(a[1..], code);
    }
  }

  lemma {:induction false} ItemsDrilled(items: seq<Item>)
    requires Disciplined(items)
    ensures Drilled(CodeOf(items))
  {
    if items != [] {
      var rest := CodeOf(items[1..]);
      ItemsDrilled(items[1..]);
      if items[0].Done? {
        assert ([Act(items[0].step)] + rest)[1..] == rest;
        if !Silent(items[0].step) { ItemsReport(items[1..], SureOf(items[0].step)); }
      } else {
        DrilledBehind(Code(items[0]), rest);
      }
    }
  }

  // --- The invariant ----------------------------------------------------------------------

  function HaveOf(p: Picture, since: nat): Have {
    Have(p.owner.at >= since, p.pending.at >= since, p.stack.at >= since)
  }

  /** Every part was read after that many changes. */
  predicate Recent(p: Picture, since: nat) { All(HaveOf(p, since)) }

  ghost predicate WillReport(t: Thread, since: nat) {
    Reports(t.code, HaveOf(t.draft, since), t.outcome)
  }

  ghost predicate Told(log: seq<Picture>, since: nat) {
    exists i | 0 <= i < |log| :: Recent(log[i], since)
  }

  ghost predicate Owed(threads: map<nat, Thread>, since: nat) {
    exists tid | tid in threads :: WillReport(threads[tid], since)
  }

  ghost predicate AllDrilled(threads: map<nat, Thread>) {
    forall t | t in threads :: Drilled(threads[t].code)
  }

  /** An event read wholly after the last change has been published, or is certain to be. */
  ghost predicate Pledged(log: seq<Picture>, threads: map<nat, Thread>, since: nat) {
    AllDrilled(threads) && (Told(log, since) || Owed(threads, since))
  }

  ghost predicate Sound(w: World) { Shape(w) && Pledged(w.log, w.threads, Latest(w)) }

  lemma ToldMore(log: seq<Picture>, more: seq<Picture>, since: nat)
    requires Told(log, since)
    ensures Told(log + more, since)
  {
    var i :| 0 <= i < |log| && Recent(log[i], since);
    assert (log + more)[i] == log[i];
  }

  lemma PutOwes(threads: map<nat, Thread>, tid: nat, t: Thread, since: nat)
    ensures WillReport(t, since) ==> Owed(Put(threads, tid, t), since)
    ensures forall u | u in threads && u != tid && WillReport(threads[u], since) :: Owed(Put(threads, tid, t), since)
  {
    var puts := Put(threads, tid, t);
    if WillReport(t, since) {
      assert puts[tid] == t;
    }
    forall u | u in threads && u != tid && WillReport(threads[u], since) ensures Owed(puts, since) {
      assert puts[u] == threads[u];
    }
  }

  lemma PutDrilled(threads: map<nat, Thread>, tid: nat, t: Thread)
    requires AllDrilled(threads) && Drilled(t.code)
    ensures AllDrilled(Put(threads, tid, t))
  {
  }

  lemma ReportGoesOn(t: Thread, now: Picture, known: bool, cache: Picture, since: nat)
    requires t.code != [] && !t.code[0].Act? && WillReport(t, since) && Recent(now, since)
    ensures WillReport(Advanced(t, now, known), since) || (Sent(t, cache) == [t.draft] && Recent(t.draft, since))
  {
    var n := Advanced(t, now, known);
    var h := HaveOf(t.draft, since);
    match t.code[0]
    case ReadOwner => ReportsMore(n.code, h.(owner := true), HaveOf(n.draft, since), t.outcome, n.outcome);
    case ReadPending => ReportsMore(n.code, h.(pending := true), HaveOf(n.draft, since), t.outcome, n.outcome);
    case ReadStack => ReportsMore(n.code, h.(stack := true), HaveOf(n.draft, since), t.outcome, n.outcome);
    case _ =>
  }

  lemma LocalTells(log: seq<Picture>, threads: map<nat, Thread>, tid: nat, now: Picture, known: bool, since: nat)
    requires log != [] && tid in threads && threads[tid].code != [] && !threads[tid].code[0].Act?
    requires Recent(now, since) && (Told(log, since) || Owed(threads, since))
    ensures var t := threads[tid];
            Told(log + Sent(t, log[|log| - 1]), since) || Owed(Put(threads, tid, Advanced(t, now, known)), since)
  {
    var t, cache := threads[tid], log[|log| - 1];
    if Told(log, since) {
      ToldMore(log, Sent(t, cache), since);
    } else {
      var u :| u in threads && WillReport(threads[u], since);
      PutOwes(threads, tid, Advanced(t, now, known), since);
      if u == tid {
        ReportGoesOn(t, now, known, cache, since);
        if Sent(t, cache) == [t.draft] && Recent(t.draft, since) {
          assert (log + Sent(t, cache))[|log|] == t.draft;
        }
      }
    }
  }

  lemma LocalPledged(log: seq<Picture>, threads: map<nat, Thread>, tid: nat, now: Picture, known: bool, since: nat)
    requires log != [] && tid in threads && threads[tid].code != [] && !threads[tid].code[0].Act?
    requires Recent(now, since) && Pledged(log, threads, since)
    ensures var t := threads[tid];
            Pledged(log + Sent(t, log[|log| - 1]), Put(threads, tid, Advanced(t, now, known)), since)
  {
    LocalTells(log, threads, tid, now, known, since);
    assert Drilled(threads[tid].code);
    PutDrilled(threads, tid, Advanced(threads[tid], now, known));
  }

  lemma LocalSound(w: World, tid: nat)
    requires Sound(w) && tid in w.threads && !w.threads[tid].code[0].Act?
    ensures Sound(Local(w, tid))
  {
    var now := PictureOf(ViewOf(w.sys.r), Latest(w));
    LocalShape(w, tid);
    LocalPledged(w.log, w.threads, tid, now, Answer(w, w.threads[tid]), Latest(w));
  }

  /** The thread that changes the router takes the obligation on itself. */
  lemma ChangerReports(t: Thread, o: Outcome, to: Option<int>, at: nat)
    requires t.code != [] && t.code[0].Act? && Drilled(t.code)
    requires !Silent(t.code[0].step) && Implies(SureOf(t.code[0].step), o)
    ensures WillReport(Changer(t, o, to, at), at)
  {
    ReportsMore(t.code[1..], NONE, HaveOf(t.draft, at), SureOf(t.code[0].step), o);
  }

  lemma ChangerGoesOn(t: Thread, o: Outcome, to: Option<int>, at: nat)
    requires t.code != [] && t.code[0].Act? && WillReport(t, at)
    ensures WillReport(Changer(t, o, to, at), at)
  {
    ReportsMore(t.code[1..], HaveOf(t.draft, at), HaveOf(t.draft, at), NOTHING, o);
  }

  lemma ChangedOwed(threads: map<nat, Thread>, tid: nat, o: Outcome, to: Option<int>, since: nat)
    requires tid in threads && threads[tid].code != [] && threads[tid].code[0].Act? && Owed(threads, since)
    ensures Owed(Put(threads, tid, Changer(threads[tid], o, to, since)), since)
  {
    var n := Changer(threads[tid], o, to, since);
    var u :| u in threads && WillReport(threads[u], since);
    PutOwes(threads, tid, n, since);
    if u == tid {
      ChangerGoesOn(threads[tid], o, to, since);
    }
  }

  lemma ChangedPledged(log: seq<Picture>, threads: map<nat, Thread>, tid: nat, o: Outcome, to: Option<int>,
                       before: nat, after: nat)
    requires tid in threads && threads[tid].code != [] && threads[tid].code[0].Act? && Pledged(log, threads, before)
    requires var step := threads[tid].code[0].step;
             after == before || (!Silent(step) && Implies(SureOf(step), o))
    ensures Pledged(log, Put(threads, tid, Changer(threads[tid], o, to, after)), after)
  {
    var t := threads[tid];
    assert Drilled(t.code);
    PutDrilled(threads, tid, Changer(t, o, to, after));
    if after != before {
      ChangerReports(t, o, to, after);
      PutOwes(threads, tid, Changer(t, o, to, after), after);
    } else if !Told(log, before) {
      ChangedOwed(threads, tid, o, to, after);
    }
  }

  lemma ChangedLatest(w: World, tid: nat, sys: Sys, o: Outcome, to: Option<int>)
    requires Shape(w) && tid in w.threads
    ensures var n := Changed(w, tid, sys, o, to);
            && n.past != [] && n.log == w.log
            && n.threads == Put(w.threads, tid, Changer(w.threads[tid], o, to, Latest(n)))
            && (Latest(n) == Latest(w) || ViewOf(sys.r) != ViewOf(w.sys.r))
  {
    GrownLast(w.past, ViewOf(sys.r));
  }

  lemma ChangedSound(w: World, tid: nat, sys: Sys, o: Outcome, to: Option<int>)
    requires Sound(w) && tid in w.threads && w.threads[tid].code[0].Act?
    requires sys.Shape() && (to.Some? ==> to.value == sys.r.owner)
    requires Accounts(w.sys, w.threads[tid].code[0].step, sys, o)
    ensures Sound(Changed(w, tid, sys, o, to))
  {
    var n := Changed(w, tid, sys, o, to);
    ChangedShape(w, tid, sys, o, to);
    ChangedLatest(w, tid, sys, o, to);
    ChangedPledged(w.log, w.threads, tid, o, to, Latest(w), Latest(n));
  }

  lemma ActedSound(w: World, tid: nat)
    requires Sound(w) && tid in w.threads && w.threads[tid].code[0].Act?
    requires Legal(w.sys, w.threads[tid].code[0].step)
    ensures Sound(Acted(w, tid))
  {
    var step := w.threads[tid].code[0].step;
    DisabledToOwner(w.sys, step);
    StepAccounts(w.sys, step);
    ChangedSound(w, tid, Next(w.sys, step), OutcomeOf(w.sys, step), DisabledTo(w.sys, step));
  }

  lemma HandlerDrilled(tid: nat, trigger: Trigger)
    ensures Drilled(CodeOf(Items(tid, trigger)))
  {
    EveryHandlerReports(tid, trigger);
    ItemsDrilled(Items(tid, trigger));
  }

  lemma BegunShape(w: World, tid: nat, code: seq<Instr>)
    requires Shape(w)
    ensures Shape(Begun(w, tid, code))
  {
    PutTrue(w.threads, w.past, tid, NewThread(code, PictureOf(ViewOf(w.sys.r), Latest(w))));
  }

  lemma BegunPledged(log: seq<Picture>, threads: map<nat, Thread>, tid: nat, t: Thread, since: nat)
    requires tid !in threads && Drilled(t.code) && Pledged(log, threads, since)
    ensures Pledged(log, Put(threads, tid, t), since)
  {
    PutDrilled(threads, tid, t);
    if !Told(log, since) {
      PutOwes(threads, tid, t, since);
    }
  }

  lemma BegunSound(w: World, tid: nat, code: seq<Instr>)
    requires Sound(w) && tid !in w.threads && Drilled(code)
    ensures Sound(Begun(w, tid, code))
  {
    BegunShape(w, tid, code);
    BegunPledged(w.log, w.threads, tid, NewThread(code, PictureOf(ViewOf(w.sys.r), Latest(w))), Latest(w));
  }

  lemma MovedSound(w: World, m: Move)
    requires Sound(w) && Possible(w, m)
    ensures Sound(Moved(w, m))
  {
    match m
    case Begin(tid, trigger) =>
      HandlerDrilled(tid, trigger);
      BegunSound(w, tid, CodeOf(Items(tid, trigger)));
    case Go(tid) => if w.threads[tid].code[0].Act? { ActedSound(w, tid); } else { LocalSound(w, tid); }
  }

  lemma {:induction false} RanSound(w: World, ms: seq<Move>)
    requires Sound(w) && LegalMoves(w, ms)
    ensures Sound(Ran(w, ms))
    decreases |ms|
  {
    if ms != [] {
      MovedSound(w, ms[0]);
      RanSound(Moved(w, ms[0]), ms[1..]);
    }
  }

  lemma StartedSound(mask: seq<bool>, zoneCount: int)
    requires |mask| == MAX_ZONES + 1
    ensures Sound(Started(mask, zoneCount))
  {
    var w := Started(mask, zoneCount);
    assert Recent(w.log[0], Latest(w));
  }

  // --- At rest ----------------------------------------------------------------------------

  /** What events carry comes in three parts. */
  datatype Part = OwnerPart | PendingPart | StackPart

  predicate SamePart(part: Part, v: View, u: View) {
    match part
    case OwnerPart => v.owner == u.owner
    case PendingPart => v.pending == u.pending
    case StackPart => v.stack == u.stack
  }

  function ReadWhen(part: Part, p: Picture): nat {
    match part
    case OwnerPart => p.owner.at
    case PendingPart => p.pending.at
    case StackPart => p.stack.at
  }

  ghost predicate Current(w: World)
    requires Shape(w)
  {
    var p := Cache(w);
    View(p.owner.value, p.pending.value, p.stack.value) == ViewOf(w.sys.r)
  }

  /** That part changed between the moments `a` and `b`. */
  ghost predicate ChangedIn(past: seq<View>, part: Part, a: nat, b: nat) {
    exists k | a < k <= b && k < |past| :: !SamePart(part, past[k - 1], past[k])
  }

  lemma {:induction false} DifferenceIsChange(past: seq<View>, part: Part, a: nat, b: nat)
    requires a <= b < |past| && !SamePart(part, past[a], past[b])
    ensures ChangedIn(past, part, a, b)
    decreases b
  {
    if SamePart(part, past[b - 1], past[b]) {
      DifferenceIsChange(past, part, a, b - 1);
    }
  }

  /** The last event has read that part before a change of it. */
  ghost predicate Missed(w: World, part: Part)
    requires Shape(w)
  {
    ChangedIn(w.past, part, ReadWhen(part, Cache(w)), Latest(w))
  }

  /** An event published before the last one had seen a change of that part which the last one missed. */
  ghost predicate Overtaken(w: World, part: Part)
    requires Shape(w)
  {
    exists i | 0 <= i < |w.log| - 1 :: ChangedIn(w.past, part, ReadWhen(part, Cache(w)), ReadWhen(part, w.log[i]))
  }

  /** Later changes have led back to what the last event carries. */
  ghost predicate Undone(w: World, part: Part)
    requires Shape(w)
  {
    var at := ReadWhen(part, Cache(w));
    at < |w.past| && SamePart(part, w.past[at], w.past[Latest(w)])
  }

  lemma StalePart(w: World) returns (part: Part)
    requires Shape(w) && !Current(w)
    ensures Missed(w, part) && !Undone(w, part)
  {
    var p, last := Cache(w), Latest(w);
    assert True(p, w.past);
    part := if p.owner.value != w.sys.r.owner then OwnerPart
            else if p.pending.value != w.sys.r.pending then PendingPart else StackPart;
    DifferenceIsChange(w.past, part, ReadWhen(part, p), last);
  }

  lemma CurrentIsUndone(w: World, part: Part)
    requires Shape(w) && Current(w)
    ensures Undone(w, part)
  {
    assert True(Cache(w), w.past);
  }

  lemma ChangedInMore(past: seq<View>, part: Part, a: nat, b: nat, c: nat)
    requires ChangedIn(past, part, a, b) && b <= c
    ensures ChangedIn(past, part, a, c)
  {
    var k :| a < k <= b && k < |past| && !SamePart(part, past[k - 1], past[k]);
  }

  lemma RecentWhen(part: Part, p: Picture, since: nat)
    requires Recent(p, since)
    ensures ReadWhen(part, p) >= since
  {
  }

  /** What no thread is left to report has been reported. */
  lemma MissedIsOvertaken(w: World, part: Part)
    requires Sound(w) && w.threads == map[] && Missed(w, part)
    ensures Overtaken(w, part)
  {
    var last, at := Latest(w), ReadWhen(part, Cache(w));
    assert Told(w.log, last);
    var i :| 0 <= i < |w.log| && Recent(w.log[i], last);
    RecentWhen(part, w.log[i], last);
    ChangedInMore(w.past, part, at, last, ReadWhen(part, w.log[i]));
    assert at < last;
  }

  lemma OvertakenIsMissed(w: World, part: Part)
    requires Shape(w) && Overtaken(w, part)
    ensures Missed(w, part)
  {
    var at := ReadWhen(part, Cache(w));
    var i :| 0 <= i < |w.log| - 1 && ChangedIn(w.past, part, at, ReadWhen(part, w.log[i]));
    if ReadWhen(part, w.log[i]) <= Latest(w) {
      ChangedInMore(w.past, part, at, ReadWhen(part, w.log[i]), Latest(w));
    }
  }

  /**
   After every run of overlapping handlers that has come to rest: the last event has missed a change of a
   part if and only if an event published before it had seen that change, and the cache is stale if and
   only if that has happened to a part and later changes have not undone it.
   */
  lemma StaleAtRestIff(mask: seq<bool>, zoneCount: int, ms: seq<Move>)
    requires |mask| == MAX_ZONES + 1 && LegalMoves(Started(mask, zoneCount), ms)
    requires Ran(Started(mask, zoneCount), ms).threads == map[]
    ensures var w := Ran(Started(mask, zoneCount), ms);
            && (forall part :: Missed(w, part) <==> Overtaken(w, part))
            && (!Current(w) <==> exists part :: Overtaken(w, part) && !Undone(w, part))
  {
    StartedSound(mask, zoneCount);
    RanSound(Started(mask, zoneCount), ms);
    AtRest(Ran(Started(mask, zoneCount), ms));
  }

  lemma AtRest(w: World)
    requires Sound(w) && w.threads == map[]
    ensures forall part :: Missed(w, part) <==> Overtaken(w, part)
    ensures !Current(w) <==> exists part :: Overtaken(w, part) && !Undone(w, part)
  {
    forall part ensures Missed(w, part) <==> Overtaken(w, part) {
      if Missed(w, part) { MissedIsOvertaken(w, part); }
      if Overtaken(w, part) { OvertakenIsMissed(w, part); }
    }
    if Current(w) {
      forall part ensures Undone(w, part) { CurrentIsUndone(w, part); }
    } else {
      var part := StalePart(w);
    }
  }

  // --- Publishing in order ----------------------------------------------------------------

  /** No event was read, in any part, before an event published earlier. */
  predicate InOrder(log: seq<Picture>) {
    forall i, j | 0 <= i < j < |log| ::
      log[i].owner.at <= log[j].owner.at && log[i].pending.at <= log[j].pending.at && log[i].stack.at <= log[j].stack.at
  }

  lemma InOrderOvertakesNothing(w: World, part: Part)
    requires Shape(w) && InOrder(w.log)
    ensures !Overtaken(w, part)
  {
    forall i | 0 <= i < |w.log| - 1 ensures ReadWhen(part, w.log[i]) <= ReadWhen(part, Cache(w)) {
    }
  }

  /** Publishing in the order of reading leaves the cache current whenever no handler is under way. */
  lemma InOrderIsCurrent(mask: seq<bool>, zoneCount: int, ms: seq<Move>)
    requires |mask| == MAX_ZONES + 1 && LegalMoves(Started(mask, zoneCount), ms)
    requires Ran(Started(mask, zoneCount), ms).threads == map[] && InOrder(Ran(Started(mask, zoneCount), ms).log)
    ensures Current(Ran(Started(mask, zoneCount), ms))
  {
    StartedSound(mask, zoneCount);
    RanSound(Started(mask, zoneCount), ms);
    var w := Ran(Started(mask, zoneCount), ms);
    AtRest(w);
    forall part ensures !Overtaken(w, part) { InOrderOvertakesNothing(w, part); }
  }

  // --- A run that ends stale --------------------------------------------------------------

  ghost predicate Leads(w: World, ms: seq<Move>, t: World)
    requires Shape(w)
  {
    LegalMoves(w, ms) && Ran(w, ms) == t
  }

  ghost predicate Reaches(w: World, t: World) {
    Shape(w) && exists ms :: Leads(w, ms, t)
  }

  lemma ReachesSelf(w: World)
    requires Shape(w)
    ensures Reaches(w, w)
  {
    assert Leads(w, [], w);
  }

  lemma MoveFirst(w: World, m: Move, ms: seq<Move>, t: World)
    requires Shape(w) && Possible(w, m) && Shape(Moved(w, m)) && Leads(Moved(w, m), ms, t)
    ensures Leads(w, [m] + ms, t)
  {
    assert ([m] + ms)[1..] == ms;
  }

  lemma ReachesOn(w: World, m: Move, t: World)
    requires Shape(w) && Possible(w, m) && Reaches(Moved(w, m), t)
    ensures Reaches(w, t)
  {
    var ms :| Leads(Moved(w, m), ms, t);
    MoveFirst(w, m, ms, t);
  }

  lemma {:induction false} ReachesBy(w: World, ms: seq<Move>, u: World)
    requires Shape(w) && LegalMoves(w, ms) && Reaches(Ran(w, ms), u)
    ensures Reaches(w, u)
    decreases |ms|
  {
    if ms != [] {
      MovedShape(w, ms[0]);
      ReachesBy(Moved(w, ms[0]), ms[1..], u);
      ReachesOn(w, ms[0], u);
    }
  }

  lemma ReachesThrough(w: World, t: World, u: World)
    requires Reaches(w, t) && Reaches(t, u)
    ensures Reaches(w, u)
  {
    var ms :| Leads(w, ms, t);
    ReachesBy(w, ms, u);
  }

  lemma OneStep(w: World, m: Move) returns (n: World)
    requires Shape(w) && Possible(w, m)
    ensures n == Moved(w, m) && Shape(n) && Reaches(w, n)
  {
    n := Moved(w, m);
    MovedShape(w, m);
    ReachesSelf(n);
    ReachesOn(w, m, n);
  }

  lemma PutNext(threads: map<nat, Thread>, tid: nat, now: Picture, known: bool)
    requires tid in threads && threads[tid].code != []
    ensures var t, n := threads[tid], Put(threads, tid, Advanced(threads[tid], now, known));
            && n - {tid} == threads - {tid}
            && (if |t.code| == 1 then n == threads - {tid} else tid in n && n[tid].code == t.code[1..])
  {
    AdvancedCode(threads[tid], now, known);
  }

  lemma FinishStep(w: World, tid: nat) returns (n: World)
    requires Shape(w) && tid in w.threads && !w.threads[tid].code[0].Act?
    ensures Reaches(w, n) && Shape(n) && n.sys == w.sys && n.threads - {tid} == w.threads - {tid}
    ensures |w.threads[tid].code| == 1 ==> n.threads == w.threads - {tid}
    ensures |w.threads[tid].code| > 1 ==> tid in n.threads && n.threads[tid].code == w.threads[tid].code[1..]
  {
    n := LocalStep(w, tid);
    PutNext(w.threads, tid, PictureOf(ViewOf(w.sys.r), Latest(w)), Answer(w, w.threads[tid]));
  }

  lemma NoActRest(code: seq<Instr>)
    requires NoAct(code) && code != []
    ensures !code[0].Act? && NoAct(code[1..])
  {
  }

  /** A thread that changes nothing more can always run to its end. */
  lemma {:induction false} Finishes(w: World, tid: nat) returns (t: World)
    requires Shape(w) && tid in w.threads && NoAct(w.threads[tid].code)
    ensures Reaches(w, t) && Shape(t) && t.sys == w.sys && t.threads == w.threads - {tid}
    decreases |w.threads[tid].code|
  {
    NoActRest(w.threads[tid].code);
    var n := FinishStep(w, tid);
    if |w.threads[tid].code| == 1 {
      t := n;
    } else {
      t := Finishes(n, tid);
      ReachesThrough(w, n, t);
    }
  }

  lemma BeginStep(w: World, tid: nat, trigger: Trigger, code: seq<Instr>) returns (n: World)
    requires Shape(w) && tid !in w.threads && code == CodeOf(Items(tid, trigger)) && code != []
    ensures Reaches(w, n) && Shape(n) && n.sys == w.sys && n.past == w.past
    ensures n.threads == w.threads[tid := NewThread(code, PictureOf(ViewOf(w.sys.r), Latest(w)))]
  {
    n := OneStep(w, Begin(tid, trigger));
  }

  /** What thread `tid` is after its next instruction, which does not change the router. */
  ghost function NextOf(w: World, tid: nat): Thread
    requires Shape(w) && tid in w.threads
  {
    Advanced(w.threads[tid], PictureOf(ViewOf(w.sys.r), Latest(w)), Answer(w, w.threads[tid]))
  }

  lemma LocalStep(w: World, tid: nat) returns (n: World)
    requires Shape(w) && tid in w.threads && !w.threads[tid].code[0].Act?
    ensures Reaches(w, n) && Shape(n) && n.sys == w.sys && n.past == w.past
    ensures n.threads == Put(w.threads, tid, NextOf(w, tid))
    ensures n.log == w.log + Sent(w.threads[tid], Cache(w))
  {
    n := OneStep(w, Go(tid));
  }

  lemma ActStep(w: World, tid: nat) returns (n: World)
    requires Shape(w) && tid in w.threads && w.threads[tid].code[0].Act?
    requires Legal(w.sys, w.threads[tid].code[0].step)
    ensures Reaches(w, n) && Shape(n) && n == Acted(w, tid)
  {
    n := OneStep(w, Go(tid));
  }

  lemma AdvancedCode(t: Thread, now: Picture, known: bool)
    requires t.code != []
    ensures Advanced(t, now, known).code == t.code[1..]
    ensures t.code[0].ReadOwner? || t.code[0].ReadPending? || t.code[0].ReadStack? ==>
            Advanced(t, now, known) == Advanced(t, now, false)
  {
  }

  lemma PutOnly(tid: nat, t: Thread, u: Thread)
    ensures Put(map[tid := t], tid, u) == if u.code == [] then map[] else map[tid := u]
  {
  }

  /** A read by the only thread under way. */
  lemma Reads(w: World, t: Thread) returns (n: World, u: Thread)
    requires Shape(w) && w.threads == map[7 := t] && |t.code| > 1
    requires t.code[0].ReadOwner? || t.code[0].ReadPending? || t.code[0].ReadStack?
    ensures Reaches(w, n) && Shape(n) && n.sys == w.sys && n.past == w.past && n.threads == map[7 := u]
    ensures u == Advanced(t, PictureOf(ViewOf(w.sys.r), Latest(w)), false)
  {
    u := NextOf(w, 7);
    n := LocalStep(w, 7);
    AdvancedCode(t, PictureOf(ViewOf(w.sys.r), Latest(w)), Answer(w, t));
    PutOnly(7, t, u);
  }

  lemma SnapshotBegins(w: World) returns (n: World)
    requires Shape(w) && w.threads == map[]
    ensures Reaches(w, n) && Shape(n) && n.sys == w.sys && n.past == w.past
    ensures n.threads == map[7 := NewThread(Full(Always), PictureOf(ViewOf(w.sys.r), Latest(w)))]
  {
    assert [News(Always)][1..] == [];
    n := BeginStep(w, 7, ProfileEvent, Full(Always));
  }

  lemma ReadsAll(w: World, t: Thread, now: Picture) returns (n: World, u: Thread)
    requires Shape(w) && w.threads == map[7 := t] && t.code == Full(Always)
    requires now == PictureOf(ViewOf(w.sys.r), Latest(w))
    ensures Reaches(w, n) && Shape(n) && n.sys == w.sys && n.threads == map[7 := u]
    ensures u.code == [Publish(Always)] && u.draft == now
  {
    var w1, t1 := Reads(w, t);
    var w2, t2 := Reads(w1, t1);
    n, u := Reads(w2, t2);
    ReachesThrough(w1, w2, n);
    ReachesThrough(w, w1, n);
  }

  /** Thread 7 reads a snapshot and is then held up. */
  lemma HeldUp(w: World) returns (n: World, t: Thread)
    requires Shape(w) && w.threads == map[]
    ensures Reaches(w, n) && Shape(n) && n.sys == w.sys && n.threads == map[7 := t]
    ensures t.code == [Publish(Always)] && t.draft == PictureOf(ViewOf(w.sys.r), Latest(w))
  {
    var now := PictureOf(ViewOf(w.sys.r), Latest(w));
    var w0 := SnapshotBegins(w);
    n, t := ReadsAll(w0, NewThread(Full(Always), now), now);
    ReachesThrough(w, w0, n);
  }

  /** Thread 7 is let go. */
  lemma LetGo(w: World, t: Thread) returns (n: World)
    requires Shape(w) && w.threads == map[7 := t] && t.code == [Publish(Always)]
    ensures Reaches(w, n) && n.sys == w.sys && n.threads == map[] && Cache(n) == t.draft
  {
    n := LocalStep(w, 7);
    PutOnly(7, t, NextOf(w, 7));
  }

  function JoinOfOne(): Trigger { Broker(RouteJoinRequest(1)) }

  lemma JoinCode() returns (rest: seq<Instr>)
    ensures NoAct(rest) && rest != [] && CodeOf(Items(8, JoinOfOne())) == [Act(Join(1))] + rest
  {
    var tail := [Asked(1), News(IfKnown), News(Always)];
    rest := CodeOf(tail);
    assert Items(8, JoinOfOne())[1..] == tail;
    assert tail[1..] == [News(IfKnown), News(Always)] && tail[1..][1..] == [News(Always)] && [News(Always)][1..] == [];
  }

  lemma Newcomer(threads: map<nat, Thread>, tid: nat, t: Thread)
    requires tid !in threads
    ensures threads[tid := t] - {tid} == threads
  {
  }

  lemma Arrives(w: World, tid: nat, trigger: Trigger, code: seq<Instr>) returns (n: World)
    requires Shape(w) && tid !in w.threads && code == CodeOf(Items(tid, trigger)) && code != []
    ensures Reaches(w, n) && Shape(n) && n.sys == w.sys
    ensures tid in n.threads && n.threads[tid].code == code && n.threads - {tid} == w.threads
  {
    n := BeginStep(w, tid, trigger, code);
    Newcomer(w.threads, tid, n.threads[tid]);
  }

  lemma OneJoins(sys: Sys)
    requires sys.Shape() && sys.r.stack == [] && sys.r.handoff == 0 && sys.r.enabled[1]
    ensures Legal(sys, Join(1)) && Next(sys, Join(1)).r.owner == 1 && Next(sys, Join(1)).r.stack == [1]
  {
  }

  lemma OneJoined(w: World, rest: seq<Instr>)
    requires Shape(w) && 8 in w.threads && w.threads[8].code == [Act(Join(1))] + rest && rest != []
    requires Legal(w.sys, Join(1))
    ensures var n := Acted(w, 8);
            && n.sys == Next(w.sys, Join(1)) && n.threads - {8} == w.threads - {8}
            && 8 in n.threads && n.threads[8].code == rest
  {
    assert w.threads[8].code[1..] == rest;
  }

  lemma JoinDone(w: World, rest: seq<Instr>) returns (n: World)
    requires Shape(w) && 8 in w.threads && w.threads[8].code == [Act(Join(1))] + rest && rest != []
    requires w.sys.r.stack == [] && w.sys.r.handoff == 0 && w.sys.r.enabled[1]
    ensures Reaches(w, n) && Shape(n) && n.sys.r.owner == 1 && n.sys.r.stack == [1]
    ensures 8 in n.threads && n.threads[8].code == rest && n.threads - {8} == w.threads - {8}
  {
    OneJoins(w.sys);
    OneJoined(w, rest);
    n := ActStep(w, 8);
  }

  /** Zone 1 joins an idle router, and thread 8 reports it. */
  lemma JoinReported(w: World, waiting: map<nat, Thread>) returns (n: World)
    requires Shape(w) && w.threads == waiting && 8 !in waiting
    requires w.sys.r.stack == [] && w.sys.r.handoff == 0 && w.sys.r.enabled[1]
    ensures Reaches(w, n) && Shape(n) && n.sys.r.owner == 1 && n.sys.r.stack == [1] && n.threads == waiting
  {
    var rest := JoinCode();
    var w0 := Arrives(w, 8, JoinOfOne(), [Act(Join(1))] + rest);
    var w1 := JoinDone(w0, rest);
    n := Finishes(w1, 8);
    ReachesThrough(w0, w1, n);
    ReachesThrough(w, w0, n);
  }

  /**
   Such a run: a snapshot of the idle router is read, zone 1 joins and is reported, and the snapshot is
   published last.
   */
  lemma StaleRun(mask: seq<bool>, zoneCount: int)
    requires |mask| == MAX_ZONES + 1 && mask[1]
    ensures exists ms :: LegalMoves(Started(mask, zoneCount), ms) &&
              var w := Ran(Started(mask, zoneCount), ms);
              w.threads == map[] && w.sys.r.owner == 1 && Cache(w).owner.value == 0
  {
    var w := Started(mask, zoneCount);
    var w1, held := HeldUp(w);
    var w2 := JoinReported(w1, map[7 := held]);
    var w3 := LetGo(w2, held);
    ReachesThrough(w1, w2, w3);
    ReachesThrough(w, w1, w3);
  }

  /** A snapshot that has its stack waits while zone 1 joins, and then reads the rest and is published. */
  lemma Torn(w: World) returns (n: World)
    requires Shape(w) && w.threads == map[] && w.sys.r.stack == [] && w.sys.r.handoff == 0 && w.sys.r.enabled[1]
    ensures Reaches(w, n) && n.threads == map[] && n.sys.r.stack == [1]
    ensures Cache(n).owner.value == 1 && Cache(n).stack.value == []
  {
    var w1, t1 := StackRead(w);
    n := TornBetween(w1, t1);
    ReachesThrough(w, w1, n);
  }

  lemma StackRead(w: World) returns (n: World, t: Thread)
    requires Shape(w) && w.threads == map[]
    ensures Reaches(w, n) && Shape(n) && n.sys == w.sys && n.threads == map[7 := t]
    ensures t.code == [ReadOwner, ReadPending, Publish(Always)] && t.draft.stack.value == w.sys.r.stack
  {
    var w0 := SnapshotBegins(w);
    assert Full(Always)[1..] == [ReadOwner, ReadPending, Publish(Always)];
    n, t := Reads(w0, NewThread(Full(Always), PictureOf(ViewOf(w.sys.r), Latest(w))));
    ReachesThrough(w, w0, n);
  }

  lemma TornBetween(w: World, t: Thread) returns (n: World)
    requires Shape(w) && w.threads == map[7 := t] && t.code == [ReadOwner, ReadPending, Publish(Always)]
    requires w.sys.r.stack == [] && w.sys.r.handoff == 0 && w.sys.r.enabled[1]
    ensures Reaches(w, n) && n.threads == map[] && n.sys.r.stack == [1]
    ensures Cache(n).owner.value == 1 && Cache(n).stack == t.draft.stack
  {
    var joined := JoinReported(w, map[7 := t]);
    n := ReadsOn(joined, t);
    ReachesThrough(w, joined, n);
  }

  /** The reads that are left, and the publication. */
  lemma ReadsOn(w: World, t: Thread) returns (n: World)
    requires Shape(w) && w.threads == map[7 := t] && t.code == [ReadOwner, ReadPending, Publish(Always)]
    ensures Reaches(w, n) && n.sys == w.sys && n.threads == map[]
    ensures Cache(n).owner.value == w.sys.r.owner && Cache(n).stack == t.draft.stack
  {
    var w1, t1 := Reads(w, t);
    var w2, t2 := Reads(w1, t1);
    n := LetGo(w2, t2);
    ReachesThrough(w1, w2, n);
    ReachesThrough(w, w1, n);
  }

  /** The cache can end with the owner from after a join and the stack from before it. */
  lemma TornRun(mask: seq<bool>, zoneCount: int)
    requires |mask| == MAX_ZONES + 1 && mask[1]
    ensures exists ms :: LegalMoves(Started(mask, zoneCount), ms) &&
              var w := Ran(Started(mask, zoneCount), ms);
              && w.threads == map[] && w.sys.r.stack == [1]
              && Cache(w).owner.value == 1 && Cache(w).stack.value == []
  {
    var n := Torn(Started(mask, zoneCount));
  }

  // --- What publishing means to the backend -----------------------------------------------

  function CacheOf(p: Picture): Cached { Cached(p.owner.value, p.stack.value, Some(p.pending.value)) }

  /** Whichever kind of event is published, the backend's cache becomes the published picture. */
  lemma PublishIsIngest(cache: Picture, draft: Picture, disabledTo: Reading<int>, zones: seq<int>)
    ensures var o, p, st := draft.owner.value, draft.pending.value, draft.stack.value;
            && Ingested(Some(CacheOf(cache)), RouterSnapshot(o, p, st, zones)) == Some(CacheOf(draft))
            && Ingested(Some(CacheOf(cache)), RoutingChanged(o, p, st, zones)) == Some(CacheOf(draft))
            && Ingested(Some(CacheOf(cache)), OwnerPending(o, p, st)) == Some(CacheOf(draft))
            && Ingested(Some(CacheOf(cache)), OwnerChanged(o, Some(p), st)) == Some(CacheOf(draft))
            && Ingested(Some(CacheOf(cache)), OwnerChanged(disabledTo.value, None, st)) ==
               Some(CacheOf(Picture(disabledTo, cache.pending, draft.stack)))
  {
  }
}
