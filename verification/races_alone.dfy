/**
 The steps of `OwnerRaces` against the service: what a thread publishes while nobody interrupts it, and what
 comes of a report that is interrupted in its middle.
 */
module RacesAlone {
  import opened Text
  import opened Routing
  import opened RoutingRuns
  import opened OwnerEvents
  import opened Handlers
  import opened OwnerRaces

  predicate Knows(t: Thread, zoneCount: int, enabled: seq<bool>)
    requires |enabled| == MAX_ZONES + 1 && t.code != []
  {
    t.code[0].Ask? && 1 <= t.code[0].zone <= zoneCount && On(enabled, t.code[0].zone)
  }

  lemma NoActFirst(code: seq<Instr>, n: nat)
    requires 0 < n <= |code| && NoAct(code[..n])
    ensures !code[0].Act? && NoAct(code[1..][..n - 1])
  {
    assert code[0] == code[..n][0];
    assert code[1..][..n - 1] == code[..n][1..];
  }

  /** The next `n` instructions of a thread, without interruption: the thread, and what the cache has held since. */
  ghost function Exec(t: Thread, now: Picture, zoneCount: int, enabled: seq<bool>, cache: Picture, n: nat)
    : (Thread, seq<Picture>)
    requires |enabled| == MAX_ZONES + 1 && n <= |t.code| && NoAct(t.code[..n])
    decreases n
  {
    if n == 0 then (t, [])
    else
      NoActFirst(t.code, n);
      AdvancedCode(t, now, Knows(t, zoneCount, enabled));
      var said := Sent(t, cache);
      var (u, more) := Exec(Advanced(t, now, Knows(t, zoneCount, enabled)), now, zoneCount, enabled,
                            if said == [] then cache else said[|said| - 1], n - 1);
      (u, said + more)
  }

  lemma PutPut(threads: map<nat, Thread>, tid: nat, t: Thread, u: Thread)
    requires tid in threads && t.code != []
    ensures Put(threads, tid, threads[tid]) == if threads[tid].code == [] then threads - {tid} else threads
    ensures Put(threads[tid := t], tid, u) == Put(threads, tid, u)
  {
  }

  lemma CodeLeft(w: World, tid: nat)
    requires Shape(w)
    ensures w.log != [] && w.past != [] && |w.sys.r.enabled| == MAX_ZONES + 1
    ensures tid in w.threads ==> w.threads[tid].code != []
  {
  }

  lemma OneGo(w: World, tid: nat) returns (m: World)
    requires Shape(w) && tid in w.threads && !w.threads[tid].code[0].Act?
    ensures Reaches(w, m) && Shape(m) && m.sys == w.sys && m.past == w.past && m.zoneCount == w.zoneCount
    ensures var t := w.threads[tid];
            && m.log == w.log + Sent(t, Cache(w))
            && m.threads == Put(w.threads, tid, Advanced(t, PictureOf(ViewOf(w.sys.r), Latest(w)),
                                                         Knows(t, w.zoneCount, w.sys.r.enabled)))
  {
    m := OneStep(w, Go(tid));
  }

  /** The world makes the same of them. */
  lemma {:induction false} Executes(w: World, tid: nat, n: nat) returns (m: World)
    requires Shape(w) && tid in w.threads && n <= |w.threads[tid].code| && NoAct(w.threads[tid].code[..n])
    ensures Reaches(w, m) && Shape(m) && m.sys == w.sys && m.past == w.past && m.zoneCount == w.zoneCount
    ensures var (u, said) := Exec(w.threads[tid], PictureOf(ViewOf(w.sys.r), Latest(w)), w.zoneCount, w.sys.r.enabled,
                                  Cache(w), n);
            m.log == w.log + said && m.threads == Put(w.threads, tid, u)
    decreases n
  {
    hide Advanced, Sent, Reaches, Knows, Truthful;
    var t, now := w.threads[tid], PictureOf(ViewOf(w.sys.r), Latest(w));
    CodeLeft(w, tid);
    PutPut(w.threads, tid, t, t);
    if n == 0 {
      m := w;
      ReachesSelf(w);
    } else {
      NoActFirst(t.code, n);
      var next := Advanced(t, now, Knows(t, w.zoneCount, w.sys.r.enabled));
      AdvancedCode(t, now, Knows(t, w.zoneCount, w.sys.r.enabled));
      var v := OneGo(w, tid);
      CodeLeft(v, tid);
      if next.code == [] {
        m := v;
      } else {
        m := Executes(v, tid, n - 1);
        ReachesThrough(w, v, m);
        PutPut(w.threads, tid, next, Exec(next, now, w.zoneCount, w.sys.r.enabled, Cache(v), n - 1).0);
        Joins(w.log, Sent(t, Cache(w)), Exec(next, now, w.zoneCount, w.sys.r.enabled, Cache(v), n - 1).1);
      }
    }
  }

  // --- One item ---------------------------------------------------------------------------

  /** What an item publishes while nothing changes; `now` is the present of the router. */
  function Published(item: Item, t: Thread, now: Picture, cache: Picture): seq<Picture> {
    match item
    case OwnerNews(when) =>
      if !Holds(when, t.outcome, t.known) then []
      else (if now.pending.value > 0 && now.pending.value != t.previousPending then [now] else []) +
           if now.owner.value != t.previousOwner then [now] else []
    case News(when) => if Holds(when, t.outcome, t.known) then [now] else []
    case Report => [now, now]
    case DisabledNews =>
      (match t.disabledTo
       case None => []
       case Some(o) => [Picture(o, cache.pending, now.stack)])
    case _ => []
  }

  /** What the thread remembers afterwards. */
  function Remembers(item: Item, t: Thread, now: Picture, zoneCount: int, enabled: seq<bool>): Thread
    requires |enabled| == MAX_ZONES + 1
  {
    match item
    case Noted => t.(previousOwner := now.owner.value, previousPending := now.pending.value)
    case Asked(zone) => t.(known := 1 <= zone <= zoneCount && On(enabled, zone))
    case _ => t
  }

  /** Alike but for the events under construction. */
  predicate Alike(t: Thread, u: Thread) {
    t.(draft := u.draft, kept := u.kept) == u
  }

  lemma ExecNext(t: Thread, i: Instr, rest: seq<Instr>, now: Picture, zoneCount: int, enabled: seq<bool>,
                 cache: Picture, n: nat)
    requires |enabled| == MAX_ZONES + 1 && t.code == [i] + rest && 0 < n <= |t.code| && !i.Act? && NoAct(rest[..n - 1])
    ensures NoAct(t.code[..n])
    ensures var next, said := Advanced(t, now, Knows(t, zoneCount, enabled)), Sent(t, cache);
            && next.code == rest
            && Exec(t, now, zoneCount, enabled, cache, n) ==
               (Exec(next, now, zoneCount, enabled, if said == [] then cache else said[|said| - 1], n - 1).0,
                said + Exec(next, now, zoneCount, enabled, if said == [] then cache else said[|said| - 1], n - 1).1)
  {
    AdvancedCode(t, now, Knows(t, zoneCount, enabled));
    assert t.code[1..] == rest;
    forall k | 0 <= k < n ensures !t.code[..n][k].Act? {
      assert t.code[..n][k] == if k == 0 then i else rest[..n - 1][k - 1];
    }
  }

  /** A snapshot is read from one state of the router. */
  lemma SnapshotRead(t: Thread, rest: seq<Instr>, now: Picture, zoneCount: int, enabled: seq<bool>, cache: Picture,
                     n: nat)
    requires |enabled| == MAX_ZONES + 1 && t.code == [ReadStack, ReadOwner, ReadPending] + rest
    requires n <= |rest| && NoAct(rest[..n])
    ensures NoAct(t.code[..n + 3])
    ensures Exec(t, now, zoneCount, enabled, cache, n + 3) ==
            Exec(t.(code := rest, draft := now), now, zoneCount, enabled, cache, n)
  {
    hide NoAct, Exec;
    var two, one := [ReadOwner, ReadPending] + rest, [ReadPending] + rest;
    var t1 := t.(code := two, draft := t.draft.(stack := now.stack));
    var t2 := t1.(code := one, draft := t1.draft.(owner := now.owner));
    var t3 := t2.(code := rest, draft := t2.draft.(pending := now.pending));
    assert t.code == [ReadStack] + two && two == [ReadOwner] + one;
    OneMore(ReadPending, rest, n);
    OneMore(ReadOwner, one, n + 1);
    ExecNext(t, ReadStack, two, now, zoneCount, enabled, cache, n + 3);
    ExecNext(t1, ReadOwner, one, now, zoneCount, enabled, cache, n + 2);
    ExecNext(t2, ReadPending, rest, now, zoneCount, enabled, cache, n + 1);
    var said := Exec(t3, now, zoneCount, enabled, cache, n).1;
    assert [] + said == said;
    assert t3 == t.(code := rest, draft := now);
  }

  lemma OneMore(i: Instr, rest: seq<Instr>, n: nat)
    requires n <= |rest| && NoAct(rest[..n]) && !i.Act?
    ensures NoAct(([i] + rest)[..n + 1])
  {
    assert ([i] + rest)[..n + 1] == [i] + rest[..n];
  }

  lemma Silent(t: Thread, i: Instr, rest: seq<Instr>, now: Picture, zoneCount: int, enabled: seq<bool>,
               cache: Picture, n: nat)
    requires |enabled| == MAX_ZONES + 1 && t.code == [i] + rest && n <= |rest| && !i.Act? && NoAct(rest[..n])
    requires Sent(t, cache) == []
    ensures NoAct(t.code[..n + 1])
    ensures Exec(t, now, zoneCount, enabled, cache, n + 1) ==
            Exec(Advanced(t, now, Knows(t, zoneCount, enabled)), now, zoneCount, enabled, cache, n)
  {
    hide NoAct, Exec;
    ExecNext(t, i, rest, now, zoneCount, enabled, cache, n + 1);
    var said := Exec(Advanced(t, now, Knows(t, zoneCount, enabled)), now, zoneCount, enabled, cache, n).1;
    assert [] + said == said;
  }

  lemma NoMore(t: Thread, now: Picture, zoneCount: int, enabled: seq<bool>, cache: Picture)
    requires |enabled| == MAX_ZONES + 1
    ensures NoAct(t.code[..0]) && Exec(t, now, zoneCount, enabled, cache, 0) == (t, [])
  {
  }

  /** The last instruction of an item. */
  lemma SaysLast(t: Thread, i: Instr, rest: seq<Instr>, now: Picture, zoneCount: int, enabled: seq<bool>,
                 cache: Picture)
    requires |enabled| == MAX_ZONES + 1 && t.code == [i] + rest && !i.Act?
    ensures NoAct(t.code[..1])
    ensures Exec(t, now, zoneCount, enabled, cache, 1) ==
            (Advanced(t, now, Knows(t, zoneCount, enabled)), Sent(t, cache))
    ensures Advanced(t, now, Knows(t, zoneCount, enabled)).code == rest
  {
    hide Exec;
    AdvancedCode(t, now, Knows(t, zoneCount, enabled));
    assert t.code[1..] == rest;
    var said := Sent(t, cache);
    NoMore(Advanced(t, now, Knows(t, zoneCount, enabled)), now, zoneCount, enabled,
           if said == [] then cache else said[|said| - 1]);
    ExecNext(t, i, rest, now, zoneCount, enabled, cache, 1);
    assert Sent(t, cache) + [] == Sent(t, cache);
  }

  /** The item was executed, and this came of it. */
  ghost predicate Executed(item: Item, t: Thread, rest: seq<Instr>, now: Picture, zoneCount: int,
                           enabled: seq<bool>, cache: Picture)
    requires |enabled| == MAX_ZONES + 1 && t.code == Code(item) + rest
  {
    NoAct(t.code[..|Code(item)|]) &&
    var (u, said) := Exec(t, now, zoneCount, enabled, cache, |Code(item)|);
    && said == Published(item, t, now, cache)
    && Alike(Remembers(item, t, now, zoneCount, enabled).(code := rest), u)
  }

  lemma NewsAlone(when: When, t: Thread, rest: seq<Instr>, now: Picture, zoneCount: int, enabled: seq<bool>,
                  cache: Picture)
    requires |enabled| == MAX_ZONES + 1 && t.code == Full(when) + rest
    ensures Executed(News(when), t, rest, now, zoneCount, enabled, cache)
  {
    hide Exec;
    var tail := [Publish(when)] + rest;
    assert t.code == [ReadStack, ReadOwner, ReadPending] + tail;
    var u := t.(code := tail, draft := now);
    SaysLast(u, Publish(when), rest, now, zoneCount, enabled, cache);
    SnapshotRead(t, tail, now, zoneCount, enabled, cache, 1);
  }

  lemma NotedAlone(t: Thread, rest: seq<Instr>, now: Picture, zoneCount: int, enabled: seq<bool>, cache: Picture)
    requires |enabled| == MAX_ZONES + 1 && t.code == Code(Noted) + rest
    ensures Executed(Noted, t, rest, now, zoneCount, enabled, cache)
  {
    hide Exec;
    var tail := [NotePending] + rest;
    assert t.code == [NoteOwner] + tail;
    var u := t.(code := tail, previousOwner := now.owner.value);
    SaysLast(u, NotePending, rest, now, zoneCount, enabled, cache);
    Silent(t, NoteOwner, tail, now, zoneCount, enabled, cache, 1);
  }

  lemma AskedAlone(zone: int, t: Thread, rest: seq<Instr>, now: Picture, zoneCount: int, enabled: seq<bool>,
                   cache: Picture)
    requires |enabled| == MAX_ZONES + 1 && t.code == Code(Asked(zone)) + rest
    ensures Executed(Asked(zone), t, rest, now, zoneCount, enabled, cache)
  {
    hide Exec;
    SaysLast(t, Ask(zone), rest, now, zoneCount, enabled, cache);
  }

  lemma DisabledAlone(t: Thread, rest: seq<Instr>, now: Picture, zoneCount: int, enabled: seq<bool>, cache: Picture)
    requires |enabled| == MAX_ZONES + 1 && t.code == Code(DisabledNews) + rest
    ensures Executed(DisabledNews, t, rest, now, zoneCount, enabled, cache)
  {
    hide Exec;
    var tail := [PublishDisabled] + rest;
    assert t.code == [ReadStack] + tail;
    var u := t.(code := tail, draft := t.draft.(stack := now.stack));
    SaysLast(u, PublishDisabled, rest, now, zoneCount, enabled, cache);
    Silent(t, ReadStack, tail, now, zoneCount, enabled, cache, 1);
  }

  /** The two events about the owner, once all has been read. */
  lemma OwnerNewsSaid(when: When, t: Thread, rest: seq<Instr>, now: Picture, zoneCount: int, enabled: seq<bool>,
                      cache: Picture)
    requires |enabled| == MAX_ZONES + 1 && t.draft == now
    requires t.code == [PublishPending(when)] + ([ReadStack] + ([PublishOwner(when)] + rest))
    ensures NoAct(t.code[..3])
    ensures Exec(t, now, zoneCount, enabled, cache, 3) == (t.(code := rest), Published(OwnerNews(when), t, now, cache))
  {
    hide Exec, NoAct;
    var one := [PublishOwner(when)] + rest;
    var two := [ReadStack] + one;
    var t2, t1 := t.(code := two), t.(code := one);
    var said := Sent(t, cache);
    var later := if said == [] then cache else said[|said| - 1];
    SaysLast(t1, PublishOwner(when), rest, now, zoneCount, enabled, later);
    Silent(t2, ReadStack, one, now, zoneCount, enabled, later, 1);
    ExecNext(t, PublishPending(when), two, now, zoneCount, enabled, cache, 3);
    assert Advanced(t2, now, Knows(t2, zoneCount, enabled)) == t1;
    assert said + Sent(t1, later) == Published(OwnerNews(when), t, now, cache);
  }

  lemma OwnerNewsAlone(when: When, t: Thread, rest: seq<Instr>, now: Picture, zoneCount: int, enabled: seq<bool>,
                       cache: Picture)
    requires |enabled| == MAX_ZONES + 1 && t.code == Code(OwnerNews(when)) + rest
    ensures Executed(OwnerNews(when), t, rest, now, zoneCount, enabled, cache)
  {
    hide Exec, NoAct, Published;
    var three := [PublishPending(when)] + ([ReadStack] + ([PublishOwner(when)] + rest));
    var four, five := [ReadStack] + three, [ReadPending] + ([ReadStack] + three);
    assert t.code == [ReadOwner] + five;
    var t5 := t.(code := five, draft := t.draft.(owner := now.owner));
    var t4 := t5.(code := four, draft := t5.draft.(pending := now.pending));
    var t3 := t4.(code := three, draft := now);
    OwnerNewsSaid(when, t3, rest, now, zoneCount, enabled, cache);
    OneMore(ReadStack, three, 3);
    OneMore(ReadPending, four, 4);
    Silent(t4, ReadStack, three, now, zoneCount, enabled, cache, 3);
    Silent(t5, ReadPending, four, now, zoneCount, enabled, cache, 4);
    Silent(t, ReadOwner, five, now, zoneCount, enabled, cache, 5);
    SameRemembered(OwnerNews(when), t, t3, now, cache);
  }

  /** What is published depends on what the thread remembers alone. */
  lemma SameRemembered(item: Item, t: Thread, u: Thread, now: Picture, cache: Picture)
    requires Alike(t.(code := u.code), u)
    ensures Published(item, t, now, cache) == Published(item, u, now, cache)
  {
  }

  lemma ReportAlone(t: Thread, rest: seq<Instr>, now: Picture, zoneCount: int, enabled: seq<bool>, cache: Picture)
    requires |enabled| == MAX_ZONES + 1 && t.code == Code(Report) + rest
    ensures Executed(Report, t, rest, now, zoneCount, enabled, cache)
  {
    hide Exec;
    var one := [PublishKept] + rest;
    var two := [Publish(Always)] + one;
    var five := [ReadStack, ReadOwner, ReadPending] + two;
    var six := [Keep] + five;
    assert t.code == [ReadStack, ReadOwner, ReadPending] + six;
    var t6 := t.(code := six, draft := now);
    var t5 := t6.(code := five, kept := now);
    var t2 := t5.(code := two);
    var t1 := t5.(code := one);
    SaysLast(t1, PublishKept, rest, now, zoneCount, enabled, now);
    ExecNext(t2, Publish(Always), one, now, zoneCount, enabled, cache, 2);
    SnapshotRead(t5, two, now, zoneCount, enabled, cache, 2);
    Silent(t6, Keep, five, now, zoneCount, enabled, cache, 5);
    SnapshotRead(t, six, now, zoneCount, enabled, cache, 6);
    assert [now] + [now] == [now, now];
  }

  /** Without interruption each item publishes what it is about, of the present state, and nothing else. */
  lemma ItemAlone(item: Item, t: Thread, rest: seq<Instr>, now: Picture, zoneCount: int, enabled: seq<bool>,
                  cache: Picture)
    requires |enabled| == MAX_ZONES + 1 && t.code == Code(item) + rest && !item.Done?
    ensures Executed(item, t, rest, now, zoneCount, enabled, cache)
  {
    hide Exec, Executed;
    match item
    case Noted => NotedAlone(t, rest, now, zoneCount, enabled, cache);
    case Asked(zone) => AskedAlone(zone, t, rest, now, zoneCount, enabled, cache);
    case OwnerNews(when) => OwnerNewsAlone(when, t, rest, now, zoneCount, enabled, cache);
    case News(when) => NewsAlone(when, t, rest, now, zoneCount, enabled, cache);
    case Report => ReportAlone(t, rest, now, zoneCount, enabled, cache);
    case DisabledNews => DisabledAlone(t, rest, now, zoneCount, enabled, cache);
  }

  // --- The same events as the service's ---------------------------------------------------

  lemma PutLeaves(threads: map<nat, Thread>, tid: nat, u: Thread)
    ensures var n := Put(threads, tid, u);
            n - {tid} == threads - {tid} && (if u.code == [] then tid !in n else tid in n && n[tid] == u)
  {
  }

  /** In the world: an item that nobody interrupts adds just that to what the cache has held. */
  lemma ItemInWorld(w: World, tid: nat, item: Item, rest: seq<Instr>) returns (m: World)
    requires Shape(w) && tid in w.threads && w.threads[tid].code == Code(item) + rest && !item.Done?
    ensures Reaches(w, m) && Shape(m) && m.sys == w.sys && m.past == w.past && m.zoneCount == w.zoneCount
    ensures var t, now := w.threads[tid], PictureOf(ViewOf(w.sys.r), Latest(w));
            && m.log == w.log + Published(item, t, now, Cache(w))
            && m.threads - {tid} == w.threads - {tid}
            && (if rest == [] then tid !in m.threads
                else tid in m.threads
                     && Alike(Remembers(item, t, now, w.zoneCount, w.sys.r.enabled).(code := rest), m.threads[tid]))
  {
    hide Exec, Published, Code, Reaches;
    var t, now := w.threads[tid], PictureOf(ViewOf(w.sys.r), Latest(w));
    CodeLeft(w, tid);
    ItemAlone(item, t, rest, now, w.zoneCount, w.sys.r.enabled, Cache(w));
    m := Executes(w, tid, |Code(item)|);
    PutLeaves(w.threads, tid, Exec(t, now, w.zoneCount, w.sys.r.enabled, Cache(w), |Code(item)|).0);
  }

  /** What the items publish are the events of the service, as many and of the same content. */
  lemma PublishedAreEvents(t: Thread, before: State, s: State, at: nat, cache: Picture, when: When)
    requires s.Shape() && t.previousOwner == before.owner && t.previousPending == before.pending
    ensures var now := PictureOf(ViewOf(s), at);
            && Published(OwnerNews(when), t, now, cache) ==
               (if Holds(when, t.outcome, t.known) then seq(|OwnerEventsOf(before, s)|, _ => now) else [])
            && Published(Report, t, now, cache) == [now, now]
            && forall e | e in ReportOf(before, s) :: Ingested(Some(CacheOf(cache)), e) == Some(CacheOf(now))
  {
    var now := PictureOf(ViewOf(s), at);
    assert seq(2, _ => now) == [now, now] && seq(1, _ => now) == [now] && seq(0, _ => now) == [];
  }

  // --- A report that is interrupted -------------------------------------------------------

  /** The snapshot has been put aside. */
  lemma PutsAside(t: Thread, rest: seq<Instr>, now: Picture, zoneCount: int, enabled: seq<bool>, cache: Picture)
    requires |enabled| == MAX_ZONES + 1 && t.code == [ReadStack, ReadOwner, ReadPending] + ([Keep] + rest)
    ensures NoAct(t.code[..4])
    ensures Exec(t, now, zoneCount, enabled, cache, 4) == (t.(code := rest, draft := now, kept := now), [])
  {
    hide Exec;
    var u := t.(code := [Keep] + rest, draft := now);
    SaysLast(u, Keep, rest, now, zoneCount, enabled, cache);
    SnapshotRead(t, [Keep] + rest, now, zoneCount, enabled, cache, 1);
  }

  /** A newer snapshot is published, and then the one that was put aside. */
  lemma PublishesBoth(t: Thread, now: Picture, zoneCount: int, enabled: seq<bool>, cache: Picture)
    requires |enabled| == MAX_ZONES + 1
    requires t.code == [ReadStack, ReadOwner, ReadPending] + ([Publish(Always)] + ([PublishKept] + []))
    ensures NoAct(t.code[..5])
    ensures Exec(t, now, zoneCount, enabled, cache, 5) == (t.(code := [], draft := now), [now, t.kept])
  {
    hide Exec;
    var one := [PublishKept] + [];
    var two := [Publish(Always)] + one;
    var u := t.(code := two, draft := now);
    SaysLast(u.(code := one), PublishKept, [], now, zoneCount, enabled, now);
    ExecNext(u, Publish(Always), one, now, zoneCount, enabled, cache, 2);
    SnapshotRead(t, two, now, zoneCount, enabled, cache, 2);
    assert [now] + [t.kept] == [now, t.kept];
  }

  lemma OtherCode() returns (news: seq<Instr>)
    ensures CodeOf(Items(7, Socket(OtherRequest))) == Code(Noted) + news && news == Code(OwnerNews(Always)) + Code(Report)
  {
    var items := [Noted, OwnerNews(Always), Report];
    news := Code(OwnerNews(Always)) + Code(Report);
    assert items[1..] == [OwnerNews(Always), Report] && items[1..][1..] == [Report] && [Report][1..] == [];
    assert Code(Report) + [] == Code(Report);
  }

  lemma ReportCode() returns (rest: seq<Instr>)
    ensures Code(Report) == [ReadStack, ReadOwner, ReadPending] + ([Keep] + rest)
    ensures rest == [ReadStack, ReadOwner, ReadPending] + ([Publish(Always)] + ([PublishKept] + []))
  {
    rest := Full(Always) + [PublishKept];
  }

  /** An item of the only thread. */
  lemma OnlyItem(w: World, t: Thread, item: Item, rest: seq<Instr>) returns (m: World, u: Thread)
    requires Shape(w) && w.threads == map[7 := t] && t.code == Code(item) + rest && !item.Done? && rest != []
    ensures Reaches(w, m) && Shape(m) && m.sys == w.sys && m.past == w.past && m.threads == map[7 := u] && u.code == rest
  {
    hide Published, Code, Reaches, Remembers, Shape;
    CodeLeft(w, 7);
    m := ItemInWorld(w, 7, item, rest);
    u := m.threads[7];
    assert w.threads - {7} == map[];
    OnlyOne(m.threads, u);
    SameCode(Remembers(item, t, PictureOf(ViewOf(w.sys.r), Latest(w)), w.zoneCount, w.sys.r.enabled).(code := rest), u);
  }

  lemma SameCode(t: Thread, u: Thread)
    requires Alike(t, u)
    ensures t.code == u.code
  {
  }

  /** Thread 7 handles a request that changes nothing, up to its report. */
  lemma ReportBegins(w: World) returns (n: World, t: Thread)
    requires Shape(w) && w.threads == map[]
    ensures Reaches(w, n) && Shape(n) && n.sys == w.sys && n.past == w.past && n.threads == map[7 := t]
    ensures t.code == Code(Report)
  {
    hide Code, Reaches, Shape;
    var news := OtherCode();
    NotEmpty();
    var w0 := BeginStep(w, 7, Socket(OtherRequest), Code(Noted) + news);
    var w1, t1 := OnlyItem(w0, w0.threads[7], Noted, news);
    n, t := OnlyItem(w1, t1, OwnerNews(Always), Code(Report));
    ReachesThrough(w0, w1, n);
    ReachesThrough(w, w0, n);
  }

  lemma NotEmpty()
    ensures Code(Noted) != [] && Code(OwnerNews(Always)) != [] && Code(Report) != []
  {
  }

  /** It is interrupted when the report has been put aside. */
  lemma ReportHeldUp(w: World) returns (n: World, t: Thread)
    requires Shape(w) && w.threads == map[]
    ensures Reaches(w, n) && Shape(n) && n.sys == w.sys && n.past == w.past && n.threads == map[7 := t]
    ensures t.code == [ReadStack, ReadOwner, ReadPending] + ([Publish(Always)] + ([PublishKept] + []))
    ensures t.kept == PictureOf(ViewOf(w.sys.r), Latest(w))
  {
    hide Exec, Code, Reaches, Shape, Truthful;
    CodeLeft(w, 7);
    var now := PictureOf(ViewOf(w.sys.r), Latest(w));
    var rest := ReportCode();
    var w2, v := ReportBegins(w);
    CodeLeft(w2, 7);
    PutsAside(v, rest, now, w2.zoneCount, w2.sys.r.enabled, Cache(w2));
    n := Executes(w2, 7, 4);
    t := v.(code := rest, draft := now, kept := now);
    PutOnly(7, v, t);
    ReachesThrough(w, w2, n);
  }

  lemma OnlyOne(threads: map<nat, Thread>, t: Thread)
    requires 7 in threads && threads[7] == t && threads - {7} == map[]
    ensures threads == map[7 := t]
  {
    assert forall tid | tid in threads && tid != 7 :: tid in threads - {7};
  }

  lemma ReportLetGo(w: World, t: Thread) returns (n: World)
    requires Shape(w) && w.threads == map[7 := t]
    requires t.code == [ReadStack, ReadOwner, ReadPending] + ([Publish(Always)] + ([PublishKept] + []))
    ensures Reaches(w, n) && Shape(n) && n.sys == w.sys && n.threads == map[] && Cache(n) == t.kept
  {
    hide Exec, Reaches;
    CodeLeft(w, 7);
    PublishesBoth(t, PictureOf(ViewOf(w.sys.r), Latest(w)), w.zoneCount, w.sys.r.enabled, Cache(w));
    n := Executes(w, 7, 5);
    PutOnly(7, t, t.(code := [], draft := PictureOf(ViewOf(w.sys.r), Latest(w))));
  }

  /**
   One report is enough to leave the cache behind: its routing-changed event is built before its snapshot and
   published after it, so a zone that joins in between is gone from the cache when all is at rest.
   */
  lemma ReportGoesBack(mask: seq<bool>, zoneCount: int)
    requires |mask| == MAX_ZONES + 1 && mask[1]
    ensures exists ms :: LegalMoves(OwnerRaces.Started(mask, zoneCount), ms) &&
              var w := OwnerRaces.Ran(OwnerRaces.Started(mask, zoneCount), ms);
              w.threads == map[] && w.sys.r.owner == 1 && Cache(w).owner.value == 0
  {
    var w := OwnerRaces.Started(mask, zoneCount);
    var w1, held := ReportHeldUp(w);
    var w2 := JoinReported(w1, map[7 := held]);
    var w3 := ReportLetGo(w2, held);
    ReachesThrough(w1, w2, w3);
    ReachesThrough(w, w1, w3);
  }
}
