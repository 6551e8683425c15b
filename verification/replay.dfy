/**
 The backend's event stream to browsers: every subscriber gets a snapshot, a bounded replay of what
 was broadcast before it came, and every broadcast from then on.
 */
module Replay {
  import opened Lists
  import opened Text

  const MAX_REPLAY_EVENTS := 200

  datatype Envelope = Envelope(source: string, event: string, payload: string)

  /** A response object, known by its identity. */
  type Client = int

  predicate ExcludedFromReplay(e: Envelope) {
    e.source == "homepi-metadata" || (e.source == "homepi-backend" && e.event == "audio.realtime")
  }

  predicate Replayable(e: Envelope) { e.event != "heartbeat" && !ExcludedFromReplay(e) }

  datatype Write = Write(client: Client, envelope: Envelope)

  /** The broadcaster, with the record of every frame a response has accepted. */
  datatype Hub = Hub(subscribers: seq<Client>, recent: seq<Envelope>, writes: seq<Write>)

  function ToOne(c: Client, es: seq<Envelope>): (ws: seq<Write>)
    ensures |ws| == |es|
  {
    seq(|es|, i requires 0 <= i < |es| => Write(c, es[i]))
  }

  function ToEach(cs: seq<Client>, e: Envelope): (ws: seq<Write>)
    ensures |ws| == |cs|
  {
    seq(|cs|, i requires 0 <= i < |cs| => Write(cs[i], e))
  }

  function Replays(es: seq<Envelope>): (r: seq<Envelope>) {
    if es == [] then []
    else (if ExcludedFromReplay(es[0]) then [] else [es[0]]) + Replays(es[1..])
  }

  /** The buffer after one more broadcast. */
  function Buffered(recent: seq<Envelope>, e: Envelope): seq<Envelope> {
    if !Replayable(e) then recent
    else if |recent| + 1 > MAX_REPLAY_EVENTS then (recent + [e])[1..]
    else recent + [e]
  }

  /** A write to one of the `broken` responses throws; the snapshot is the first, so nothing follows it. */
  function Joined(h: Hub, c: Client, snapshot: Envelope, broken: set<Client>): Hub {
    h.(subscribers := if c in h.subscribers then h.subscribers else h.subscribers + [c],
       writes := h.writes + if c in broken then [] else ToOne(c, [snapshot] + Replays(h.recent)))
  }

  function Left(h: Hub, c: Client): Hub { h.(subscribers := Drop(h.subscribers, {c})) }

  function Sent(h: Hub, e: Envelope, broken: set<Client>): Hub {
    Hub(Drop(h.subscribers, broken), Buffered(h.recent, e), h.writes + ToEach(Drop(h.subscribers, broken), e))
  }

  function Stopped(h: Hub): Hub { Hub([], [], h.writes) }

  /** Fresh envelopes fetched for a subscriber, written when they arrive if it is still there. */
  function Bootstrapped(h: Hub, c: Client, es: seq<Envelope>, broken: set<Client>): Hub {
    if c in h.subscribers && c !in broken then h.(writes := h.writes + ToOne(c, es)) else h
  }

  ghost predicate WellFormed(h: Hub) {
    NoDup(h.subscribers) && |h.recent| <= MAX_REPLAY_EVENTS
    && forall i | 0 <= i < |h.recent| :: Replayable(h.recent[i])
  }

  class EventBroadcaster {
    var subscribers: seq<Client>
    var recentEnvelopes: seq<Envelope>
    var writes: seq<Write>

    constructor ()
      ensures State() == Hub([], [], [])
    {
      subscribers, recentEnvelopes, writes := [], [], [];
    }

    ghost function State(): Hub
      reads this
    {
      Hub(subscribers, recentEnvelopes, writes)
    }

    method ReplayTo(res: Client)
      modifies this`writes
      ensures writes == old(writes) + ToOne(res, Replays(recentEnvelopes))
    {
      ghost var target := writes + ToOne(res, Replays(recentEnvelopes));
      assert recentEnvelopes[0..] == recentEnvelopes;
      for i := 0 to |recentEnvelopes|
        invariant writes + ToOne(res, Replays(recentEnvelopes[i..])) == target
      {
        ghost var rest := recentEnvelopes[i..];
        assert rest[1..] == recentEnvelopes[i + 1..];
        if !ExcludedFromReplay(recentEnvelopes[i]) {
          FirstOne(writes, res, recentEnvelopes[i], Replays(rest[1..]));
          writes := writes + [Write(res, recentEnvelopes[i])];
        }
      }
      assert ToOne(res, []) == [];
    }

    method AddSubscriber(res: Client, snapshot: Envelope, broken: set<Client>) returns (sent: bool)
      modifies this`subscribers, this`writes
      ensures State() == Joined(old(State()), res, snapshot, broken)
      ensures sent <==> res !in broken
    {
      if res !in subscribers {
        subscribers := subscribers + [res];
      }
      if res in broken {
        assert writes + [] == writes;
        return false;
      }
      FirstOne(writes, res, snapshot, Replays(recentEnvelopes));
      writes := writes + [Write(res, snapshot)];
      ReplayTo(res);
      return true;
    }

    /** The fetched envelopes arrive; a write that throws is only logged. */
    method DeliverBootstrap(res: Client, envelopes: seq<Envelope>, broken: set<Client>)
      modifies this`writes
      ensures State() == Bootstrapped(old(State()), res, envelopes, broken)
    {
      if res !in subscribers || res in broken {
        return;
      }
      ghost var target := writes + ToOne(res, envelopes);
      assert envelopes[0..] == envelopes;
      for i := 0 to |envelopes|
        invariant writes + ToOne(res, envelopes[i..]) == target
      {
        assert envelopes[i..] == [envelopes[i]] + envelopes[i + 1..];
        FirstOne(writes, res, envelopes[i], envelopes[i + 1..]);
        writes := writes + [Write(res, envelopes[i])];
      }
      assert ToOne(res, []) == [];
    }

    method RemoveSubscriber(res: Client) returns (found: bool)
      modifies this`subscribers
      ensures State() == Left(old(State()), res) && (found <==> res in old(subscribers))
    {
      found := res in subscribers;
      subscribers := Drop(subscribers, {res});
    }

    method Stop()
      modifies this`subscribers, this`recentEnvelopes
      ensures State() == Stopped(old(State()))
    {
      subscribers := [];
      recentEnvelopes := [];
    }

    /** One turn of the broadcast loop: a subscriber whose write throws is dropped. */
    method WriteOrDrop(c: Client, envelope: Envelope, broken: set<Client>)
      modifies this`subscribers, this`writes
      ensures (subscribers, writes) == Turn(old(subscribers), old(writes), c, envelope, broken)
    {
      if c in broken {
        subscribers := Drop(subscribers, {c});
      } else {
        writes := writes + [Write(c, envelope)];
      }
    }

    method WriteToAll(envelope: Envelope, broken: set<Client>)
      modifies this`subscribers, this`writes
      ensures subscribers == Drop(old(subscribers), broken)
      ensures writes == old(writes) + ToEach(Drop(old(subscribers), broken), envelope)
    {
      var all := subscribers;
      ghost var target := Swept(subscribers, writes, all, envelope, broken);
      assert all[0..] == all;
      for i := 0 to |all|
        invariant Swept(subscribers, writes, all[i..], envelope, broken) == target
      {
        assert all[i..][1..] == all[i + 1..];
        WriteOrDrop(all[i], envelope, broken);
      }
      SweptIs(all, old(writes), all, envelope, broken);
      DropSame(all, Failing(all, broken), broken);
    }

    method Broadcast(envelope: Envelope, broken: set<Client>)
      modifies this
      ensures State() == Sent(old(State()), envelope, broken)
    {
      if envelope.event != "heartbeat" && !ExcludedFromReplay(envelope) {
        recentEnvelopes := recentEnvelopes + [envelope];
        if |recentEnvelopes| > MAX_REPLAY_EVENTS {
          recentEnvelopes := recentEnvelopes[1..];
        }
      }
      WriteToAll(envelope, broken);
    }
  }

  lemma FirstOne(ws: seq<Write>, c: Client, e: Envelope, es: seq<Envelope>)
    ensures ws + [Write(c, e)] + ToOne(c, es) == ws + ToOne(c, [e] + es)
  {
  }

  function Turn(subs: seq<Client>, ws: seq<Write>, c: Client, e: Envelope, broken: set<Client>): (seq<Client>,
                seq<Write>) {
    if c in broken then (Drop(subs, {c}), ws) else (subs, ws + [Write(c, e)])
  }

  function Swept(subs: seq<Client>, ws: seq<Write>, todo: seq<Client>, e: Envelope, broken: set<Client>)
    : (seq<Client>, seq<Write>)
    decreases |todo|
  {
    if todo == [] then (subs, ws)
    else
      var (s, w) := Turn(subs, ws, todo[0], e, broken);
      Swept(s, w, todo[1..], e, broken)
  }

  ghost function Failing(todo: seq<Client>, broken: set<Client>): set<Client> {
    set c | c in todo && c in broken
  }

  lemma {:induction false} SweptIs(subs: seq<Client>, ws: seq<Write>, todo: seq<Client>, e: Envelope,
                                   broken: set<Client>)
    ensures Swept(subs, ws, todo, e, broken) ==
            (Drop(subs, Failing(todo, broken)), ws + ToEach(Drop(todo, broken), e))
    decreases |todo|
  {
    if todo == [] {
      DropNothing(subs, {});
      assert Failing(todo, broken) == {};
      assert ws + ToEach([], e) == ws;
    } else {
      var c, rest := todo[0], todo[1..];
      var (s, w) := Turn(subs, ws, c, e, broken);
      SweptIs(s, w, rest, e, broken);
      FailingFirst(todo, broken);
      if c in broken {
        DropDrop(subs, {c}, Failing(rest, broken));
      } else {
        FirstOfEach(ws, c, Drop(rest, broken), e);
      }
    }
  }

  lemma FailingFirst(todo: seq<Client>, broken: set<Client>)
    requires todo != []
    ensures todo[0] in broken ==> Failing(todo, broken) == {todo[0]} + Failing(todo[1..], broken)
    ensures todo[0] !in broken ==> Failing(todo, broken) == Failing(todo[1..], broken)
  {
  }

  lemma FirstOfEach(ws: seq<Write>, c: Client, cs: seq<Client>, e: Envelope)
    ensures ws + [Write(c, e)] + ToEach(cs, e) == ws + ToEach([c] + cs, e)
  {
  }

  lemma {:induction false} DropSame(s: seq<int>, a: set<int>, b: set<int>)
    requires forall i | 0 <= i < |s| :: s[i] in a <==> s[i] in b
    ensures Drop(s, a) == Drop(s, b)
  {
    if s != [] {
      DropSame(s[1..], a, b);
    }
  }

  // --- Runs -------------------------------------------------------------------------------

  datatype Step =
    | Join(client: Client, snapshot: Envelope, broken: set<Client>)
    | Leave(client: Client)
    | Send(envelope: Envelope, broken: set<Client>)
    | Bootstrap(client: Client, envelopes: seq<Envelope>, broken: set<Client>)
    | Stop

  function Next(h: Hub, step: Step): Hub {
    match step
    case Join(c, snapshot, broken) => Joined(h, c, snapshot, broken)
    case Leave(c) => Left(h, c)
    case Send(e, broken) => Sent(h, e, broken)
    case Bootstrap(c, es, broken) => Bootstrapped(h, c, es, broken)
    case Stop => Stopped(h)
  }

  function Run(h: Hub, steps: seq<Step>): Hub
    decreases |steps|
  {
    if steps == [] then h else Run(Next(h, steps[0]), steps[1..])
  }

  /** The replayable broadcasts since the last stop, all of them. */
  function History(past: seq<Envelope>, steps: seq<Step>): seq<Envelope>
    decreases |steps|
  {
    if steps == [] then past
    else History(match steps[0]
                 case Send(e, _) => if Replayable(e) then past + [e] else past
                 case Stop => []
                 case _ => past, steps[1..])
  }

  lemma BufferedIsWindow(past: seq<Envelope>, e: Envelope)
    requires Replayable(e)
    ensures Buffered(LastN(past, MAX_REPLAY_EVENTS), e) == LastN(past + [e], MAX_REPLAY_EVENTS)
  {
  }

  /** The buffer is the newest 200 of them, whatever else happens and whichever writes fail. */
  lemma {:induction false} BufferIsWindow(h: Hub, past: seq<Envelope>, steps: seq<Step>)
    requires h.recent == LastN(past, MAX_REPLAY_EVENTS)
    ensures Run(h, steps).recent == LastN(History(past, steps), MAX_REPLAY_EVENTS)
    decreases |steps|
  {
    if steps != [] {
      match steps[0] {
        case Send(e, broken) =>
          if Replayable(e) {
            BufferedIsWindow(past, e);
            BufferIsWindow(Next(h, steps[0]), past + [e], steps[1..]);
          } else {
            BufferIsWindow(Next(h, steps[0]), past, steps[1..]);
          }
        case Stop => BufferIsWindow(Next(h, steps[0]), [], steps[1..]);
        case _ => BufferIsWindow(Next(h, steps[0]), past, steps[1..]);
      }
    }
  }

  lemma WellFormedNext(h: Hub, step: Step)
    requires WellFormed(h)
    ensures WellFormed(Next(h, step))
  {
  }

  lemma {:induction false} WellFormedRun(h: Hub, steps: seq<Step>)
    requires WellFormed(h)
    ensures WellFormed(Run(h, steps))
    decreases |steps|
  {
    if steps != [] {
      WellFormedNext(h, steps[0]);
      WellFormedRun(Next(h, steps[0]), steps[1..]);
    }
  }

  /**
   The last envelope broadcast is replayed to whoever joins next, unless it is a heartbeat, of the metadata
   service, or the backend's own realtime audio.
   */
  lemma LastIsReplayedIff(h: Hub, e: Envelope, broken: set<Client>)
    requires WellFormed(h) && e !in h.recent
    ensures e in Sent(h, e, broken).recent <==>
            e.event != "heartbeat" && e.source != "homepi-metadata"
            && !(e.source == "homepi-backend" && e.event == "audio.realtime")
  {
    var r := Sent(h, e, broken).recent;
    assert r != [] ==> r[|r| - 1] in r;
  }

  // --- What one subscriber sees -----------------------------------------------------------

  function Received(ws: seq<Write>, c: Client): seq<Envelope> {
    if ws == [] then [] else (if ws[0].client == c then [ws[0].envelope] else []) + Received(ws[1..], c)
  }

  lemma {:induction false} ReceivedAppend(a: seq<Write>, b: seq<Write>, c: Client)
    ensures Received(a + b, c) == Received(a, c) + Received(b, c)
  {
    if a == [] {
      assert a + b == b;
    } else {
      assert (a + b)[1..] == a[1..] + b;
      ReceivedAppend(a[1..], b, c);
      Joins(if a[0].client == c then [a[0].envelope] else [], Received(a[1..], c), Received(b, c));
    }
  }

  lemma {:induction false} ReceivedToOne(c: Client, es: seq<Envelope>, d: Client)
    ensures Received(ToOne(c, es), d) == if c == d then es else []
  {
    if es != [] {
      assert ToOne(c, es)[1..] == ToOne(c, es[1..]);
      ReceivedToOne(c, es[1..], d);
    }
  }

  /** One broadcast reaches a subscriber once. */
  lemma {:induction false} ReceivedToEach(cs: seq<Client>, e: Envelope, d: Client)
    requires NoDup(cs)
    ensures Received(ToEach(cs, e), d) == if d in cs then [e] else []
  {
    if cs != [] {
      assert ToEach(cs, e)[1..] == ToEach(cs[1..], e);
      ReceivedToEach(cs[1..], e, d);
    }
  }

  lemma {:induction false} ReplaysAll(es: seq<Envelope>)
    requires forall i | 0 <= i < |es| :: Replayable(es[i])
    ensures Replays(es) == es
  {
    if es != [] {
      ReplaysAll(es[1..]);
    }
  }

  /** Nothing in the step removes the subscriber or repeats its welcome. */
  predicate Keeps(step: Step, c: Client) {
    match step
    case Join(d, _, _) => d != c
    case Leave(d) => d != c
    case Send(_, broken) => c !in broken
    case Bootstrap(_, _, _) => true
    case Stop => false
  }

  /** What a step owes a subscriber. */
  function Owed(step: Step, c: Client): seq<Envelope> {
    match step
    case Send(e, _) => [e]
    case Bootstrap(d, es, broken) => if d == c && c !in broken then es else []
    case _ => []
  }

  function OwedAll(steps: seq<Step>, c: Client): seq<Envelope> {
    if steps == [] then [] else Owed(steps[0], c) + OwedAll(steps[1..], c)
  }

  lemma StepReceived(h: Hub, step: Step, c: Client)
    requires WellFormed(h) && c in h.subscribers && Keeps(step, c)
    ensures c in Next(h, step).subscribers
    ensures Received(Next(h, step).writes, c) == Received(h.writes, c) + Owed(step, c)
  {
    match step {
      case Join(d, snapshot, broken) =>
        ReceivedAppend(h.writes, ToOne(d, [snapshot] + Replays(h.recent)), c);
        ReceivedToOne(d, [snapshot] + Replays(h.recent), c);
        assert h.writes + [] == h.writes;
      case Send(e, broken) =>
        ReceivedAppend(h.writes, ToEach(Drop(h.subscribers, broken), e), c);
        ReceivedToEach(Drop(h.subscribers, broken), e, c);
      case Bootstrap(d, es, broken) =>
        ReceivedAppend(h.writes, ToOne(d, es), c);
        ReceivedToOne(d, es, c);
      case Leave(d) =>
      case Stop =>
    }
  }

  lemma {:induction false} RunReceived(h: Hub, steps: seq<Step>, c: Client)
    requires WellFormed(h) && c in h.subscribers && forall i | 0 <= i < |steps| :: Keeps(steps[i], c)
    ensures Received(Run(h, steps).writes, c) == Received(h.writes, c) + OwedAll(steps, c)
    decreases |steps|
  {
    if steps != [] {
      StepReceived(h, steps[0], c);
      WellFormedNext(h, steps[0]);
      RunReceived(Next(h, steps[0]), steps[1..], c);
      Joins(Received(h.writes, c), Owed(steps[0], c), OwedAll(steps[1..], c));
    }
  }

  lemma JoinReceived(h: Hub, c: Client, snapshot: Envelope, broken: set<Client>)
    requires WellFormed(h) && c !in broken
    ensures Received(Joined(h, c, snapshot, broken).writes, c) == Received(h.writes, c) + ([snapshot] + h.recent)
  {
    ReplaysAll(h.recent);
    ReceivedAppend(h.writes, ToOne(c, [snapshot] + h.recent), c);
    ReceivedToOne(c, [snapshot] + h.recent, c);
  }

  /**
   A subscriber that joins after any run receives the snapshot, the newest 200 replayable broadcasts
   since the last stop, and then every broadcast, each once and in order, for as long as it stays.
   */
  lemma SubscriberSeesEverything(before: seq<Step>, c: Client, snapshot: Envelope, broken: set<Client>,
                                 after: seq<Step>)
    requires c !in broken && forall i | 0 <= i < |after| :: Keeps(after[i], c)
    ensures var h := Run(Hub([], [], []), before);
            Received(Run(Joined(h, c, snapshot, broken), after).writes, c) ==
            Received(h.writes, c) + ([snapshot] + LastN(History([], before), MAX_REPLAY_EVENTS)) + OwedAll(after, c)
  {
    var start := Hub([], [], []);
    var h := Run(start, before);
    BufferIsWindow(start, [], before);
    WellFormedRun(start, before);
    JoinReceived(h, c, snapshot, broken);
    WellFormedNext(h, Join(c, snapshot, broken));
    RunReceived(Joined(h, c, snapshot, broken), after, c);
  }

  /** Once it has left, or a write to it has failed, a response gets nothing more until it joins again. */
  lemma {:induction false} NothingAfterLeaving(h: Hub, steps: seq<Step>, c: Client)
    requires WellFormed(h) && c !in h.subscribers
    requires forall i | 0 <= i < |steps| :: steps[i].Join? ==> steps[i].client != c
    ensures Received(Run(h, steps).writes, c) == Received(h.writes, c) && c !in Run(h, steps).subscribers
    decreases |steps|
  {
    if steps != [] {
      NothingForStranger(h, steps[0], c);
      WellFormedNext(h, steps[0]);
      NothingAfterLeaving(Next(h, steps[0]), steps[1..], c);
    }
  }

  lemma NothingForStranger(h: Hub, step: Step, c: Client)
    requires WellFormed(h) && c !in h.subscribers && (step.Join? ==> step.client != c)
    ensures c !in Next(h, step).subscribers && Received(Next(h, step).writes, c) == Received(h.writes, c)
  {
    match step {
      case Join(d, snapshot, broken) =>
        ReceivedAppend(h.writes, ToOne(d, [snapshot] + Replays(h.recent)), c);
        ReceivedToOne(d, [snapshot] + Replays(h.recent), c);
        assert h.writes + [] == h.writes;
      case Send(e, broken) =>
        ReceivedAppend(h.writes, ToEach(Drop(h.subscribers, broken), e), c);
        ReceivedToEach(Drop(h.subscribers, broken), e, c);
      case Bootstrap(d, es, broken) =>
        ReceivedAppend(h.writes, ToOne(d, es), c);
        ReceivedToOne(d, es, c);
      case Leave(d) =>
      case Stop =>
    }
  }
}
