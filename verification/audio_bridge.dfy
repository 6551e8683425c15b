/**
 The PCM bridge: one capture thread per zone fills that zone's ring, one playback thread feeds
 the DAC. A step is one atomic access; between any two steps of the playback loop every other
 thread may run. Stores by the control thread are arbitrary here, so every routing decision is
 covered.
 */
module AudioBridge {
  import opened Lists
  import opened Text
  import opened Routing
  import opened FrameRings

  const HANDOFF_MIN_PERIODS := 2
  const HANDOFF_FRESH_BUFFER_MS := 500
  const CAPTURE_STALE_MS := 80

  /** A zone's ring, its capture thread, and the record of what entered and left. */
  datatype Zone<F> = Zone(
    ring: seq<F>,
    capacity: nat,
    mode: Mode,
    bufferedAt: int,
    loaded: Mode,      // the mode the capture thread last read
    pending: seq<F>,   // read from the loopback, not yet written to the ring
    captured: seq<F>,
    played: seq<F>)

  /** Where the playback loop is. */
  datatype Stage =
    | CheckDac | LoadOwner | LoadRevision | LoadHandoff | CheckTarget | CheckFresh | EndHandoff
    | CheckHandoff | CheckStamp | DiscardTest | DiscardRead
    | TestRing | TestOther | Wait | WaitHandoff | WaitRing
    | Recheck | RecheckRevision | Available | ReadRing | RecheckHand | RecheckHandRevision | WriteDac

  predicate OwnerLoaded(s: Stage) { !s.CheckDac? && !s.LoadOwner? }
  predicate ZoneChosen(s: Stage) { OwnerLoaded(s) && !s.LoadRevision? && !s.LoadHandoff? }
  predicate InHand(s: Stage) { s.RecheckHand? || s.RecheckHandRevision? || s.WriteDac? }

  datatype Loop<F> = Loop(stage: Stage, owner: int, revision: int, handoff: int, zone: int, hand: seq<F>)

  datatype Bridge<F> = Bridge(
    period: nat,
    zones: seq<Zone<F>>, // zone z is zones[z - 1]
    owner: int,
    handoff: int,
    revision: int,
    dacOpen: bool,
    loop: Loop<F>)
  {
    predicate Has(z: int) { 1 <= z <= |zones| }

    function At(z: int): Zone<F>
      requires Has(z)
    {
      zones[z - 1]
    }

    function With(z: int, zone: Zone<F>): (b: Bridge<F>)
      requires Has(z)
    {
      this.(zones := zones[z - 1 := zone])
    }

    predicate RecentlyBuffered(z: int, within: int, now: int)
      requires Has(z)
    {
      At(z).bufferedAt > 0 && now - At(z).bufferedAt <= within
    }

    /** The zone about to be read is the loaded owner or the loaded hand-off source. */
    ghost predicate LoopOk() {
      (OwnerLoaded(loop.stage) ==> Has(loop.owner)) &&
      (ZoneChosen(loop.stage) ==> Has(loop.zone) && (loop.zone == loop.owner || loop.zone == loop.handoff)) &&
      (loop.stage.CheckTarget? || loop.stage.CheckFresh? ==> Has(loop.handoff)) &&
      (!InHand(loop.stage) ==> loop.hand == [])
    }

    /** The target is not ready: read what the leaving zone has left. */
    function FromSource(): Bridge<F> { this.(loop := loop.(stage := CheckHandoff, zone := loop.handoff)) }

    function Goto(stage: Stage): Bridge<F> { this.(loop := loop.(stage := stage)) }

    /** Back to the top of the loop; whatever was in hand is dropped. */
    function Restart(): Bridge<F> { this.(loop := loop.(stage := CheckDac, hand := [])) }
  }

  datatype Step<F> =
    | CaptureMode(z: int)
    | CaptureRead(z: int, frames: seq<F>)
    | CaptureWrite(z: int)
    | Stamp(z: int, at: int)
    | ClearRing(z: int)
    | InitRing(z: int, capacity: nat)
    | StoreMode(z: int, mode: Mode)
    | StoreRouting(owner: int, handoff: int, revision: int)
    | StoreDac(open: bool)
    | Play(now: int)

  ghost function Next<F>(b: Bridge<F>, step: Step<F>): Bridge<F>
    requires b.LoopOk()
  {
    match step
    case Play(now) => Played(b, now)
    case StoreRouting(owner, handoff, revision) => b.(owner := owner, handoff := handoff, revision := revision)
    case StoreDac(open) => b.(dacOpen := open)
    case _ => if b.Has(step.z) then b.With(step.z, ZoneStep(b.At(step.z), step)) else b
  }

  /** The capture thread, and what the control thread does to a ring. */
  function ZoneStep<F>(zone: Zone<F>, step: Step<F>): Zone<F> {
    match step
    case CaptureMode(_) => zone.(loaded := zone.mode)
    case CaptureRead(_, frames) =>
      if zone.loaded == Off || zone.loaded == Disabled || zone.pending != [] then zone
      else zone.(captured := zone.captured + frames, pending := if zone.loaded == Buffer then frames else [])
    case CaptureWrite(_) =>
      zone.(ring := if zone.capacity == 0 then zone.ring else LastN(zone.ring + zone.pending, zone.capacity),
            pending := [])
    case Stamp(_, at) => zone.(bufferedAt := at)
    case ClearRing(_) => zone.(ring := [])
    case InitRing(_, capacity) => zone.(ring := [], capacity := capacity)
    case StoreMode(_, mode) => zone.(mode := mode)
    case _ => zone
  }

  predicate Reading(s: Stage) {
    s.Wait? || s.WaitHandoff? || s.WaitRing? || s.Recheck? || s.RecheckRevision? || s.Available? || s.ReadRing?
    || s.RecheckHand? || s.RecheckHandRevision? || s.WriteDac?
  }

  /** One atomic access of the playback loop. */
  ghost function Played<F>(b: Bridge<F>, now: int): Bridge<F>
    requires b.LoopOk()
  {
    if Reading(b.loop.stage) then Handed(b, now) else Picked(b, now)
  }

  /** Choosing the ring to read. */
  ghost function Picked<F>(b: Bridge<F>, now: int): Bridge<F>
    requires b.LoopOk() && !Reading(b.loop.stage)
  {
    var l := b.loop;
    match l.stage
    case CheckDac => if b.dacOpen then b.Goto(LoadOwner) else b
    case LoadOwner => if b.Has(b.owner) then b.(loop := l.(stage := LoadRevision, owner := b.owner)) else b.Goto(CheckDac)
    case LoadRevision => b.(loop := l.(stage := LoadHandoff, revision := b.revision))
    case LoadHandoff =>
      b.(loop := l.(stage := if b.Has(b.handoff) then CheckTarget else CheckHandoff, handoff := b.handoff, zone := l.owner))
    case CheckTarget =>
      if |b.At(l.owner).ring| >= b.period * HANDOFF_MIN_PERIODS then b.Goto(CheckFresh) else b.FromSource()
    case CheckFresh =>
      if b.RecentlyBuffered(l.owner, HANDOFF_FRESH_BUFFER_MS, now) then b.Goto(EndHandoff) else b.FromSource()
    case EndHandoff => b.(handoff := 0).Goto(CheckHandoff)
    case CheckHandoff => b.Goto(if b.handoff > 0 then TestRing else CheckStamp)
    case CheckStamp =>
      b.Goto(if b.At(l.zone).bufferedAt <= 0 || now - b.At(l.zone).bufferedAt <= CAPTURE_STALE_MS
             then TestRing else DiscardTest)
    case DiscardTest => b.Goto(if |b.At(l.zone).ring| >= b.period then DiscardRead else TestRing)
    case DiscardRead =>
      var zone := b.At(l.zone);
      b.With(l.zone, zone.(ring := zone.ring[AtMost(b.period, zone.ring)..])).Goto(DiscardTest)
    case TestRing => b.Goto(if |b.At(l.zone).ring| < b.period && l.handoff > 0 then TestOther else Wait)
    case TestOther =>
      var other := if l.zone == l.owner then l.handoff else l.owner;
      if b.Has(other) && |b.At(other).ring| >= b.period
      then b.(loop := l.(stage := Wait, zone := other)) else b.Goto(Wait)
  }

  /** Waiting for the ring, reading it, and writing to the DAC. */
  ghost function Handed<F>(b: Bridge<F>, now: int): Bridge<F>
    requires b.LoopOk() && Reading(b.loop.stage)
  {
    var l := b.loop;
    match l.stage
    case Wait =>
      var stale := b.At(l.zone).bufferedAt > 0 && now - b.At(l.zone).bufferedAt > CAPTURE_STALE_MS;
      b.Goto(if stale then WaitHandoff else Recheck)
    case WaitHandoff => b.Goto(if b.handoff <= 0 then WaitRing else Recheck)
    case WaitRing => if |b.At(l.zone).ring| < b.period then b.Restart() else b.Goto(Recheck)
    case Recheck => if b.owner == l.owner then b.Goto(RecheckRevision) else b.Restart()
    case RecheckRevision => if b.revision == l.revision then b.Goto(Available) else b.Restart()
    case Available => if |b.At(l.zone).ring| >= b.period then b.Goto(ReadRing) else b.Restart()
    case ReadRing =>
      var zone := b.At(l.zone);
      var k := AtMost(b.period, zone.ring);
      var taken := b.With(l.zone, zone.(ring := zone.ring[k..]));
      if k < b.period then taken.Restart()
      else taken.(loop := l.(stage := RecheckHand, hand := zone.ring[..k]))
    case RecheckHand => if b.owner == l.owner then b.Goto(RecheckHandRevision) else b.Restart()
    case RecheckHandRevision => if b.revision == l.revision then b.Goto(WriteDac) else b.Restart()
    case WriteDac =>
      if !b.dacOpen then b.Restart()
      else b.With(l.zone, b.At(l.zone).(played := b.At(l.zone).played + l.hand)).Restart()
  }

  function AtMost<F>(n: nat, ring: seq<F>): (k: nat)
    ensures k <= |ring|
  {
    if n < |ring| then n else |ring|
  }

  // --- Order-preserving, without repeats ---------------------------------------------------

  /** `f` places the elements of `a` at strictly growing positions of `b`. */
  ghost predicate Embeds<F>(a: seq<F>, b: seq<F>, f: seq<nat>) {
    |f| == |a| &&
    (forall i | 0 <= i < |f| :: f[i] < |b| && a[i] == b[f[i]]) &&
    (forall i, j | 0 <= i < j < |f| :: f[i] < f[j])
  }

  ghost predicate Subsequence<F>(a: seq<F>, b: seq<F>) {
    exists f :: Embeds(a, b, f)
  }

  lemma BothGrow<F>(a: seq<F>, b: seq<F>, x: seq<F>)
    requires Subsequence(a, b)
    ensures Subsequence(a + x, b + x)
  {
    var f :| Embeds(a, b, f);
    assert Embeds(a + x, b + x, f + seq(|x|, i requires 0 <= i < |x| => |b| + i));
  }

  lemma RightGrows<F>(a: seq<F>, b: seq<F>, x: seq<F>)
    requires Subsequence(a, b)
    ensures Subsequence(a, b + x)
  {
    var f :| Embeds(a, b, f);
    assert Embeds(a, b + x, f);
  }

  lemma LeftLoses<F>(x: seq<F>, y: seq<F>, z: seq<F>, b: seq<F>)
    requires Subsequence(x + y + z, b)
    ensures Subsequence(x + z, b)
  {
    var f :| Embeds(x + y + z, b, f);
    var g := f[..|x|] + f[|x| + |y|..];
    forall i | 0 <= i < |g| ensures g[i] < |b| && (x + z)[i] == b[g[i]] {
      var k := if i < |x| then i else i + |y|;
      assert g[i] == f[k] && (x + y + z)[k] == (x + z)[i];
    }
    assert Embeds(x + z, b, g);
  }

  // --- Every run --------------------------------------------------------------------------

  /** What the playback thread holds of zone `z`. */
  ghost function Hand<F>(b: Bridge<F>, z: int): seq<F> {
    if b.loop.zone == z then b.loop.hand else []
  }

  /** All frames of a zone on their way to the DAC, the oldest first. */
  ghost function Flow<F>(zone: Zone<F>, hand: seq<F>): seq<F> {
    zone.played + hand + zone.ring + zone.pending
  }

  ghost predicate Flows<F>(b: Bridge<F>) {
    b.LoopOk() && forall z | b.Has(z) :: Sound(b.At(z), Hand(b, z))
  }

  ghost predicate Sound<F>(zone: Zone<F>, hand: seq<F>) {
    |zone.ring| <= zone.capacity && Subsequence(Flow(zone, hand), zone.captured)
  }

  /** Whatever the ring overwrites is the oldest of what it held. */
  lemma WriteFlows<F>(zone: Zone<F>, hand: seq<F>)
    requires Sound(zone, hand)
    ensures Sound(ZoneStep(zone, CaptureWrite(0)), hand)
  {
    var gone := zone.played + hand;
    if zone.capacity == 0 {
      assert Flow(zone, hand) == gone + zone.ring + zone.pending + [];
      LeftLoses(gone + zone.ring, zone.pending, [], zone.captured);
      assert Flow(zone.(pending := []), hand) == gone + zone.ring + [];
    } else {
      var all := zone.ring + zone.pending;
      var kept := LastN(all, zone.capacity);
      var k := |all| - |kept|;
      Joins(gone, zone.ring, zone.pending);
      Cut(gone, all, k);
      LeftLoses(gone, all[..k], kept, zone.captured);
      assert gone + kept == gone + kept + [];
    }
  }

  lemma ZoneStepFlows<F>(zone: Zone<F>, hand: seq<F>, step: Step<F>)
    requires Sound(zone, hand)
    ensures var n := ZoneStep(zone, step);
            Sound(n, hand)
  {
    var gone := zone.played + hand;
    match step
    case CaptureRead(_, frames) =>
      if zone.loaded != Off && zone.loaded != Disabled && zone.pending == [] {
        if zone.loaded == Buffer {
          BothGrow(Flow(zone, hand), zone.captured, frames);
          assert Flow(zone, hand) + frames == gone + zone.ring + frames;
        } else {
          RightGrows(Flow(zone, hand), zone.captured, frames);
        }
      }
    case CaptureWrite(_) => WriteFlows(zone, hand);
    case ClearRing(_) => LeftLoses(gone, zone.ring, zone.pending, zone.captured);
                         assert gone + zone.pending == gone + [] + zone.pending;
    case InitRing(_, _) => LeftLoses(gone, zone.ring, zone.pending, zone.captured);
                           assert gone + zone.pending == gone + [] + zone.pending;
    case _ =>
  }

  /** Taking the oldest frames out of the ring and dropping them. */
  lemma TakeAndDrop<F>(zone: Zone<F>, k: nat)
    requires k <= |zone.ring| && Subsequence(Flow(zone, []), zone.captured)
    ensures Subsequence(Flow(zone.(ring := zone.ring[k..]), []), zone.captured)
  {
    assert Flow(zone, []) == zone.played + zone.ring[..k] + (zone.ring[k..] + zone.pending);
    LeftLoses(zone.played, zone.ring[..k], zone.ring[k..] + zone.pending, zone.captured);
    assert zone.played + (zone.ring[k..] + zone.pending) == zone.played + [] + zone.ring[k..] + zone.pending;
  }

  lemma DropHand<F>(zone: Zone<F>, hand: seq<F>)
    requires Subsequence(Flow(zone, hand), zone.captured)
    ensures Subsequence(Flow(zone, []), zone.captured)
  {
    var rest := zone.ring + zone.pending;
    assert Flow(zone, hand) == zone.played + hand + rest;
    LeftLoses(zone.played, hand, rest, zone.captured);
    assert zone.played + rest == Flow(zone, []);
  }

  /** What one step of the playback loop may do to zone `z`. */
  ghost predicate Effect<F>(b: Bridge<F>, n: Bridge<F>, z: int)
    requires b.Has(z)
  {
    n.Has(z) &&
    var k := AtMost(b.period, b.At(z).ring);
    var drained := b.At(z).(ring := b.At(z).ring[k..]);
    || (n.At(z) == b.At(z) && (Hand(n, z) == Hand(b, z) || Hand(n, z) == []))
    || (n.At(z) == drained && Hand(b, z) == [] && (Hand(n, z) == [] || Hand(n, z) == b.At(z).ring[..k]))
    || (n.At(z) == b.At(z).(played := b.At(z).played + Hand(b, z)) && Hand(n, z) == [])
  }

  lemma PickedEffect<F>(b: Bridge<F>, now: int, z: int)
    requires b.LoopOk() && b.Has(z) && !Reading(b.loop.stage)
    ensures Effect(b, Picked(b, now), z) && Picked(b, now).LoopOk() && |Picked(b, now).zones| == |b.zones|
  {
  }

  lemma HandedEffect<F>(b: Bridge<F>, now: int, z: int)
    requires b.LoopOk() && b.Has(z) && Reading(b.loop.stage)
    ensures Effect(b, Handed(b, now), z) && Handed(b, now).LoopOk() && |Handed(b, now).zones| == |b.zones|
  {
  }

  lemma PlayedEffect<F>(b: Bridge<F>, now: int, z: int)
    requires b.LoopOk() && b.Has(z)
    ensures Effect(b, Played(b, now), z)
    ensures Played(b, now).LoopOk() && |Played(b, now).zones| == |b.zones|
  {
    if Reading(b.loop.stage) { HandedEffect(b, now, z); } else { PickedEffect(b, now, z); }
  }

  lemma PlayedLoop<F>(b: Bridge<F>, now: int)
    requires b.LoopOk()
    ensures Played(b, now).LoopOk() && |Played(b, now).zones| == |b.zones|
  {
    if b.Has(1) { PlayedEffect(b, now, 1); }
  }

  lemma EffectSound<F>(b: Bridge<F>, n: Bridge<F>, z: int)
    requires b.Has(z) && Sound(b.At(z), Hand(b, z)) && Effect(b, n, z)
    ensures Sound(n.At(z), Hand(n, z))
  {
    var zone, hand := b.At(z), Hand(b, z);
    DropHand(zone, hand);
    var k := AtMost(b.period, zone.ring);
    TakeAndDrop(zone, k);
    assert Flow(zone, []) == Flow(zone.(ring := zone.ring[k..]), zone.ring[..k]);
    assert Flow(zone, hand) == Flow(zone.(played := zone.played + hand), []);
  }

  lemma StepFlows<F>(b: Bridge<F>, step: Step<F>)
    requires Flows(b)
    ensures Flows(Next(b, step)) && |Next(b, step).zones| == |b.zones|
  {
    match step
    case Play(now) =>
      PlayedLoop(b, now);
      forall z | b.Has(z) ensures Sound(Played(b, now).At(z), Hand(Played(b, now), z)) {
        PlayedEffect(b, now, z);
        EffectSound(b, Played(b, now), z);
      }
    case StoreRouting(owner, handoff, revision) =>
      OtherFlows(b, b.(owner := owner, handoff := handoff, revision := revision));
    case StoreDac(open) =>
      OtherFlows(b, b.(dacOpen := open));
    case _ =>
      if b.Has(step.z) {
        ZoneStepFlows(b.At(step.z), Hand(b, step.z), step);
        var zone := ZoneStep(b.At(step.z), step);
        WithFlows(b, step.z, zone);
      }
  }

  lemma OtherFlows<F>(b: Bridge<F>, n: Bridge<F>)
    requires Flows(b) && n.zones == b.zones && n.loop == b.loop
    ensures Flows(n)
  {
    forall z | n.Has(z) ensures Sound(n.At(z), Hand(n, z)) {
      assert b.Has(z) && Sound(b.At(z), Hand(b, z));
    }
  }

  lemma WithFlows<F>(b: Bridge<F>, y: int, zone: Zone<F>)
    requires Flows(b) && b.Has(y) && Sound(zone, Hand(b, y))
    ensures Flows(b.With(y, zone))
  {
    var n := b.With(y, zone);
    forall z | n.Has(z) ensures Sound(n.At(z), Hand(n, z)) {
      assert b.Has(z) && Sound(b.At(z), Hand(b, z));
    }
  }

  ghost function Run<F>(b: Bridge<F>, steps: seq<Step<F>>): Bridge<F>
    requires Flows(b)
    decreases |steps|
  {
    if steps == [] then b else (StepFlows(b, steps[0]); Run(Next(b, steps[0]), steps[1..]))
  }

  /** A bridge at rest, before any capture. */
  ghost predicate Fresh<F>(b: Bridge<F>) {
    b.loop.stage == CheckDac && b.loop.hand == [] &&
    forall z | b.Has(z) :: b.At(z).ring == b.At(z).pending == b.At(z).captured == b.At(z).played == []
  }

  lemma {:induction false} RunFlows<F>(b: Bridge<F>, steps: seq<Step<F>>)
    requires Flows(b)
    ensures Flows(Run(b, steps)) && |Run(b, steps).zones| == |b.zones|
    decreases |steps|
  {
    if steps != [] {
      StepFlows(b, steps[0]);
      RunFlows(Next(b, steps[0]), steps[1..]);
    }
  }

  lemma FreshFlows<F>(b: Bridge<F>)
    requires Fresh(b)
    ensures Flows(b)
  {
    forall z | b.Has(z) ensures Sound(b.At(z), Hand(b, z)) {
      assert Embeds<F>(Flow(b.At(z), Hand(b, z)), b.At(z).captured, []);
    }
  }

  /** The DAC hears of each zone an order-preserving selection of what was captured for it. */
  lemma DacHearsInOrder<F>(b: Bridge<F>, steps: seq<Step<F>>, z: int)
    requires Fresh(b) && b.Has(z)
    ensures Flows(b) && Run(b, steps).Has(z)
    ensures Subsequence(Run(b, steps).At(z).played, Run(b, steps).At(z).captured)
  {
    FreshFlows(b);
    RunFlows(b, steps);
    var t := Run(b, steps);
    var zone, hand := t.At(z), Hand(t, z);
    assert Sound(zone, hand);
    assert Flow(zone, hand) == zone.played + (hand + zone.ring + zone.pending) + [];
    LeftLoses(zone.played, hand + zone.ring + zone.pending, [], zone.captured);
    assert zone.played + [] == zone.played;
  }

  // --- A hand-off does not starve the DAC -------------------------------------------------

  /** Steps of other threads that empty neither ring of the loaded pair. */
  ghost predicate Sparing<F>(step: Step<F>, owner: int, handoff: int) {
    !step.Play? && (step.ClearRing? || step.InitRing? ==> step.z != owner && step.z != handoff)
  }

  ghost predicate Full<F>(b: Bridge<F>, z: int) {
    b.Has(z) && |b.At(z).ring| >= b.period
  }

  /** While the loop picks a ring during a hand-off, a full period stays within its reach. */
  ghost predicate WithinReach<F>(b: Bridge<F>) {
    Flows(b) && b.loop.handoff > 0 &&
    match b.loop.stage
    case TestRing => Full(b, b.loop.owner) || Full(b, b.loop.handoff)
    case TestOther => Full(b, b.loop.zone) || Full(b, if b.loop.zone == b.loop.owner then b.loop.handoff else b.loop.owner)
    case Wait => Full(b, b.loop.zone)
    case _ => false
  }

  lemma FullStays<F>(b: Bridge<F>, step: Step<F>, z: int)
    requires Flows(b) && Full(b, z) && (z == b.loop.owner || z == b.loop.handoff)
    requires Sparing(step, b.loop.owner, b.loop.handoff)
    ensures Full(Next(b, step), z)
  {
    assert Sound(b.At(z), Hand(b, z));
  }

  lemma OthersSpare<F>(b: Bridge<F>, step: Step<F>)
    requires WithinReach(b) && Sparing(step, b.loop.owner, b.loop.handoff)
    ensures WithinReach(Next(b, step)) && Next(b, step).loop == b.loop
  {
    StepFlows(b, step);
    forall z | Full(b, z) && (z == b.loop.owner || z == b.loop.handoff) ensures Full(Next(b, step), z) {
      FullStays(b, step, z);
    }
  }

  lemma PickStep<F>(b: Bridge<F>, now: int)
    requires WithinReach(b) && b.loop.stage != Wait
    ensures WithinReach(Next(b, Play(now)))
    ensures Next(b, Play(now)).loop.owner == b.loop.owner && Next(b, Play(now)).loop.handoff == b.loop.handoff
  {
    StepFlows(b, Play(now));
  }

  /**
   From the moment the preferred ring is tested to the moment one is picked, whatever the other threads
   capture, route, close or open, as long as they empty neither ring of the pair: if either zone had a
   full period, so has the zone picked.
   */
  lemma {:induction false} HandoffHasPeriod<F>(b: Bridge<F>, steps: seq<Step<F>>)
    requires WithinReach(b)
    requires forall i | 0 <= i < |steps| :: Sparing(steps[i], b.loop.owner, b.loop.handoff) || steps[i].Play?
    requires forall i | 0 <= i < |steps| && steps[i].Play? :: Run(b, steps[..i]).loop.stage != Wait
    ensures Run(b, steps).loop.stage == Wait ==> Full(Run(b, steps), Run(b, steps).loop.zone)
    ensures WithinReach(Run(b, steps))
    decreases |steps|
  {
    if steps != [] {
      assert steps[0].Play? ==> Run(b, steps[..0]).loop.stage != Wait;
      if steps[0].Play? { PickStep(b, steps[0].now); } else { OthersSpare(b, steps[0]); }
      forall i | 0 <= i < |steps[1..]| && steps[1..][i].Play?
        ensures Run(Next(b, steps[0]), steps[1..][..i]).loop.stage != Wait
      {
        assert steps[..i + 1][1..] == steps[1..][..i];
        assert steps[i + 1].Play?;
        assert Run(b, steps[..i + 1]).loop.stage != Wait;
      }
      HandoffHasPeriod(Next(b, steps[0]), steps[1..]);
    }
  }

  /** Emptying a ring of the pair is the one thing that defeats it: such a step, and what is picked then. */
  lemma EmptiedPair<F>(b: Bridge<F>, step: Step<F>)
    requires WithinReach(b) && b.loop.stage == Wait && b.period > 0 && (step.ClearRing? || step.InitRing?)
    ensures WithinReach(Next(b, step)) <==> step.z != b.loop.zone
  {
    StepFlows(b, step);
  }
}
