/** What the playback loop makes of changes that come while it is under way: of routing, device, and captures. */
module PlaybackChanges {
  import opened Lists
  import opened Text
  import opened Routing
  import opened FrameRings
  import opened AudioBridge
  import opened PlaybackPass

  lemma NextLoop<F>(b: Bridge<F>, step: Step<F>)
    requires b.LoopOk()
    ensures Next(b, step).LoopOk() && |Next(b, step).zones| == |b.zones|
  {
    if step.Play? { PlayedLoop(b, step.now); }
  }

  // --- Routing that changes under way -----------------------------------------------------

  datatype What = Owner | Revision

  /** What the loop has loaded is no longer so. */
  predicate Outdated<F>(b: Bridge<F>, what: What) {
    match what
    case Owner => b.owner != b.loop.owner
    case Revision => b.revision != b.loop.revision
  }

  predicate Loaded(s: Stage, what: What) { OwnerLoaded(s) && (what.Revision? ==> !s.LoadRevision?) }

  /** The loop will look at it again before it reads a ring. */
  predicate BeforeRead(s: Stage, what: What) {
    Loaded(s, what) && !InHand(s) && !s.Available? && !s.ReadRing? && (what.Owner? ==> !s.RecheckRevision?)
  }

  /** The loop will look at it again before it writes to the DAC. */
  predicate BeforeWrite(s: Stage, what: What) {
    Loaded(s, what) && !s.WriteDac? && (what.Owner? ==> !s.RecheckHandRevision?)
  }

  /** Steps of all threads, up to the moment when the playback loop is back at the top. */
  ghost function Pass<F>(b: Bridge<F>, steps: seq<Step<F>>): Bridge<F>
    requires b.LoopOk()
    decreases |steps|
  {
    if steps == [] || b.loop.stage.CheckDac? then b else (NextLoop(b, steps[0]); Pass(Next(b, steps[0]), steps[1..]))
  }

  ghost predicate StaysOutdated<F>(b: Bridge<F>, steps: seq<Step<F>>, what: What)
    requires b.LoopOk()
    decreases |steps|
  {
    b.loop.stage.CheckDac? ||
    (Outdated(b, what) && (steps == [] || (NextLoop(b, steps[0]); StaysOutdated(Next(b, steps[0]), steps[1..], what))))
  }

  ghost predicate SamePlayed<F>(b: Bridge<F>, n: Bridge<F>) {
    |n.zones| == |b.zones| && forall z | b.Has(z) :: n.At(z).played == b.At(z).played
  }

  lemma OutdatedPick<F>(b: Bridge<F>, now: int, what: What)
    requires b.LoopOk() && Outdated(b, what) && BeforeWrite(b.loop.stage, what) && !Reading(b.loop.stage)
    ensures var n := Picked(b, now);
            SamePlayed(b, n) && BeforeRead(n.loop.stage, what)
  {
    PickPlaysNothing(b, now);
    PickGoesOn(b, now, what);
  }

  lemma PickPlaysNothing<F>(b: Bridge<F>, now: int)
    requires b.LoopOk() && !Reading(b.loop.stage)
    ensures SamePlayed(b, Picked(b, now))
  {
    hide Picked;
    PlayedLoop(b, now);
    forall z | b.Has(z) ensures Picked(b, now).At(z).played == b.At(z).played { PickedEffect(b, now, z); }
  }

  lemma PickGoesOn<F>(b: Bridge<F>, now: int, what: What)
    requires b.LoopOk() && BeforeWrite(b.loop.stage, what) && !Reading(b.loop.stage)
    ensures BeforeRead(Picked(b, now).loop.stage, what)
  {
  }

  lemma OutdatedHand<F>(b: Bridge<F>, now: int, what: What)
    requires b.LoopOk() && Outdated(b, what) && BeforeWrite(b.loop.stage, what) && Reading(b.loop.stage)
    ensures var n := Handed(b, now);
            && SamePlayed(b, n) && (n.loop.stage.CheckDac? || BeforeWrite(n.loop.stage, what))
            && (BeforeRead(b.loop.stage, what) ==> n.loop.stage.CheckDac? || BeforeRead(n.loop.stage, what))
  {
  }

  lemma OutdatedStep<F>(b: Bridge<F>, step: Step<F>, what: What)
    requires b.LoopOk() && Outdated(b, what) && BeforeWrite(b.loop.stage, what)
    ensures var n := Next(b, step);
            && SamePlayed(b, n) && (n.loop.stage.CheckDac? || BeforeWrite(n.loop.stage, what))
            && (BeforeRead(b.loop.stage, what) ==> n.loop.stage.CheckDac? || BeforeRead(n.loop.stage, what))
  {
    if step.Play? {
      if Reading(b.loop.stage) { OutdatedHand(b, step.now, what); } else { OutdatedPick(b, step.now, what); }
    }
  }

  /**
   Once the owner or the revision differs from what the loop has loaded, and as long as it does, the pass plays
   nothing, whatever the other threads do; and if that happens before a ring was read, none is read.
   */
  lemma {:induction false} OutdatedPassPlaysNothing<F>(b: Bridge<F>, steps: seq<Step<F>>, what: What)
    requires b.LoopOk() && StaysOutdated(b, steps, what) && (b.loop.stage.CheckDac? || BeforeWrite(b.loop.stage, what))
    ensures var t := Pass(b, steps);
            && SamePlayed(b, t) && (t.loop.stage.CheckDac? || BeforeWrite(t.loop.stage, what))
            && (BeforeRead(b.loop.stage, what) ==> t.loop.stage.CheckDac? || BeforeRead(t.loop.stage, what))
    decreases |steps|
  {
    hide Next;
    if steps != [] && !b.loop.stage.CheckDac? {
      NextLoop(b, steps[0]);
      OutdatedStep(b, steps[0], what);
      OutdatedPassPlaysNothing(Next(b, steps[0]), steps[1..], what);
    }
  }

  // --- Nobody to hear, nothing to play on -------------------------------------------------

  ghost function After<F>(b: Bridge<F>, steps: seq<Step<F>>): Bridge<F>
    requires b.LoopOk()
    decreases |steps|
  {
    if steps == [] then b else (NextLoop(b, steps[0]); After(Next(b, steps[0]), steps[1..]))
  }

  lemma ClosedDacStep<F>(b: Bridge<F>, now: int)
    requires b.LoopOk() && !b.dacOpen
    ensures SamePlayed(b, Played(b, now)) && !Played(b, now).dacOpen
  {
  }

  /** While the DAC is closed nothing is played, whatever happens. */
  lemma {:induction false} ClosedDacPlaysNothing<F>(b: Bridge<F>, steps: seq<Step<F>>)
    requires b.LoopOk() && !b.dacOpen && forall i | 0 <= i < |steps| :: steps[i].StoreDac? ==> !steps[i].open
    ensures SamePlayed(b, After(b, steps))
    decreases |steps|
  {
    hide Played;
    if steps != [] {
      NextLoop(b, steps[0]);
      if steps[0].Play? { ClosedDacStep(b, steps[0].now); }
      ClosedDacPlaysNothing(Next(b, steps[0]), steps[1..]);
    }
  }

  ghost predicate Idle<F>(b: Bridge<F>) {
    b.LoopOk() && !b.Has(b.owner) && (b.loop.stage.CheckDac? || b.loop.stage.LoadOwner?)
  }

  /** Without an owner the loop stays at the top: nothing is played, and no ring is read. */
  lemma {:induction false} NoOwnerPlaysNothing<F>(b: Bridge<F>, steps: seq<Step<F>>)
    requires Idle(b) && forall i | 0 <= i < |steps| :: steps[i].StoreRouting? ==> !b.Has(steps[i].owner)
    ensures SamePlayed(b, After(b, steps)) && Idle(After(b, steps))
    decreases |steps|
  {
    if steps != [] {
      NextLoop(b, steps[0]);
      NoOwnerPlaysNothing(Next(b, steps[0]), steps[1..]);
    }
  }

  // --- Waiting for a period ---------------------------------------------------------------

  /** A ring that is not stale is waited for: a period that arrives then is played in the same pass. */
  lemma PeriodIsWaitedFor<F>(c: Bridge<F>, frames: seq<F>, now: int, later: int)
    returns (n: seq<Bridge<F>>, t: Bridge<F>)
    requires Steady(c) && c.loop.stage == Wait && c.Has(c.loop.zone)
    requires var zone := c.At(c.loop.zone);
             && zone.mode == Buffer && zone.ring == [] && zone.pending == [] && |frames| == c.period <= zone.capacity
             && (zone.bufferedAt <= 0 || now - zone.bufferedAt <= 80)
    ensures Next(c, Play(now)).LoopOk()
    ensures |n| > 1 && Leads(Captured(Next(c, Play(now)), c.loop.zone, frames, later), n, later, t)
    ensures t.loop.stage == CheckDac && t.Has(c.loop.zone)
    ensures t.At(c.loop.zone).played == c.At(c.loop.zone).played + frames
  {
    hide Played, ZoneStep;
    var z := c.loop.zone;
    NextLoop(c, Play(now));
    var d := Next(c, Play(now));
    FreshIsWaitedFor(c, now);
    CaptureRound(d, z, frames, later);
    assert [] + frames == frames;
    n, t := FromRecheck(Captured(d, z, frames, later), later);
    assert frames[..c.period] == frames;
  }

  lemma FreshIsWaitedFor<F>(c: Bridge<F>, now: int)
    requires c.LoopOk() && c.loop.stage == Wait
    requires c.At(c.loop.zone).bufferedAt <= 0 || now - c.At(c.loop.zone).bufferedAt <= 80
    ensures Next(c, Play(now)) == c.Goto(Recheck)
  {
  }

  /** A stale ring without a period is given up at once, unless a hand-off is under way. */
  lemma StaleIsGivenUp<F>(c: Bridge<F>, now: int)
    requires c.LoopOk() && c.loop.stage == Wait && c.handoff <= 0 && |c.At(c.loop.zone).ring| < c.period
    requires c.At(c.loop.zone).bufferedAt > 0 && now - c.At(c.loop.zone).bufferedAt > 80
    ensures var d := Next(c, Play(now));
            d.LoopOk() && Next(d, Play(now)).LoopOk() && Next(Next(d, Play(now)), Play(now)) == c.Restart()
  {
  }

  // --- A capture that is opened -----------------------------------------------------------

  /** A ring set up anew for a zone told to buffer holds the newest of what is captured; any other stays empty. */
  lemma OpenedCaptureBuffers<F>(b: Bridge<F>, z: int, capacity: nat, mode: Mode, frames: seq<F>, at: int)
    requires b.LoopOk() && b.Has(z) && b.At(z).pending == [] && capacity > 0
    ensures Next(b, InitRing(z, capacity)).LoopOk() && Next(Next(b, InitRing(z, capacity)), StoreMode(z, mode)).LoopOk()
    ensures var c := Captured(Next(Next(b, InitRing(z, capacity)), StoreMode(z, mode)), z, frames, at);
            c.Has(z) && c.At(z).ring == if mode != Buffer then [] else if |frames| <= capacity then frames
                                        else frames[|frames| - capacity..]
  {
    NextLoop(b, InitRing(z, capacity));
    var c := Next(Next(b, InitRing(z, capacity)), StoreMode(z, mode));
    NextLoop(Next(b, InitRing(z, capacity)), StoreMode(z, mode));
    CaptureRound(c, z, frames, at);
    assert [] + frames == frames;
  }
}
