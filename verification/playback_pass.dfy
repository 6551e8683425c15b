/**
 One pass of the playback loop that nobody interrupts: which zone it reads, and what it writes to the DAC.
 All its looks at the clock fall in the same millisecond.
 */
module PlaybackPass {
  import opened Lists
  import opened Machine
  import opened Routing
  import opened FrameRings
  import opened AudioBridge

  // --- Steps of one pass ------------------------------------------------------------------

  ghost predicate StepAt<F>(trace: seq<Bridge<F>>, i: nat, now: int)
    requires i + 1 < |trace|
  {
    trace[i].LoopOk() && trace[i + 1] == Next(trace[i], Play(now)) && (i > 0 ==> trace[i].loop.stage != CheckDac)
  }

  /** Steps of the playback thread from `b` to `t`, which are at the top of the loop at both ends at most. */
  ghost predicate Leads<F>(b: Bridge<F>, trace: seq<Bridge<F>>, now: int, t: Bridge<F>) {
    |trace| > 0 && trace[0] == b && trace[|trace| - 1] == t && forall i | 0 <= i < |trace| - 1 :: StepAt(trace, i, now)
  }

  ghost function Linked<F>(p: seq<Bridge<F>>, q: seq<Bridge<F>>): seq<Bridge<F>>
    requires q != []
  {
    p + q[1..]
  }

  lemma LeadsOn<F>(a: Bridge<F>, p: seq<Bridge<F>>, b: Bridge<F>, q: seq<Bridge<F>>, c: Bridge<F>, now: int)
    requires Leads(a, p, now, b) && Leads(b, q, now, c) && b.loop.stage != CheckDac
    ensures Leads(a, Linked(p, q), now, c) && |Linked(p, q)| == |p| + |q| - 1
  {
    var r := Linked(p, q);
    forall i | 0 <= i < |r| - 1 ensures StepAt(r, i, now) {
      if i < |p| - 1 {
        assert StepAt(p, i, now);
      } else {
        assert StepAt(q, i - (|p| - 1), now);
        assert r[i] == q[i - (|p| - 1)] && r[i + 1] == q[i - (|p| - 1) + 1];
      }
    }
  }

  lemma LeadsStep<F>(b: Bridge<F>, now: int) returns (t: Bridge<F>)
    requires b.LoopOk()
    ensures t == Next(b, Play(now)) && t.LoopOk() && Leads(b, [b, t], now, t)
  {
    PlayedLoop(b, now);
    t := Next(b, Play(now));
    assert StepAt([b, t], 0, now);
  }

  // --- Which zone is read -----------------------------------------------------------------

  /** A bridge is under way from a zone that exists. */
  predicate Bridging<F>(b: Bridge<F>) { b.Has(b.handoff) }

  /** The owner has two periods and something no older than half a second. */
  predicate TargetReady<F>(b: Bridge<F>, now: int)
    requires b.Has(b.owner)
  {
    |b.At(b.owner).ring| >= 2 * b.period && b.At(b.owner).bufferedAt > 0 && now - b.At(b.owner).bufferedAt <= 500
  }

  function Preferred<F>(b: Bridge<F>, now: int): (z: int)
    requires b.Has(b.owner)
    ensures b.Has(z)
  {
    if Bridging(b) && !TargetReady(b, now) then b.handoff else b.owner
  }

  function Other<F>(b: Bridge<F>, now: int): int
    requires b.Has(b.owner)
  {
    if Preferred(b, now) == b.owner then b.handoff else b.owner
  }

  function HandoffLeft<F>(b: Bridge<F>, now: int): int
    requires b.Has(b.owner)
  {
    if Bridging(b) && TargetReady(b, now) then 0 else b.handoff
  }

  /** Outside a bridge, what the preferred zone buffered more than 80 ms ago is thrown away. */
  predicate Discards<F>(b: Bridge<F>, now: int)
    requires b.Has(b.owner)
  {
    var stamp := b.At(Preferred(b, now)).bufferedAt;
    HandoffLeft(b, now) <= 0 && stamp > 0 && now - stamp > 80
  }

  /** Whole periods go, the oldest first. */
  function Leftover<F>(ring: seq<F>, period: nat): (r: seq<F>)
    requires period > 0
    ensures |r| < period
  {
    ring[|ring| - |ring| % period..]
  }

  // --- Choosing ---------------------------------------------------------------------------

  /** The loop has chosen its preferred zone. */
  ghost predicate Chosen<F>(b: Bridge<F>, now: int, c: Bridge<F>)
    requires b.Has(b.owner)
  {
    c == b.(handoff := HandoffLeft(b, now),
            loop := Loop(CheckHandoff, b.owner, b.revision, b.handoff, Preferred(b, now), []))
  }

  ghost predicate AtTop<F>(b: Bridge<F>) {
    b.LoopOk() && b.loop.stage == CheckDac && b.dacOpen && b.Has(b.owner) && b.period > 0
  }

  lemma LoadsOwner<F>(b: Bridge<F>, now: int) returns (n: seq<Bridge<F>>, c: Bridge<F>)
    requires AtTop(b)
    ensures c.LoopOk() && |n| > 1 && Leads(b, n, now, c)
    ensures c == b.(loop := b.loop.(stage := LoadRevision, owner := b.owner))
  {
    var c1 := LeadsStep(b, now);
    c := LeadsStep(c1, now);
    LeadsOn(b, [b, c1], c1, [c1, c], c, now);
    n := Linked([b, c1], [c1, c]);
  }

  lemma LoadsHandoff<F>(b: Bridge<F>, now: int) returns (n: seq<Bridge<F>>, c: Bridge<F>)
    requires b.LoopOk() && b.loop.stage == LoadRevision
    ensures c.LoopOk() && |n| > 1 && Leads(b, n, now, c)
    ensures c == b.(loop := Loop(if Bridging(b) then CheckTarget else CheckHandoff, b.loop.owner, b.revision, b.handoff,
                                 b.loop.owner, b.loop.hand))
  {
    var c1 := LeadsStep(b, now);
    c := LeadsStep(c1, now);
    LeadsOn(b, [b, c1], c1, [c1, c], c, now);
    n := Linked([b, c1], [c1, c]);
  }

  lemma Loads<F>(b: Bridge<F>, now: int) returns (n: seq<Bridge<F>>, c: Bridge<F>)
    requires AtTop(b)
    ensures c.LoopOk() && |n| > 1 && Leads(b, n, now, c)
    ensures c == b.(loop := Loop(if Bridging(b) then CheckTarget else CheckHandoff, b.owner, b.revision, b.handoff,
                                 b.owner, []))
  {
    var d: Bridge<F>;
    var m: seq<Bridge<F>>;
    n, d := LoadsOwner(b, now);
    m, c := LoadsHandoff(d, now);
    LeadsOn(b, n, d, m, c, now);
    n := Linked(n, m);
  }

  lemma Chooses<F>(b: Bridge<F>, now: int) returns (n: seq<Bridge<F>>, c: Bridge<F>)
    requires AtTop(b)
    ensures |n| > 1 && c.LoopOk() && Leads(b, n, now, c) && Chosen(b, now, c)
  {
    n, c := Loads(b, now);
    if Bridging(b) {
      var m, d := ChoosesTarget(b, c, now);
      LeadsOn(b, n, c, m, d, now);
      n, c := Linked(n, m), d;
    }
  }

  /** The target has two periods; is it fresh. */
  lemma ChoosesFresh<F>(b: Bridge<F>, c: Bridge<F>, now: int) returns (n: seq<Bridge<F>>, d: Bridge<F>)
    requires AtTop(b) && Bridging(b) && c.LoopOk() && |b.At(b.owner).ring| >= 2 * b.period
    requires c == b.(loop := Loop(CheckFresh, b.owner, b.revision, b.handoff, b.owner, []))
    ensures |n| > 1 && d.LoopOk() && Leads(c, n, now, d) && Chosen(b, now, d)
  {
    var c1 := LeadsStep(c, now);
    if c1.loop.stage == CheckHandoff {
      n, d := [c, c1], c1;
    } else {
      d := LeadsStep(c1, now);
      LeadsOn(c, [c, c1], c1, [c1, d], d, now);
      n := Linked([c, c1], [c1, d]);
    }
  }

  lemma ChoosesTarget<F>(b: Bridge<F>, c: Bridge<F>, now: int) returns (n: seq<Bridge<F>>, d: Bridge<F>)
    requires AtTop(b) && Bridging(b) && c.LoopOk()
    requires c == b.(loop := Loop(CheckTarget, b.owner, b.revision, b.handoff, b.owner, []))
    ensures |n| > 1 && d.LoopOk() && Leads(c, n, now, d) && Chosen(b, now, d)
  {
    var c1 := LeadsStep(c, now);
    if c1.loop.stage == CheckHandoff {
      n, d := [c, c1], c1;
    } else {
      n, d := ChoosesFresh(b, c1, now);
      LeadsOn(c, [c, c1], c1, n, d, now);
      n := Linked([c, c1], n);
    }
  }

  // --- Discarding -------------------------------------------------------------------------

  /** The loop is about to test the preferred ring. */
  function Testing<F>(c: Bridge<F>, ring: seq<F>): Bridge<F>
    requires c.Has(c.loop.zone)
  {
    c.With(c.loop.zone, c.At(c.loop.zone).(ring := ring)).Goto(TestRing)
  }

  lemma LeftoverStep<F>(ring: seq<F>, period: nat)
    requires period > 0
    ensures |ring| >= period ==> Leftover(ring[period..], period) == Leftover(ring, period)
    ensures |ring| < period ==> Leftover(ring, period) == ring
  {
    if |ring| >= period {
      assert |ring[period..]| % period == |ring| % period by { ModLess(|ring|, period); }
    } else {
      ModSmall(|ring|, period);
    }
  }

  lemma ModLess(n: nat, k: nat)
    requires 0 < k <= n
    ensures (n - k) % k == n % k
  {
    var q := n / k - 1;
    assert n == (n / k) * k + n % k && n - k == q * k + n % k;
    DivIs(n - k, k, q, n % k);
  }

  lemma ModSmall(n: nat, k: nat)
    requires n < k
    ensures n % k == n
  {
  }

  /** One period is thrown away. */
  lemma DiscardsOne<F>(c: Bridge<F>, now: int) returns (n: seq<Bridge<F>>, d: Bridge<F>)
    requires c.LoopOk() && c.loop.stage == DiscardTest && c.period > 0 && |c.At(c.loop.zone).ring| >= c.period
    ensures d == c.With(c.loop.zone, c.At(c.loop.zone).(ring := c.At(c.loop.zone).ring[c.period..]))
    ensures |n| > 1 && d.LoopOk() && Leads(c, n, now, d)
  {
    var c1 := LeadsStep(c, now);
    d := LeadsStep(c1, now);
    LeadsOn(c, [c, c1], c1, [c1, d], d, now);
    n := Linked([c, c1], [c1, d]);
  }

  lemma SameTesting<F>(c: Bridge<F>, d: Bridge<F>, cut: seq<F>, ring: seq<F>)
    requires c.Has(c.loop.zone) && d == c.With(c.loop.zone, c.At(c.loop.zone).(ring := cut))
    ensures d.Has(d.loop.zone) && Testing(d, ring) == Testing(c, ring)
  {
  }

  lemma {:induction false} DiscardsAll<F>(c: Bridge<F>, now: int) returns (n: seq<Bridge<F>>, t: Bridge<F>)
    requires c.LoopOk() && c.loop.stage == DiscardTest && c.period > 0
    ensures |n| > 1 && t.LoopOk() && Leads(c, n, now, t)
    ensures t == Testing(c, Leftover(c.At(c.loop.zone).ring, c.period))
    decreases |c.At(c.loop.zone).ring|
  {
    var ring := c.At(c.loop.zone).ring;
    LeftoverStep(ring, c.period);
    if |ring| < c.period {
      t := LeadsStep(c, now);
      n := [c, t];
    } else {
      var m, d := DiscardsOne(c, now);
      n, t := DiscardsAll(d, now);
      SameTesting(c, d, ring[c.period..], Leftover(ring, c.period));
      LeadsOn(c, m, d, n, t, now);
      n := Linked(m, n);
    }
  }

  predicate Stale<F>(zone: Zone<F>, now: int) { zone.bufferedAt > 0 && now - zone.bufferedAt > 80 }

  lemma DiscardsStale<F>(c: Bridge<F>, now: int) returns (n: seq<Bridge<F>>, t: Bridge<F>)
    requires c.LoopOk() && c.loop.stage == CheckStamp && c.period > 0
    ensures |n| > 1 && t.LoopOk() && Leads(c, n, now, t)
    ensures var zone := c.At(c.loop.zone);
            t == Testing(c, if Stale(zone, now) then Leftover(zone.ring, c.period) else zone.ring)
  {
    var c1 := LeadsStep(c, now);
    n, t := [c, c1], c1;
    if c1.loop.stage == DiscardTest {
      n, t := DiscardsAll(c1, now);
      LeadsOn(c, [c, c1], c1, n, t, now);
      n := Linked([c, c1], n);
    }
  }

  lemma DiscardsUnlessBridged<F>(c: Bridge<F>, now: int) returns (n: seq<Bridge<F>>, t: Bridge<F>)
    requires c.LoopOk() && c.loop.stage == CheckHandoff && c.period > 0
    ensures |n| > 1 && t.LoopOk() && Leads(c, n, now, t)
    ensures var zone := c.At(c.loop.zone);
            t == Testing(c, if c.handoff <= 0 && Stale(zone, now) then Leftover(zone.ring, c.period) else zone.ring)
  {
    var c1 := LeadsStep(c, now);
    n, t := [c, c1], c1;
    if c1.loop.stage == CheckStamp {
      n, t := DiscardsStale(c1, now);
      LeadsOn(c, [c, c1], c1, n, t, now);
      n := Linked([c, c1], n);
    }
  }

  // --- Picking, reading and writing -------------------------------------------------------

  function OtherOf<F>(c: Bridge<F>): int { if c.loop.zone == c.loop.owner then c.loop.handoff else c.loop.owner }

  /** The zone that is waited for. */
  function Choice<F>(c: Bridge<F>): int
    requires c.Has(c.loop.zone)
  {
    if |c.At(c.loop.zone).ring| < c.period && c.loop.handoff > 0 && c.Has(OtherOf(c)) && |c.At(OtherOf(c)).ring| >= c.period
    then OtherOf(c) else c.loop.zone
  }

  lemma PicksOther<F>(c: Bridge<F>, now: int) returns (t: Bridge<F>)
    requires c.LoopOk() && c.loop.stage == TestOther
    ensures t.LoopOk() && Leads(c, [c, t], now, t)
    ensures var o := OtherOf(c);
            t == c.(loop := c.loop.(stage := Wait,
                                    zone := if c.Has(o) && |c.At(o).ring| >= c.period then o else c.loop.zone))
  {
    t := LeadsStep(c, now);
  }

  lemma TestsRing<F>(c: Bridge<F>, now: int) returns (t: Bridge<F>)
    requires c.LoopOk() && c.loop.stage == TestRing
    ensures t.LoopOk() && Leads(c, [c, t], now, t)
    ensures t == c.Goto(if |c.At(c.loop.zone).ring| < c.period && c.loop.handoff > 0 then TestOther else Wait)
  {
    t := LeadsStep(c, now);
  }

  lemma Picks<F>(c: Bridge<F>, now: int) returns (n: seq<Bridge<F>>, t: Bridge<F>)
    requires c.LoopOk() && c.loop.stage == TestRing
    ensures |n| > 1 && t.LoopOk() && Leads(c, n, now, t)
    ensures t == c.(loop := c.loop.(stage := Wait, zone := Choice(c)))
  {
    var d := TestsRing(c, now);
    n, t := [c, d], d;
    if d.loop.stage == TestOther {
      t := PicksOther(d, now);
      LeadsOn(c, [c, d], d, [d, t], t, now);
      n := Linked([c, d], [d, t]);
    }
  }

  /** Nothing of what the loop has loaded has changed since. */
  ghost predicate Steady<F>(c: Bridge<F>) {
    c.LoopOk() && c.owner == c.loop.owner && c.revision == c.loop.revision && c.dacOpen && c.period > 0 &&
    c.loop.hand == []
  }

  lemma WaitsOn<F>(c: Bridge<F>, now: int) returns (n: seq<Bridge<F>>, t: Bridge<F>)
    requires c.LoopOk() && c.loop.stage == WaitHandoff
    ensures |n| > 1 && t.LoopOk() && Leads(c, n, now, t)
    ensures t == c.Goto(Recheck) || (t == c.Restart() && |c.At(c.loop.zone).ring| < c.period)
  {
    var d := LeadsStep(c, now);
    n, t := [c, d], d;
    if d.loop.stage == WaitRing {
      t := LeadsStep(d, now);
      LeadsOn(c, [c, d], d, [d, t], t, now);
      n := Linked([c, d], [d, t]);
    }
  }

  /** Up to the second look at the owner, or back to the top for lack of a period in a stale ring. */
  lemma Waited<F>(c: Bridge<F>, now: int) returns (n: seq<Bridge<F>>, t: Bridge<F>)
    requires Steady(c) && c.loop.stage == Wait
    ensures |n| > 1 && t.LoopOk() && Leads(c, n, now, t)
    ensures t == c.Goto(Recheck) || (t == c.Restart() && |c.At(c.loop.zone).ring| < c.period)
  {
    var d := LeadsStep(c, now);
    n, t := [c, d], d;
    if d.loop.stage == WaitHandoff {
      n, t := WaitsOn(d, now);
      LeadsOn(c, [c, d], d, n, t, now);
      n := Linked([c, d], n);
    }
  }

  lemma Rechecked<F>(c: Bridge<F>, now: int) returns (n: seq<Bridge<F>>, t: Bridge<F>)
    requires Steady(c) && c.loop.stage == Recheck
    ensures |n| > 1 && t.LoopOk() && Leads(c, n, now, t)
    ensures t == if |c.At(c.loop.zone).ring| >= c.period then c.Goto(ReadRing) else c.Restart()
  {
    var c1 := LeadsStep(c, now);
    var c2 := LeadsStep(c1, now);
    t := LeadsStep(c2, now);
    LeadsOn(c1, [c1, c2], c2, [c2, t], t, now);
    n := Linked([c1, c2], [c2, t]);
    LeadsOn(c, [c, c1], c1, n, t, now);
    n := Linked([c, c1], n);
  }

  /** The oldest period of the zone read has gone to the DAC, and only there. */
  function Heard<F>(c: Bridge<F>, z: int): Bridge<F>
    requires c.Has(z) && |c.At(z).ring| >= c.period
  {
    var zone := c.At(z);
    c.With(z, zone.(ring := zone.ring[c.period..], played := zone.played + zone.ring[..c.period]))
  }

  /** The period is in hand. */
  function InHandOf<F>(c: Bridge<F>): Bridge<F>
    requires c.Has(c.loop.zone) && |c.At(c.loop.zone).ring| >= c.period
  {
    var zone := c.At(c.loop.zone);
    c.With(c.loop.zone, zone.(ring := zone.ring[c.period..]))
     .(loop := c.loop.(stage := RecheckHand, hand := zone.ring[..c.period]))
  }

  lemma ReadsRing<F>(c: Bridge<F>, now: int) returns (t: Bridge<F>)
    requires Steady(c) && c.loop.stage == ReadRing && |c.At(c.loop.zone).ring| >= c.period
    ensures t.LoopOk() && Leads(c, [c, t], now, t) && t == InHandOf(c)
  {
    t := LeadsStep(c, now);
  }

  lemma Writes<F>(c: Bridge<F>, now: int) returns (n: seq<Bridge<F>>, t: Bridge<F>)
    requires c.LoopOk() && c.loop.stage == RecheckHand
    requires c.owner == c.loop.owner && c.revision == c.loop.revision && c.dacOpen
    ensures |n| > 1 && t.LoopOk() && Leads(c, n, now, t)
    ensures var zone := c.At(c.loop.zone);
            t == c.With(c.loop.zone, zone.(played := zone.played + c.loop.hand)).Restart()
  {
    var c1 := LeadsStep(c, now);
    var c2 := LeadsStep(c1, now);
    t := LeadsStep(c2, now);
    LeadsOn(c1, [c1, c2], c2, [c2, t], t, now);
    n := Linked([c1, c2], [c2, t]);
    LeadsOn(c, [c, c1], c1, n, t, now);
    n := Linked([c, c1], n);
  }

  lemma ReadAndWritten<F>(c: Bridge<F>, now: int) returns (n: seq<Bridge<F>>, t: Bridge<F>)
    requires Steady(c) && c.loop.stage == ReadRing && |c.At(c.loop.zone).ring| >= c.period
    ensures |n| > 1 && t.LoopOk() && Leads(c, n, now, t) && t == Heard(c, c.loop.zone).Restart()
  {
    var d := ReadsRing(c, now);
    n, t := Writes(d, now);
    LeadsOn(c, [c, d], d, n, t, now);
    n := Linked([c, d], n);
  }

  lemma FromRecheck<F>(c: Bridge<F>, now: int) returns (n: seq<Bridge<F>>, t: Bridge<F>)
    requires Steady(c) && c.loop.stage == Recheck
    ensures |n| > 1 && t.LoopOk() && Leads(c, n, now, t)
    ensures t == if |c.At(c.loop.zone).ring| >= c.period then Heard(c, c.loop.zone).Restart() else c.Restart()
  {
    var d: Bridge<F>;
    n, d := Rechecked(c, now);
    t := d;
    if |c.At(c.loop.zone).ring| >= c.period {
      var m: seq<Bridge<F>>;
      m, t := ReadAndWritten(d, now);
      LeadsOn(c, n, d, m, t, now);
      n := Linked(n, m);
    }
  }

  lemma Delivers<F>(c: Bridge<F>, now: int) returns (n: seq<Bridge<F>>, t: Bridge<F>)
    requires Steady(c) && c.loop.stage == Wait
    ensures |n| > 1 && t.LoopOk() && Leads(c, n, now, t)
    ensures t == if |c.At(c.loop.zone).ring| >= c.period then Heard(c, c.loop.zone).Restart() else c.Restart()
  {
    var d: Bridge<F>;
    n, d := Waited(c, now);
    t := d;
    if d.loop.stage == Recheck {
      var m: seq<Bridge<F>>;
      m, t := FromRecheck(d, now);
      LeadsOn(c, n, d, m, t, now);
      n := Linked(n, m);
    }
  }

  lemma PicksAndDelivers<F>(d: Bridge<F>, now: int) returns (n: seq<Bridge<F>>, t: Bridge<F>)
    requires Steady(d) && d.loop.stage == TestRing
    ensures |n| > 1 && t.LoopOk() && Leads(d, n, now, t)
    ensures d.Has(Choice(d)) && Same(t, if |d.At(Choice(d)).ring| >= d.period then Heard(d, Choice(d)) else d)
    ensures t.loop.stage == CheckDac
  {
    var e: Bridge<F>;
    var m: seq<Bridge<F>>;
    m, e := Picks(d, now);
    n, t := Delivers(e, now);
    LeadsOn(d, m, e, n, t, now);
    n := Linked(m, n);
  }

  /** Alike but for where the playback thread is. */
  ghost predicate Same<F>(a: Bridge<F>, b: Bridge<F>) { a == b.(loop := a.loop) }

  lemma ChoosesAndDiscards<F>(b: Bridge<F>, now: int) returns (n: seq<Bridge<F>>, d: Bridge<F>)
    requires AtTop(b)
    ensures |n| > 1 && Leads(b, n, now, d) && Steady(d) && Ready(b, now, d)
  {
    var c: Bridge<F>;
    var m: seq<Bridge<F>>;
    n, c := Chooses(b, now);
    m, d := DiscardsUnlessBridged(c, now);
    LeadsOn(b, n, c, m, d, now);
    n := Linked(n, m);
  }

  /** The preferred zone is about to be tested, with what is left of its ring. */
  ghost predicate Ready<F>(b: Bridge<F>, now: int, d: Bridge<F>)
    requires b.Has(b.owner) && b.period > 0
  {
    var a := Preferred(b, now);
    var ring := if Discards(b, now) then Leftover(b.At(a).ring, b.period) else b.At(a).ring;
    d == b.With(a, b.At(a).(ring := ring))
          .(handoff := HandoffLeft(b, now), loop := Loop(TestRing, b.owner, b.revision, b.handoff, a, []))
  }

  // --- The pass ---------------------------------------------------------------------------

  /**
   The zone whose oldest period is heard: the preferred one if it has a period that is not thrown away, else
   during a hand-off the other one if it has a period.
   */
  function ZoneHeard<F>(b: Bridge<F>, now: int): (z: int)
    requires b.Has(b.owner)
    ensures z != 0 ==> b.Has(z)
  {
    var a, o := Preferred(b, now), Other(b, now);
    if |b.At(a).ring| >= b.period && !Discards(b, now) then a
    else if b.handoff > 0 && o != a && b.Has(o) && |b.At(o).ring| >= b.period then o
    else 0
  }

  /** What the pass makes of zone `z`. */
  function ZoneAfter<F>(b: Bridge<F>, now: int, z: int): Zone<F>
    requires b.Has(b.owner) && b.Has(z) && b.period > 0
  {
    var zone := b.At(z);
    if z == ZoneHeard(b, now) && |zone.ring| >= b.period
    then zone.(ring := zone.ring[b.period..], played := zone.played + zone.ring[..b.period])
    else if z == Preferred(b, now) && Discards(b, now) then zone.(ring := Leftover(zone.ring, b.period))
    else zone
  }

  lemma HeardAfterDiscarding<F>(b: Bridge<F>, now: int, d: Bridge<F>, t: Bridge<F>)
    requires AtTop(b) && Ready(b, now, d) && d.Has(d.loop.zone) && d.Has(Choice(d))
    requires Same(t, if |d.At(Choice(d)).ring| >= d.period then Heard(d, Choice(d)) else d)
    ensures |t.zones| == |b.zones| && forall z | b.Has(z) :: t.At(z) == ZoneAfter(b, now, z)
  {
    var a, o := Preferred(b, now), Other(b, now);
    assert d.loop.zone == a && OtherOf(d) == o;
    assert Choice(d) == if ZoneHeard(b, now) != 0 then ZoneHeard(b, now) else a;
  }

  /**
   From the top of the loop, with the DAC open and an owner in range, one pass comes back to the top. If a
   zone is heard, exactly the oldest period of its ring has gone from there to the DAC; if none is, nothing
   has gone to the DAC. Nothing else has changed but for stale audio thrown away and a bridge that was ended.
   */
  lemma PassDelivers<F>(b: Bridge<F>, now: int) returns (n: seq<Bridge<F>>, t: Bridge<F>)
    requires AtTop(b)
    ensures |n| > 1 && Leads(b, n, now, t) && t.loop.stage == CheckDac && t.LoopOk()
    ensures |t.zones| == |b.zones| && forall z | b.Has(z) :: t.At(z) == ZoneAfter(b, now, z)
    ensures t.handoff == HandoffLeft(b, now) && t.owner == b.owner && t.revision == b.revision && t.dacOpen
    ensures t.period == b.period
  {
    var d: Bridge<F>;
    var m: seq<Bridge<F>>;
    m, d := ChoosesAndDiscards(b, now);
    n, t := PicksAndDelivers(d, now);
    LeadsOn(b, m, d, n, t, now);
    n := Linked(m, n);
    HeardAfterDiscarding(b, now, d, t);
  }

  /** Without a hand-off only the owner is heard, and that just when it has a period that is not stale. */
  lemma OwnerHeardIff<F>(b: Bridge<F>, now: int)
    requires AtTop(b) && b.handoff <= 0
    ensures var zone := b.At(b.owner);
            ZoneHeard(b, now) == if |zone.ring| >= b.period && (zone.bufferedAt <= 0 || now - zone.bufferedAt <= 80)
                                 then b.owner else 0
  {
  }

  /**
   A bridge from another zone. It goes on while the owner lacks two periods or has nothing of the last half
   second: the zone being left is heard, or else the owner, whichever has a period. Otherwise it ends: the owner
   is heard if and only if its audio is at most 80 ms old; if not, all but a part of a period of it is thrown
   away, and the zone being left is heard once more if it has a period.
   */
  lemma BridgeHeardIff<F>(b: Bridge<F>, now: int)
    requires AtTop(b) && b.Has(b.handoff) && b.handoff != b.owner
    ensures var left, owner := b.At(b.handoff), b.At(b.owner);
            var source := if |left.ring| >= b.period then b.handoff else 0;
            var ends := |owner.ring| >= 2 * b.period && owner.bufferedAt > 0 && now - owner.bufferedAt <= 500;
            && HandoffLeft(b, now) == (if ends then 0 else b.handoff)
            && (if !ends
                then ZoneHeard(b, now) == if source != 0 then source else if |owner.ring| >= b.period then b.owner else 0
                else if now - owner.bufferedAt <= 80 then ZoneHeard(b, now) == b.owner
                else ZoneHeard(b, now) == source && |ZoneAfter(b, now, b.owner).ring| < b.period)
  {
  }

  // --- From the capture to the DAC --------------------------------------------------------

  /** One round of a zone's capture thread that nobody interrupts: mode, frames, ring, stamp. */
  ghost function Captured<F>(b: Bridge<F>, z: int, frames: seq<F>, at: int): (n: Bridge<F>)
    requires b.LoopOk() && b.Has(z)
    ensures n.LoopOk()
  {
    Next(Next(Next(Next(b, CaptureMode(z)), CaptureRead(z, frames)), CaptureWrite(z)), Stamp(z, at))
  }

  /** In buffer mode the frames join the ring, which keeps its newest; otherwise they are lost or never read. */
  lemma CaptureRound<F>(b: Bridge<F>, z: int, frames: seq<F>, at: int)
    requires b.LoopOk() && b.Has(z) && b.At(z).pending == [] && b.At(z).capacity > 0 && |b.At(z).ring| <= b.At(z).capacity
    ensures var zone, n := b.At(z), Captured(b, z, frames, at);
            && n.Has(z) && n == b.With(z, n.At(z)) && n.At(z).played == zone.played && n.At(z).pending == []
            && n.At(z).bufferedAt == at
            && (zone.mode == Buffer && |zone.ring + frames| <= zone.capacity ==> n.At(z).ring == zone.ring + frames)
            && (zone.mode == Buffer && |zone.ring + frames| > zone.capacity ==>
                 n.At(z).ring == (zone.ring + frames)[|zone.ring + frames| - zone.capacity..])
            && (zone.mode != Buffer ==> n.At(z).ring == zone.ring)
            && n.At(z).captured == zone.captured + if zone.mode == Off || zone.mode == Disabled then [] else frames
  {
    var zone := b.At(z);
    var z1 := ZoneStep(zone, CaptureMode(z));
    var z2 := ZoneStep(z1, CaptureRead(z, frames));
    var z3 := ZoneStep(z2, CaptureWrite(z));
    assert Captured(b, z, frames, at) == b.With(z, ZoneStep(z3, Stamp(z, at)));
    assert zone.ring + [] == zone.ring && zone.captured + [] == zone.captured;
  }

  /** A period captured for the zone that plays alone is what the next pass plays. */
  lemma CapturedPeriodIsHeard<F>(b: Bridge<F>, frames: seq<F>, now: int) returns (n: seq<Bridge<F>>, t: Bridge<F>)
    requires AtTop(b) && b.handoff <= 0 && now > 0 && |frames| == b.period <= b.At(b.owner).capacity
    requires b.At(b.owner).mode == Buffer && b.At(b.owner).ring == [] && b.At(b.owner).pending == []
    ensures |n| > 1 && Leads(Captured(b, b.owner, frames, now), n, now, t) && t.Has(b.owner)
    ensures t.At(b.owner).played == b.At(b.owner).played + frames && t.At(b.owner).ring == []
  {
    var c := Captured(b, b.owner, frames, now);
    CaptureRound(b, b.owner, frames, now);
    assert [] + frames == frames;
    n, t := PassDelivers(c, now);
    OwnerHeardIff(c, now);
    assert c.At(c.owner).ring == frames && frames[..b.period] == frames && frames[b.period..] == [];
  }
}
