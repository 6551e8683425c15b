/**
 The per-zone PCM ring: a buffer of frames that overwrites its oldest frame when it is full.

 A frame is one value here; the service stores it as `bytesPerFrame` consecutive bytes.
 */
module FrameRings {
  import opened Lists
  import opened Text

  /** Position `i` on a ring of `c` slots, for `i` less than two turns. */
  function Wrap(i: nat, c: nat): nat
    requires i < 2 * c
  {
    if i < c then i else i - c
  }

  lemma ModIsWrap(i: nat, c: nat)
    requires i < 2 * c
    ensures i % c == Wrap(i, c)
  {
  }

  /** The `used` elements of the ring `b` that start at slot `r`. */
  function Held<F>(b: seq<F>, r: nat, used: nat): (s: seq<F>)
    requires used <= |b| && (r < |b| || used == r == 0)
    ensures |s| == used
  {
    if r + used <= |b| then b[r..r + used] else b[r..] + b[..r + used - |b|]
  }

  lemma HeldAt<F>(b: seq<F>, r: nat, used: nat)
    requires used <= |b| && (r < |b| || used == r == 0)
    ensures forall i | 0 <= i < used :: Held(b, r, used)[i] == b[Wrap(r + i, |b|)]
  {
  }

  lemma HeldTail<F>(b: seq<F>, r: nat, used: nat, k: nat)
    requires used <= |b| && r < |b| && k <= used
    ensures Held(b, Wrap(r + k, |b|), used - k) == Held(b, r, used)[k..]
  {
    hide Held;
    var q := Wrap(r + k, |b|);
    HeldAt(b, r, used);
    HeldAt(b, q, used - k);
    forall i | 0 <= i < used - k ensures Held(b, q, used - k)[i] == Held(b, r, used)[k..][i] {
      assert Held(b, r, used)[k..][i] == Held(b, r, used)[k + i];
      assert Wrap(q + i, |b|) == Wrap(r + (k + i), |b|);
    }
  }

  lemma HeldAppend<F>(b: seq<F>, r: nat, used: nat, x: F)
    requires used < |b| && r < |b|
    ensures Held(b[Wrap(r + used, |b|) := x], r, used + 1) == Held(b, r, used) + [x]
  {
  }

  /** Where reading `k` elements leaves the ring. */
  lemma HeldAfter<F>(b: seq<F>, r: nat, used: nat, k: nat)
    requires used <= |b| && (r < |b| || used == r == 0) && k <= used
    ensures var q := if |b| > 0 then Wrap(r + k, |b|) else 0;
            && (|b| > 0 ==> q < |b| && Wrap(q + used - k, |b|) == Wrap(r + used, |b|))
            && Held(b, r, used)[..k] + Held(b, q, used - k) == Held(b, r, used)
  {
    if |b| > 0 { HeldTail(b, r, used, k); }
    assert Held(b, r, used)[..k] + Held(b, r, used)[k..] == Held(b, r, used);
  }

  class FrameRing<F(0)> {
    var buffer: array<F>
    var capacityFrames: nat
    var bytesPerFrame: nat
    var readIndex: nat
    var writeIndex: nat
    var usedFrames: nat

    ghost predicate Valid()
      reads this
    {
      buffer.Length == capacityFrames && usedFrames <= capacityFrames &&
      if capacityFrames == 0 then readIndex == writeIndex == 0
      else readIndex < capacityFrames && writeIndex == Wrap(readIndex + usedFrames, capacityFrames)
    }

    /** The frames held, oldest first. */
    ghost function Contents(): (s: seq<F>)
      requires Valid()
      reads this, buffer
      ensures |s| == usedFrames
    {
      Held(buffer[..], readIndex, usedFrames)
    }

    /** The ring as a track without a past. */
    ghost function Now(): Track<F>
      requires Valid()
      reads this, buffer
    {
      Track(capacityFrames, bytesPerFrame, Contents(), [], [])
    }

    constructor ()
      ensures Valid() && Contents() == [] && capacityFrames == 0
    {
      buffer := new F[0];
      capacityFrames, bytesPerFrame, readIndex, writeIndex, usedFrames := 0, 0, 0, 0, 0;
    }

    method Init(capacity: nat, frameBytes: nat) returns (ok: bool)
      modifies this
      ensures Valid() && Contents() == [] && fresh(buffer)
      ensures capacityFrames == capacity && bytesPerFrame == frameBytes
      ensures ok == (capacity > 0 && frameBytes > 0)
      ensures Now() == Bare(Stepped(Track(0, 0, [], [], []), Reset(capacity, frameBytes)))
    {
      capacityFrames := capacity;
      bytesPerFrame := frameBytes;
      buffer := new F[capacity];
      readIndex, writeIndex, usedFrames := 0, 0, 0;
      ok := capacityFrames > 0 && bytesPerFrame > 0;
    }

    method Clear()
      requires Valid()
      modifies this`readIndex, this`writeIndex, this`usedFrames
      ensures Valid() && Contents() == [] && Now() == Bare(Stepped(old(Now()), Cleared))
    {
      readIndex, writeIndex, usedFrames := 0, 0, 0;
    }

    /** Makes room in a full ring. */
    method DropOldest()
      requires Valid() && 0 < capacityFrames == usedFrames
      modifies this`readIndex, this`usedFrames
      ensures Valid() && Contents() == old(Contents())[1..]
    {
      HeldTail(buffer[..], readIndex, usedFrames, 1);
      ModIsWrap(readIndex + 1, capacityFrames);
      readIndex := (readIndex + 1) % capacityFrames;
      usedFrames := capacityFrames - 1;
    }

    method Append(frame: F)
      requires Valid() && usedFrames < capacityFrames
      modifies this`writeIndex, this`usedFrames, buffer
      ensures Valid() && Contents() == old(Contents()) + [frame]
    {
      HeldAppend(buffer[..], readIndex, usedFrames, frame);
      ghost var filled := buffer[..][writeIndex := frame];
      buffer[writeIndex] := frame;
      assert buffer[..] == filled;
      ModIsWrap(writeIndex + 1, capacityFrames);
      writeIndex := (writeIndex + 1) % capacityFrames;
      usedFrames := usedFrames + 1;
    }

    /** One turn of the write loop. */
    method Put(frame: F)
      requires Valid() && capacityFrames > 0
      modifies this`readIndex, this`writeIndex, this`usedFrames, buffer
      ensures Valid() && Contents() == LastN(old(Contents()) + [frame], capacityFrames)
    {
      ghost var before := Contents();
      LastNOf(before, frame, capacityFrames);
      if usedFrames >= capacityFrames {
        DropOldest();
      }
      Append(frame);
    }

    method Write(data: seq<F>) returns (n: nat)
      requires Valid()
      modifies this`readIndex, this`writeIndex, this`usedFrames, buffer
      ensures Valid()
      ensures capacityFrames == 0 || bytesPerFrame == 0 ==> n == 0 && Contents() == old(Contents())
      ensures capacityFrames > 0 && bytesPerFrame > 0 ==>
                n == |data| && Contents() == LastN(old(Contents()) + data, capacityFrames)
      ensures Now() == Bare(Stepped(old(Now()), Written(data)))
    {
      if capacityFrames == 0 || bytesPerFrame == 0 {
        return 0;
      }
      ghost var before := Contents();
      assert before + data[..0] == before;
      for i := 0 to |data|
        invariant Valid() && capacityFrames > 0
        invariant Contents() == LastN(before + data[..i], capacityFrames)
      {
        LastNStep(before + data[..i], data[i], capacityFrames);
        assert before + data[..i] + [data[i]] == before + data[..i + 1];
        Put(data[i]);
      }
      assert data[..|data|] == data;
      n := |data|;
    }

    /** The copy loop of `read`; the caller lowers `usedFrames` afterwards. */
    method CopyOut(toRead: nat) returns (data: seq<F>)
      requires Valid() && toRead <= usedFrames
      modifies this`readIndex
      ensures data == old(Contents())[..toRead]
      ensures capacityFrames > 0 ==> readIndex == Wrap(old(readIndex) + toRead, capacityFrames)
      ensures capacityFrames == 0 ==> readIndex == 0
    {
      hide Held;
      ghost var before, start := Contents(), readIndex;
      HeldAt(buffer[..], readIndex, usedFrames);
      data := [];
      for i := 0 to toRead
        invariant if capacityFrames > 0 then readIndex == Wrap(start + i, capacityFrames) else readIndex == 0
        invariant data == before[..i]
      {
        ModIsWrap(readIndex + 1, capacityFrames);
        assert before[i] == buffer[readIndex];
        assert before[..i + 1] == before[..i] + [before[i]];
        data := data + [buffer[readIndex]];
        readIndex := (readIndex + 1) % capacityFrames;
      }
    }

    method Read(frameCount: nat) returns (data: seq<F>)
      requires Valid()
      modifies this`readIndex, this`usedFrames
      ensures Valid()
      ensures |data| == if frameCount < |old(Contents())| then frameCount else |old(Contents())|
      ensures data + Contents() == old(Contents())
      ensures Now() == Bare(Stepped(old(Now()), Taken(frameCount)))
      ensures Stepped(old(Now()), Taken(frameCount)).gone == Tagged(data, Delivered)
    {
      hide Held;
      var toRead := if frameCount < usedFrames then frameCount else usedFrames;
      ghost var b, held := buffer[..], Contents();
      HeldAfter(b, readIndex, usedFrames, toRead);
      data := CopyOut(toRead);
      usedFrames := usedFrames - toRead;
      assert buffer[..] == b && data == held[..toRead];
    }

    method AvailableFrames() returns (n: nat)
      requires Valid()
      ensures n == |Contents()|
    {
      n := usedFrames;
    }
  }

  // --- Runs of one ring -------------------------------------------------------------------

  datatype Op<F> = Written(data: seq<F>) | Taken(frames: nat) | Cleared | Reset(capacity: nat, frameBytes: nat)

  /** How a frame left the ring. */
  datatype Fate = Delivered | Overwritten | Flushed

  /** A ring with the record of all that passed through it. */
  datatype Track<F> = Track(capacity: nat, frameBytes: nat, held: seq<F>, gone: seq<(F, Fate)>, accepted: seq<F>)

  function Tagged<F>(s: seq<F>, fate: Fate): (r: seq<(F, Fate)>)
    ensures |r| == |s| && forall i | 0 <= i < |s| :: r[i] == (s[i], fate)
  {
    seq(|s|, i requires 0 <= i < |s| => (s[i], fate))
  }

  function Frames<F>(g: seq<(F, Fate)>): (r: seq<F>)
    ensures |r| == |g| && forall i | 0 <= i < |g| :: r[i] == g[i].0
  {
    seq(|g|, i requires 0 <= i < |g| => g[i].0)
  }

  /** The frames among `g` that left the ring in the given way. */
  function Only<F>(g: seq<(F, Fate)>, fate: Fate): seq<F> {
    if g == [] then [] else Only(g[..|g| - 1], fate) + if g[|g| - 1].1 == fate then [g[|g| - 1].0] else []
  }

  function Stepped<F>(t: Track<F>, op: Op<F>): Track<F> {
    match op
    case Written(data) =>
      if t.capacity == 0 || t.frameBytes == 0 then t
      else
        var all := t.held + data;
        var held := LastN(all, t.capacity);
        t.(held := held, accepted := t.accepted + data,
           gone := t.gone + Tagged(all[..|all| - |held|], Overwritten))
    case Taken(n) =>
      var k := if n < |t.held| then n else |t.held|;
      t.(held := t.held[k..], gone := t.gone + Tagged(t.held[..k], Delivered))
    case Cleared => t.(held := [], gone := t.gone + Tagged(t.held, Flushed))
    case Reset(capacity, frameBytes) =>
      Track(capacity, frameBytes, [], t.gone + Tagged(t.held, Flushed), t.accepted)
  }

  /** A track without its past. */
  function Bare<F>(t: Track<F>): Track<F> { t.(gone := [], accepted := []) }

  function Tracked<F>(ops: seq<Op<F>>): Track<F> {
    if ops == [] then Track(0, 0, [], [], []) else Stepped(Tracked(ops[..|ops| - 1]), ops[|ops| - 1])
  }

  lemma TaggedFrames<F>(g: seq<(F, Fate)>, s: seq<F>, fate: Fate)
    ensures Frames(g + Tagged(s, fate)) == Frames(g) + s
  {
  }

  lemma WriteFlow<F>(t: Track<F>, data: seq<F>)
    requires t.capacity > 0 && t.frameBytes > 0 && Frames(t.gone) + t.held == t.accepted
    ensures var n := Stepped(t, Written(data)); Frames(n.gone) + n.held == n.accepted
  {
  }

  lemma Cut<F>(a: seq<F>, s: seq<F>, k: nat)
    requires k <= |s|
    ensures a + s[..k] + s[k..] == a + s
  {
  }

  /** First in, first out: what left the ring followed by what it holds is all it ever accepted. */
  lemma {:induction false} NothingLostOrReordered<F>(ops: seq<Op<F>>)
    ensures var t := Tracked(ops); Frames(t.gone) + t.held == t.accepted && |t.held| <= t.capacity
  {
    if ops != [] {
      var t, op := Tracked(ops[..|ops| - 1]), ops[|ops| - 1];
      NothingLostOrReordered(ops[..|ops| - 1]);
      match op
      case Written(data) =>
        if t.capacity > 0 && t.frameBytes > 0 {
          WriteFlow(t, data);
        }
      case Taken(n) =>
        var k := if n < |t.held| then n else |t.held|;
        TaggedFrames(t.gone, t.held[..k], Delivered);
        Cut(Frames(t.gone), t.held, k);
      case Cleared => TaggedFrames(t.gone, t.held, Flushed);
      case Reset(_, _) => TaggedFrames(t.gone, t.held, Flushed);
    }
  }

  /**
   A writer followed by a reader: of all frames held and written, only those too many for the ring are
   overwritten, the oldest; the reader gets the oldest of the rest, as many as there are or it asks for.
   */
  lemma ReaderGetsNewest<F>(t: Track<F>, data: seq<F>, n: nat)
    requires t.capacity > 0 && t.frameBytes > 0 && |t.held| <= t.capacity
    ensures var all, u := t.held + data, Stepped(Stepped(t, Written(data)), Taken(n));
            var lost := if |all| > t.capacity then |all| - t.capacity else 0;
            var read := if lost + n < |all| then n else |all| - lost;
            u.held == all[lost + read..] &&
            u.gone == t.gone + Tagged(all[..lost], Overwritten) + Tagged(all[lost..lost + read], Delivered)
  {
    hide LastN, Tagged;
    var all := t.held + data;
    var lost := if |all| > t.capacity then |all| - t.capacity else 0;
    WriteLoses(t, data, lost);
    TakeGives(Stepped(t, Written(data)), n);
    var read := if lost + n < |all| then n else |all| - lost;
    assert all[lost..][read..] == all[lost + read..] && all[lost..][..read] == all[lost..lost + read];
  }

  lemma WriteLoses<F>(t: Track<F>, data: seq<F>, lost: nat)
    requires t.capacity > 0 && t.frameBytes > 0 && |t.held| <= t.capacity
    requires lost == if |t.held + data| > t.capacity then |t.held + data| - t.capacity else 0
    ensures var all, u := t.held + data, Stepped(t, Written(data));
            u.held == all[lost..] && u.gone == t.gone + Tagged(all[..lost], Overwritten)
  {
    hide Tagged;
  }

  lemma TakeGives<F>(t: Track<F>, n: nat)
    ensures var k, u := if n < |t.held| then n else |t.held|, Stepped(t, Taken(n));
            u.held == t.held[k..] && u.gone == t.gone + Tagged(t.held[..k], Delivered)
  {
    hide Tagged;
  }

  lemma {:induction false} FatesAddUp<F>(g: seq<(F, Fate)>)
    ensures |g| == |Only(g, Delivered)| + |Only(g, Overwritten)| + |Only(g, Flushed)|
  {
    if g != [] {
      FatesAddUp(g[..|g| - 1]);
    }
  }

  /** What the reads of a run returned, one after the other. */
  function ReadBack<F>(ops: seq<Op<F>>): seq<F> {
    if ops == [] then []
    else
      var t, op := Tracked(ops[..|ops| - 1]), ops[|ops| - 1];
      ReadBack(ops[..|ops| - 1]) +
      if op.Taken? then t.held[..if op.frames < |t.held| then op.frames else |t.held|] else []
  }

  lemma OnlySnoc<F>(g: seq<(F, Fate)>, x: F, f: Fate, fate: Fate)
    ensures Only(g + [(x, f)], fate) == Only(g, fate) + if f == fate then [x] else []
  {
    assert (g + [(x, f)])[..|g|] == g;
  }

  lemma TaggedSnoc<F>(s: seq<F>, f: Fate)
    requires s != []
    ensures Tagged(s, f) == Tagged(s[..|s| - 1], f) + [(s[|s| - 1], f)] && s == s[..|s| - 1] + [s[|s| - 1]]
  {
  }

  lemma {:induction false} OnlyOf<F>(g: seq<(F, Fate)>, s: seq<F>, f: Fate, fate: Fate)
    ensures Only(g + Tagged(s, f), fate) == Only(g, fate) + if f == fate then s else []
    decreases |s|
  {
    hide Only;
    if s == [] {
      assert g + Tagged(s, f) == g;
    } else {
      var front, last := s[..|s| - 1], s[|s| - 1];
      OnlyOf(g, front, f, fate);
      TaggedSnoc(s, f);
      OnlySnoc(g + Tagged(front, f), last, f, fate);
      Joins(g, Tagged(front, f), [(last, f)]);
      Joins(Only(g, fate), if f == fate then front else [], if f == fate then [last] else []);
    }
  }

  /** The frames recorded as delivered are those that reads returned, in order. */
  lemma {:induction false} DeliveredIsRead<F>(ops: seq<Op<F>>)
    ensures Only(Tracked(ops).gone, Delivered) == ReadBack(ops)
  {
    if ops != [] {
      var t, op := Tracked(ops[..|ops| - 1]), ops[|ops| - 1];
      DeliveredIsRead(ops[..|ops| - 1]);
      match op
      case Written(data) =>
        if t.capacity > 0 && t.frameBytes > 0 {
          var all := t.held + data;
          OnlyOf(t.gone, all[..|all| - |LastN(all, t.capacity)|], Overwritten, Delivered);
        }
      case Taken(n) => OnlyOf(t.gone, t.held[..if n < |t.held| then n else |t.held|], Delivered, Delivered);
      case Cleared => OnlyOf(t.gone, t.held, Flushed, Delivered);
      case Reset(_, _) => OnlyOf(t.gone, t.held, Flushed, Delivered);
    }
  }

  /** Frames accepted = delivered + overwritten + flushed + held. */
  lemma FrameConservation<F>(ops: seq<Op<F>>)
    ensures var t := Tracked(ops);
            |t.accepted| == |Only(t.gone, Delivered)| + |Only(t.gone, Overwritten)| + |Only(t.gone, Flushed)| + |t.held|
  {
    NothingLostOrReordered(ops);
    FatesAddUp(Tracked(ops).gone);
  }
}
