/** Every step of the output engine keeps its invariant. */
module ShortPrintSafety {
  import opened Options
  import opened Ring
  import opened ShortPrint

  // ---- shortp_out_space ----

  // With the tail standing still, the result is exactly the free space that is contiguous.
  lemma OutSpaceIsContiguousFreeSpace(size: nat, head: nat, tail: nat)
    requires head < size && tail < size
    ensures var free := size - 1 - Occupancy(size, head, tail);
            OutSpace(size, head, tail) == if free < size - head then free else size - head
  {
  }

  // The tail may move between the reads.  Whatever comes out is still safe to fill; it is
  // negative exactly when the tail wrapped in between, and zero only if the ring is full.
  lemma TornSpaceIsSafe(size: nat, head: nat, seen: nat, tail: nat)
    requires head < size && seen < size && tail < size
    requires Occupancy(size, head, tail) <= Occupancy(size, head, seen)
    ensures var space := SpaceFrom(size, head, seen, tail);
            && (space > 0 ==> head + space <= size && Occupancy(size, head, tail) + space <= size - 1)
            && (space == 0 ==> Occupancy(size, head, tail) == size - 1)
            && (space < 0 <==> tail <= head < seen)
  {
  }

  lemma ManyFreeMeans(size: nat, head: nat, tail: nat)
    requires head < size && tail < size && size % 2 == 0
    ensures ManyFree(size, head, tail) <==> head != tail && 2 * Occupancy(size, head, tail) < size
  {
    RemainderIsFreeSpace(size, head, tail);
  }

  // ---- every step keeps the invariant ----

  // Strobing one byte out leaves the writer's view of the free space valid.
  lemma ConsumingKeepsWriterOk(page: seq<byte>, head: nat, tail: nat, w: Writer)
    requires head < |page| && tail < |page| && head != tail
    requires WriterOk(page, head, tail, w)
    ensures WriterOk(page, head, Advance(|page|, tail, 1), w)
  {
    AdvanceTailRemoves(page, head, tail, 1);
  }

  lemma SpaceTestKeepsWriterOk(s: State, signal: bool)
    requires WellFormed(s) && WriterCan(s, SecondRead(signal))
    ensures WellFormed(WriterStep(s, SecondRead(signal)))
  {
    var w := s.writer.value;
    TornSpaceIsSafe(|s.page|, s.head, w.pc.seen, s.tail);
  }

  lemma CopyKeepsWriterOk(s: State, ok: bool)
    requires WellFormed(s) && WriterCan(s, Copy(ok))
    ensures WellFormed(WriterStep(s, Copy(ok)))
  {
  }

  lemma PublishKeepsWriterOk(s: State)
    requires WellFormed(s) && WriterCan(s, Publish)
    ensures WellFormed(WriterStep(s, Publish))
  {
    AdvanceHeadAppends(s.page, s.head, s.tail, s.writer.value.pc.chunk);
  }

  predicate MovesData(e: WriterEvent) {
    e.SecondRead? || e.Copy? || e.Publish?
  }

  lemma WriterKeepsWellFormed(s: State, e: WriterEvent)
    requires WellFormed(s) && WriterCan(s, e) && !MovesData(e)
    ensures WellFormed(WriterStep(s, e))
  {
  }

  lemma StrobeKeepsWellFormed(s: State)
    requires WellFormed(s) && s.work.Strobe?
    ensures WellFormed(WorkStep(s))
  {
    if s.writer.Some? {
      ConsumingKeepsWriterOk(s.page, s.head, s.tail, s.writer.value);
    }
  }

  lemma WakingKeepsWellFormed(s: State)
    requires WellFormed(s) && s.work.WakeWriters?
    ensures WellFormed(WorkStep(s))
  {
    if s.writer.Some? {
      var w := s.writer.value.(woken := true);
      assert WriterOk(s.page, s.head, s.tail, w);
    }
  }

  lemma WorkKeepsWellFormed(s: State)
    requires WellFormed(s) && Enabled(s, WorkDoes) && !s.work.Strobe? && !s.work.WakeWriters?
    ensures WellFormed(WorkStep(s))
  {
  }

  lemma OthersKeepWellFormed(s: State, e: Event)
    requires WellFormed(s) && Enabled(s, e) && !e.WriterDoes? && !e.WorkDoes?
    ensures WellFormed(Step(s, e)) && SameStream(s, Step(s, e)) && Step(s, e).work == s.work
  {
  }

  lemma WriterKeepsLock(s: State, e: WriterEvent)
    requires WellFormed(s) && LockOk(s) && WriterCan(s, e)
    ensures LockOk(WriterStep(s, e))
  {
  }

  lemma WriterForgetsNothing(s: State, e: WriterEvent)
    requires WellFormed(s) && LockOk(s) && NotForgotten(s) && WriterCan(s, e)
    ensures NotForgotten(WriterStep(s, e))
  {
    hide WellFormed;
  }

  lemma WorkKeepsLock(s: State)
    requires WellFormed(s) && LockOk(s) && Enabled(s, WorkDoes)
    ensures LockOk(WorkStep(s))
  {
  }

  lemma WorkForgetsNothing(s: State)
    requires WellFormed(s) && LockOk(s) && NotForgotten(s) && Enabled(s, WorkDoes)
    ensures NotForgotten(WorkStep(s))
  {
  }

  lemma OthersKeepLocks(s: State, e: Event)
    requires WellFormed(s) && LockOk(s) && Enabled(s, e) && !e.WriterDoes? && !e.WorkDoes?
    ensures LockOk(Step(s, e))
  {
    hide WellFormed;
  }

  lemma OthersForgetNothing(s: State, e: Event)
    requires WellFormed(s) && LockOk(s) && NotForgotten(s) && Enabled(s, e) && !e.WriterDoes? && !e.WorkDoes?
    ensures NotForgotten(Step(s, e))
  {
    hide WellFormed;
  }

  lemma WriterKeepsPushed(s: State, e: WriterEvent)
    requires WellFormed(s) && LockOk(s) && NotForgotten(s) && Pushed(s) && WriterCan(s, e)
    ensures Pushed(WriterStep(s, e))
  {
  }

  lemma WorkKeepsPushed(s: State)
    requires WellFormed(s) && LockOk(s) && NotForgotten(s) && Pushed(s) && Enabled(s, WorkDoes)
    ensures Pushed(WorkStep(s))
  {
  }

  lemma OthersKeepPushed(s: State, e: Event)
    requires WellFormed(s) && LockOk(s) && NotForgotten(s) && Pushed(s) && Enabled(s, e)
    requires !e.WriterDoes? && !e.WorkDoes?
    ensures Pushed(Step(s, e))
  {
  }

  // ---- the stream ----

  lemma FlattenSnoc(calls: seq<Call>, last: Call)
    ensures Flatten(calls + [last]) == Flatten(calls) + last.bytes
  {
    assert (calls + [last])[..|calls|] == calls;
  }

  lemma AppendBoth<T>(a: seq<T>, b: seq<T>, c: seq<T>, d: seq<T>, x: seq<T>)
    requires a + b == c + d
    ensures a + (b + x) == c + (d + x)
  {
    assert a + (b + x) == (a + b) + x;
    assert c + (d + x) == (c + d) + x;
  }

  lemma CopyKeepsStream(s: State, ok: bool)
    requires WellFormed(s) && StreamOk(s) && WriterCan(s, Copy(ok)) && WellFormed(WriterStep(s, Copy(ok)))
    ensures StreamOk(WriterStep(s, Copy(ok)))
  {
    if ok {
      var w := s.writer.value;
      var chunk := Chunk(w, w.pc.space);
      FillKeepsContents(s.page, s.head, s.tail, w.data[w.written..w.written + chunk]);
    }
  }

  lemma PublishKeepsStream(s: State)
    requires WellFormed(s) && StreamOk(s) && WriterCan(s, Publish) && WellFormed(WriterStep(s, Publish))
    ensures StreamOk(WriterStep(s, Publish))
  {
    var w, t := s.writer.value, WriterStep(s, Publish);
    assert Indexed(s) && w.written + w.pc.chunk <= |w.data| && s.head + w.pc.chunk <= |s.page|;
    assert Occupancy(|s.page|, s.head, s.tail) + w.pc.chunk < |s.page|;
    hide WellFormed;
    var chunk := w.data[w.written..w.written + w.pc.chunk];
    AdvanceHeadAppends(s.page, s.head, s.tail, w.pc.chunk);
    assert w.data[..w.written + w.pc.chunk] == w.data[..w.written] + chunk;
    AppendBoth(s.strobed, Stored(s), Flatten(s.calls), Taken(s.writer), chunk);
  }

  lemma UpKeepsStream(s: State)
    requires WellFormed(s) && StreamOk(s) && WriterCan(s, Up) && WellFormed(WriterStep(s, Up))
    ensures StreamOk(WriterStep(s, Up))
  {
    var w := s.writer.value;
    FlattenSnoc(s.calls, Call(w.data[..w.written], w.pc.fault));
    assert Accepted(WriterStep(s, Up)) == Accepted(s);
  }

  lemma WriterKeepsStream(s: State, e: WriterEvent)
    requires WellFormed(s) && StreamOk(s) && WriterCan(s, e) && WellFormed(WriterStep(s, e))
    requires !e.Copy? && !e.Publish? && !e.Up?
    ensures StreamOk(WriterStep(s, e))
  {
    assert Taken(WriterStep(s, e).writer) == Taken(s.writer);
  }

  lemma StrobeKeepsStream(s: State)
    requires WellFormed(s) && StreamOk(s) && s.work.Strobe? && WellFormed(WorkStep(s))
    ensures StreamOk(WorkStep(s))
  {
    var t := WorkStep(s);
    assert Indexed(s) && s.head != s.tail;
    hide WellFormed;
    AdvanceTailRemoves(s.page, s.head, s.tail, 1);
    assert s.page[s.tail..s.tail + 1] == [s.page[s.tail]];
    assert s.strobed + ([s.page[s.tail]] + Stored(t)) == t.strobed + Stored(t);
  }

  lemma WorkKeepsStream(s: State)
    requires WellFormed(s) && StreamOk(s) && Enabled(s, WorkDoes) && WellFormed(WorkStep(s)) && !s.work.Strobe?
    ensures StreamOk(WorkStep(s))
  {
    assert Taken(WorkStep(s).writer) == Taken(s.writer);
  }

  // ---- the half page ----

  lemma WriterKeepsHalfFull(s: State, e: WriterEvent)
    requires WellFormed(s) && HalfFull(s) && WriterCan(s, e) && WellFormed(WriterStep(s, e))
    ensures HalfFull(WriterStep(s, e))
  {
    if e.SecondRead? {
      TornSpaceIsSafe(|s.page|, s.head, s.writer.value.pc.seen, s.tail);
    }
  }

  lemma StrobeKeepsHalfFull(s: State)
    requires WellFormed(s) && HalfFull(s) && s.work.Strobe? && WellFormed(WorkStep(s))
    ensures HalfFull(WorkStep(s))
  {
    AdvanceTailRemoves(s.page, s.head, s.tail, 1);
  }

  lemma WorkKeepsHalfFull(s: State)
    requires WellFormed(s) && HalfFull(s) && Enabled(s, WorkDoes) && WellFormed(WorkStep(s)) && !s.work.Strobe?
    ensures HalfFull(WorkStep(s))
  {
    ManyFreeMeans(|s.page|, s.head, s.tail);
  }

  // ---- every step, then every run ----

  lemma WriterKeepsInv(s: State, e: WriterEvent)
    requires Inv(s) && WriterCan(s, e)
    ensures Inv(WriterStep(s, e))
  {
    hide WriterOk, LockOk, NotForgotten, Pushed, StreamOk, HalfFull, WriterStep;
    match e {
      case SecondRead(signal) => SpaceTestKeepsWriterOk(s, signal);
      case Copy(ok) => CopyKeepsWriterOk(s, ok); CopyKeepsStream(s, ok);
      case Publish => PublishKeepsWriterOk(s); PublishKeepsStream(s);
      case Up => WriterKeepsWellFormed(s, e); UpKeepsStream(s);
      case _ => WriterKeepsWellFormed(s, e);
    }
    if !e.Copy? && !e.Publish? && !e.Up? {
      WriterKeepsStream(s, e);
    }
    WriterKeepsLock(s, e);
    WriterForgetsNothing(s, e);
    WriterKeepsPushed(s, e);
    WriterKeepsHalfFull(s, e);
  }

  lemma WorkKeepsInv(s: State)
    requires Inv(s) && Enabled(s, WorkDoes)
    ensures Inv(WorkStep(s))
  {
    if s.work.Strobe? {
      StrobeKeepsWellFormed(s);
      StrobeKeepsStream(s);
      StrobeKeepsHalfFull(s);
    } else {
      if s.work.WakeWriters? { WakingKeepsWellFormed(s); } else { WorkKeepsWellFormed(s); }
      WorkKeepsStream(s);
      WorkKeepsHalfFull(s);
    }
    WorkKeepsLock(s);
    WorkForgetsNothing(s);
    WorkKeepsPushed(s);
  }

  lemma StepKeepsInv(s: State, e: Event)
    requires Inv(s) && Enabled(s, e)
    ensures Inv(Step(s, e))
  {
    if e.WriterDoes? {
      WriterKeepsInv(s, e.w);
    } else if e.WorkDoes? {
      WorkKeepsInv(s);
    } else {
      OthersKeepWellFormed(s, e);
      OthersKeepLocks(s, e);
      OthersForgetNothing(s, e);
      OthersKeepPushed(s, e);
    }
  }

  lemma InitHasInv(s: State)
    requires Init(s)
    ensures Inv(s)
  {
  }
}
