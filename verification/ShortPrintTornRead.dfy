/**
 The wake-up that can get lost.  shortp_out_space reads the tail twice; when the tail wraps
 between the two reads the result is negative, and a writer may sleep on it although the
 ring is about to run empty.  This run, on a page of four bytes, ends in a state where nothing
 but a signal ever changes anything again.
 */
module ShortPrintTornRead {
  import opened Options
  import opened Ring
  import opened ShortPrint
  import opened ShortPrintSafety
  import opened ShortPrintRuns

  const DATA: seq<byte> := [1, 2, 3, 4, 5]
  const EMPTY_PAGE: seq<byte> := [0, 0, 0, 0]

  predicate Resting(s: State) {
    s.lock.Free? && s.work.WorkIdle? && s.timeout.TimeoutIdle? && !s.irqQueueing
  }

  lemma Works(s: State, next: WorkPc) returns (t: State)
    requires Reachable(s) && Enabled(s, WorkDoes) && (Indexed(s) ==> WorkStep(s).work == next)
    ensures Indexed(s) && Reachable(t) && t == WorkStep(s)
  {
    ReachableWork(s);
    t := WorkStep(s);
  }

  lemma Writes(s: State, e: WriterEvent) returns (t: State)
    requires Reachable(s) && WriterCan(s, e)
    ensures WellFormed(s) && Reachable(t) && t == WriterStep(s, e)
  {
    ReachableStep(s, WriterDoes(e));
    t := WriterStep(s, e);
  }

  lemma InterruptArrives(s: State) returns (t: State)
    requires Reachable(s) && s.active && !s.irqQueueing
    ensures Reachable(t) && t == s.(queued := true)
  {
    ReachableStep(s, Interrupt);
    t := s.(irqQueueing := true);
    ReachableStep(t, InterruptQueues);
    t := s.(queued := true);
  }

  // The printer interrupts and the work item sends one byte.
  lemma PrintOne(s: State) returns (t: State)
    requires Reachable(s) && Resting(s) && s.active && s.head != s.tail
    ensures Indexed(s) && Reachable(t)
    ensures var tail := Advance(|s.page|, s.tail, 1);
            t == s.(strobed := s.strobed + [s.page[s.tail]], tail := tail, armed := true, queued := false,
                    writer := if ManyFree(|s.page|, s.head, tail) then Woken(s.writer) else s.writer)
  {
    t := InterruptArrives(s);
    t := WorkItemRuns(t);
  }

  // A queued work item runs undisturbed and sends one byte.
  lemma WorkItemRuns(s: State) returns (t: State)
    requires Reachable(s) && s.lock.Free? && s.work.WorkIdle? && s.queued && s.head != s.tail
    ensures Indexed(s) && Reachable(t)
    ensures var tail := Advance(|s.page|, s.tail, 1);
            t == s.(strobed := s.strobed + [s.page[s.tail]], tail := tail, armed := true, queued := false,
                    writer := if ManyFree(|s.page|, s.head, tail) then Woken(s.writer) else s.writer)
  {
    t := WorkBegins(s);
    t := Works(t, ModTimer);
    t := Works(t, Strobe);
    t := Works(t, WakeWriters);
    t := WorkEnds(t);
  }

  lemma WorkBegins(s: State) returns (t: State)
    requires Reachable(s) && s.lock.Free? && s.work.WorkIdle? && s.queued
    ensures Indexed(s) && Reachable(t) && t == s.(queued := false, lock := HeldByWork, work := TestEmpty)
  {
    t := Works(s, WaitReady);
    t := Works(t, TestEmpty);
  }

  lemma WorkEnds(s: State) returns (t: State)
    requires Reachable(s) && s.work.WakeWriters?
    ensures Indexed(s) && Reachable(t)
    ensures t == s.(lock := Free, work := WorkIdle,
                    writer := if ManyFree(|s.page|, s.head, s.tail) then Woken(s.writer) else s.writer)
  {
    t := Works(s, UnlockWork);
    t := Works(t, WorkIdle);
  }

  // A queued work item runs undisturbed on an empty ring.
  lemma WorkItemStops(s: State) returns (t: State)
    requires Reachable(s) && s.lock.Free? && s.work.WorkIdle? && s.queued && s.head == s.tail
    ensures Reachable(t) && t == s.(active := false, armed := false, queued := false)
  {
    t := WorkBegins(s);
    RemainderIsFreeSpace(|s.page|, s.head, s.tail);
    t := Works(t, ClearActive);
    t := Works(t, DelTimer);
    t := Works(t, WakeWriters);
    t := WorkEnds(t);
  }

  // One undisturbed pass of the write loop that finds space: the test, the copy and the move of
  // the head, then the "start if inactive" section.
  lemma FindSpace(s: State) returns (t: State)
    requires Reachable(s) && WriterAt(s, AtLoop) && s.writer.value.written < |s.writer.value.data|
    requires OutSpace(|s.page|, s.head, s.tail) > 0
    ensures Reachable(t)
    ensures t == s.(writer := Some(s.writer.value.(pc := CopyIn(OutSpace(|s.page|, s.head, s.tail)))))
  {
    t := Writes(s, Loop);
    t := Writes(t, FirstRead);
    t := Writes(t, SecondRead(false));
  }

  lemma CopyChunk(s: State, chunk: nat) returns (t: State)
    requires Reachable(s) && s.writer.Some? && s.writer.value.pc.CopyIn?
    requires chunk == Chunk(s.writer.value, s.writer.value.pc.space)
    ensures Indexed(s) && Reachable(t)
    ensures var w := s.writer.value;
            && w.written + chunk <= |w.data| && s.head + chunk <= |s.page|
            && t == s.(page := Fill(s.page, s.head, w.data[w.written..w.written + chunk]),
                       writer := Some(w.(pc := MoveHead(chunk))))
  {
    ReachableHasInv(s);
    t := Writes(s, Copy(true));
  }

  lemma FillSpace(s: State, chunk: nat) returns (t: State)
    requires Reachable(s) && s.writer.Some? && s.writer.value.pc.CopyIn?
    requires chunk == Chunk(s.writer.value, s.writer.value.pc.space)
    ensures Indexed(s) && Reachable(t)
    ensures var w := s.writer.value;
            && w.written + chunk <= |w.data| && s.head + chunk <= |s.page|
            && t == s.(page := Fill(s.page, s.head, w.data[w.written..w.written + chunk]),
                       head := Advance(|s.page|, s.head, chunk),
                       writer := Some(w.(written := w.written + chunk, pc := LockToStart)))
  {
    hide WellFormed;
    t := CopyChunk(s, chunk);
    t := Writes(t, Publish);
  }

  lemma StartOutput(s: State) returns (t: State)
    requires Reachable(s) && s.lock.Free? && WriterAt(s, LockToStart) && !s.active
    ensures Reachable(t)
    ensures t == s.(writer := Some(s.writer.value.(pc := AtLoop)), active := true, armed := true, queued := true)
  {
    t := Writes(s, TakeLock);
    t := Writes(t, Test);
    t := Activates(t);
    t := Writes(t, DropLock);
  }

  lemma Activates(s: State) returns (t: State)
    requires Reachable(s) && WriterAt(s, SetActive)
    ensures Reachable(t)
    ensures t == s.(writer := Some(s.writer.value.(pc := UnlockStart)), active := true, armed := true, queued := true)
  {
    t := Writes(s, Activate);
    t := Writes(t, StartTimer);
    t := Writes(t, Queue);
  }

  lemma AlreadyStarted(s: State) returns (t: State)
    requires Reachable(s) && s.lock.Free? && WriterAt(s, LockToStart) && s.active
    ensures Reachable(t) && t == s.(writer := Some(s.writer.value.(pc := AtLoop)))
  {
    t := Writes(s, TakeLock);
    t := Writes(t, Test);
    t := Writes(t, DropLock);
  }

  function Sending(written: nat, pc: WriterPc): Option<Writer> {
    Some(Writer(DATA, written, pc, false))
  }

  // Three bytes are in the ring and output has started.
  function ThreeSent(): State {
    State([1, 2, 3, 0], 3, 0, true, true, true, Free, Sending(3, AtLoop), WorkIdle, TimeoutIdle, false, [], [])
  }

  // The ring is full: head 0, tail 1, and the writer has one byte left.
  function FullState(): State {
    State([1, 2, 3, 4], 0, 1, true, true, false, Free, Sending(4, AtLoop), WorkIdle, TimeoutIdle, false, [1], [])
  }

  lemma ReachesThreeSent()
    ensures Reachable(ThreeSent())
  {
    var s := State(EMPTY_PAGE, 0, 0, false, false, false, Free, None, WorkIdle, TimeoutIdle, false, [], []);
    assert Init(s) && Run(s, [], s);
    s := Writes(s, Down(DATA));
    s := FindSpace(s);
    s := FillSpace(s, 3);
    assert s.page == [1, 2, 3, 0];
    s := StartOutput(s);
  }

  lemma ReachesFull()
    ensures Reachable(FullState())
  {
    ReachesThreeSent();
    var s := PrintOne(ThreeSent());
    s := FindSpace(s);
    s := FillSpace(s, 1);
    assert DATA[3..4] == [4];
    assert s.page == [1, 2, 3, 4];
    s := AlreadyStarted(s);
    assert s == FullState();
  }

  // The writer has found the ring full, and tests again from inside the wait queue: its
  // first read of the tail gives 3, and before the second the tail wraps to 0.
  lemma ReachesTornTest() returns (s: State)
    ensures Reachable(s)
    ensures s == FullState().(tail := 0, strobed := s.strobed, writer := Sending(4, ReadTailAgain(true, 3)))
  {
    ReachesFull();
    s := Writes(FullState(), Loop);
    s := Writes(s, FirstRead);
    s := Writes(s, SecondRead(false));
    s := PrintOne(s);
    s := PrintOne(s);
    s := Writes(s, PrepareToWait);
    s := Writes(s, FirstRead);
    s := PrintOne(s);
  }

  // Every event that can happen, other than a signal, leaves the state as it is.
  ghost predicate HungUntilSignal(s: State) {
    WellFormed(s) && forall e: Event :: Enabled(s, e) && e != WriterDoes(Resume(true)) ==> Step(s, e) == s
  }

  lemma Hangs(s: State)
    requires WellFormed(s) && Resting(s) && SleepsUnwoken(s) && !s.active && !s.armed && !s.queued
    ensures HungUntilSignal(s)
  {
  }

  lemma TornReadLosesWakeup() returns (s: State)
    ensures Reachable(s) && SleepsUnwoken(s) && s.head == s.tail && !s.active
    ensures s.writer.value.written < |s.writer.value.data|
    ensures HungUntilSignal(s)
  {
    s := ReachesTornTest();
    s := Writes(s, SecondRead(false));
    s := InterruptArrives(s);
    s := WorkItemStops(s);
    ReachableHasInv(s);
    Hangs(s);
  }
}
