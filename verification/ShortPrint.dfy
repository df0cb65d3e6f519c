/**
 The output engine of the printer driver as a step machine.  One event is one access to a
 shared variable (or one action under the spinlock), so a run is any interleaving of the
 writer that holds the semaphore, the work item, the timeout handler and the printer's
 interrupt handler.  The semaphore, the spinlock, the single-threaded workqueue and
 the rule that a timer's handler does not overlap with itself are taken from the kernel.
 */
module ShortPrint {
  import opened Options
  import opened Ring

  // shortp_write.  "queued" tells the space test made from inside the wait queue from the first one.
  datatype WriterPc =
    | AtLoop
    | ReadTail(queued: bool)
    | ReadTailAgain(queued: bool, seen: nat)
    | Enqueue
    | Asleep(found: int)
    | CopyIn(space: nat)
    | MoveHead(chunk: nat)
    | LockToStart
    | TestActive
    | SetActive
    | AddTimer
    | QueueWork
    | UnlockStart
    | Return(fault: bool)

  // shortp_do_work
  datatype WorkPc =
    | WorkIdle | WaitReady | TestEmpty | ClearActive | DelTimer | ModTimer | Strobe | WakeWriters | UnlockWork

  // shortp_timeout, then its call of shortp_interrupt
  datatype TimeoutPc =
    | TimeoutIdle | Entered | LockTimeout | ReadStatus | UnlockTimeout(missed: bool) | Interrupting | Queueing

  datatype Lock = Free | HeldByWriter | HeldByWork | HeldByTimeout

  // The call in progress: data is the user's buffer, written the count of bytes taken so far.
  datatype Writer = Writer(data: seq<byte>, written: nat, pc: WriterPc, woken: bool)

  // A call that has returned: the bytes it put into the stream, and whether it returned -EFAULT.
  datatype Call = Call(bytes: seq<byte>, fault: bool)

  datatype State = State(
    page: seq<byte>,          // shortp_out_buffer
    head: nat,                // shortp_out_head, as an offset
    tail: nat,                // shortp_out_tail, as an offset
    active: bool,             // shortp_output_active
    armed: bool,              // shortp_timer is pending
    queued: bool,             // shortp_work is pending
    lock: Lock,               // shortp_out_lock
    writer: Option<Writer>,   // the holder of shortp_out_sem
    work: WorkPc,
    timeout: TimeoutPc,
    irqQueueing: bool,        // the interrupt handler has passed its test
    strobed: seq<byte>,       // everything sent to the printer
    calls: seq<Call>)         // finished writes, oldest first

  datatype WriterEvent =
    | Down(data: seq<byte>)
    | Loop
    | FirstRead
    | SecondRead(signal: bool)
    | PrepareToWait
    | Resume(signal: bool)
    | Copy(ok: bool)
    | Publish
    | TakeLock
    | Test
    | Activate
    | StartTimer
    | Queue
    | DropLock
    | Up

  datatype Event =
    | WriterDoes(w: WriterEvent) | WorkDoes | TimerFires | TimeoutDoes(stillBusy: bool) | Interrupt | InterruptQueues

  // ---- shortp_out_space ----

  // The two branches of shortp_out_space.  The comparison uses the tail seen first; what
  // follows reads the tail again.
  function SpaceFrom(size: nat, head: nat, seen: nat, tail: nat): int {
    if head >= seen then
      if tail == 0 then size - head - 1 else size - head
    else tail - head - 1
  }

  function OutSpace(size: nat, head: nat, tail: nat): int {
    SpaceFrom(size, head, tail, tail)
  }

  // The test that decides on waking writers.
  predicate ManyFree(size: nat, head: nat, tail: nat)
    requires head < size && tail < size
  {
    (size + tail - head) % size > size / 2
  }

  predicate Indexed(s: State) {
    s.head < |s.page| && s.tail < |s.page|
  }

  // ---- the steps ----

  predicate WriterCan(s: State, e: WriterEvent) {
    match e
    case Down(_) => s.writer.None?
    case _ =>
      s.writer.Some? &&
      var w := s.writer.value;
      match e
      case Loop => w.pc.AtLoop?
      case FirstRead => w.pc.ReadTail?
      case SecondRead(_) => w.pc.ReadTailAgain?
      case PrepareToWait => w.pc.Enqueue?
      case Resume(signal) => w.pc.Asleep? && (w.woken || signal)
      case Copy(_) => w.pc.CopyIn?
      case Publish => w.pc.MoveHead?
      case TakeLock => w.pc.LockToStart? && s.lock.Free?
      case Test => w.pc.TestActive?
      case Activate => w.pc.SetActive?
      case StartTimer => w.pc.AddTimer?
      case Queue => w.pc.QueueWork?
      case DropLock => w.pc.UnlockStart?
      case Up => w.pc.Return?
  }

  predicate Enabled(s: State, e: Event) {
    match e
    case WriterDoes(w) => WriterCan(s, w)
    case WorkDoes =>
      (s.work.WorkIdle? ==> s.queued) && (s.work.WaitReady? ==> s.lock.Free?)
    case TimerFires => s.armed && s.timeout.TimeoutIdle?
    case TimeoutDoes(_) => !s.timeout.TimeoutIdle? && (s.timeout.LockTimeout? ==> s.lock.Free?)
    case Interrupt => !s.irqQueueing
    case InterruptQueues => s.irqQueueing
  }

  // What the space test decides: go on, sleep, or (from inside the wait queue) give up on a signal.
  function AfterSpaceTest(queued: bool, space: int, signal: bool): WriterPc {
    if space > 0 then CopyIn(space)
    else if !queued then Enqueue
    else if signal then Return(false)
    else Asleep(space)
  }

  // The chunk that one pass of the write loop moves.
  function Chunk(w: Writer, space: nat): (chunk: int) {
    if space + w.written > |w.data| then |w.data| - w.written else space
  }

  // The producer never touches the tail, nor the other handlers' progress.
  function WriterStep(s: State, e: WriterEvent): (t: State)
    requires WellFormed(s) && WriterCan(s, e)
    ensures t.tail == s.tail && t.strobed == s.strobed
    ensures t.work == s.work && t.timeout == s.timeout && t.irqQueueing == s.irqQueueing
    ensures e.Copy? || t.page == s.page
    ensures e.Publish? || t.head == s.head
  {
    if e.Down? then s.(writer := Some(Writer(e.data, 0, AtLoop, false)))
    else
      var w := s.writer.value;
      match e
      case Down(_) => s
      case Loop => s.(writer := Some(w.(pc := if w.written < |w.data| then ReadTail(false) else Return(false))))
      case FirstRead => s.(writer := Some(w.(pc := ReadTailAgain(w.pc.queued, s.tail))))
      case SecondRead(signal) =>
        var space := SpaceFrom(|s.page|, s.head, w.pc.seen, s.tail);
        s.(writer := Some(w.(pc := AfterSpaceTest(w.pc.queued, space, signal))))
      case PrepareToWait => s.(writer := Some(w.(pc := ReadTail(true), woken := false)))
      case Resume(_) => s.(writer := Some(w.(pc := Enqueue)))
      case Copy(ok) =>
        if ok then
          var chunk := Chunk(w, w.pc.space);
          s.(page := Fill(s.page, s.head, w.data[w.written..w.written + chunk]),
             writer := Some(w.(pc := MoveHead(chunk))))
        else s.(writer := Some(w.(pc := Return(true))))
      case Publish =>
        s.(head := Advance(|s.page|, s.head, w.pc.chunk),
           writer := Some(w.(pc := LockToStart, written := w.written + w.pc.chunk)))
      case TakeLock => s.(lock := HeldByWriter, writer := Some(w.(pc := TestActive)))
      case Test => s.(writer := Some(w.(pc := if s.active then UnlockStart else SetActive)))
      case Activate => s.(active := true, writer := Some(w.(pc := AddTimer)))
      case StartTimer => s.(armed := true, writer := Some(w.(pc := QueueWork)))
      case Queue => s.(queued := true, writer := Some(w.(pc := UnlockStart)))
      case DropLock => s.(lock := Free, writer := Some(w.(pc := AtLoop)))
      case Up => s.(calls := s.calls + [Call(w.data[..w.written], w.pc.fault)], writer := None)
  }

  // Nothing that carries data differs.
  predicate SameStream(s: State, t: State) {
    && t.page == s.page && t.head == s.head && t.tail == s.tail
    && t.strobed == s.strobed && t.calls == s.calls && t.writer == s.writer
  }

  function Woken(writer: Option<Writer>): Option<Writer> {
    match writer
    case None => None
    case Some(w) => Some(w.(woken := true))
  }

  // The consumer never touches the page or the head, and moves the tail in one place only.
  function WorkStep(s: State): (t: State)
    requires Indexed(s)
    ensures t.page == s.page && t.head == s.head && t.calls == s.calls
    ensures t.timeout == s.timeout && t.irqQueueing == s.irqQueueing
    ensures s.work.Strobe? || (t.tail == s.tail && t.strobed == s.strobed)
    ensures s.work.WakeWriters? || t.writer == s.writer
  {
    match s.work
    case WorkIdle => s.(queued := false, work := WaitReady)
    case WaitReady => s.(lock := HeldByWork, work := TestEmpty)
    case TestEmpty => s.(work := if s.head == s.tail then ClearActive else ModTimer)
    case ClearActive => s.(active := false, work := DelTimer)
    case DelTimer => s.(armed := false, work := WakeWriters)
    case ModTimer => s.(armed := true, work := Strobe)
    case Strobe =>
      s.(strobed := s.strobed + [s.page[s.tail]], tail := Advance(|s.page|, s.tail, 1), work := WakeWriters)
    case WakeWriters =>
      s.(writer := if ManyFree(|s.page|, s.head, s.tail) then Woken(s.writer) else s.writer, work := UnlockWork)
    case UnlockWork => s.(lock := Free, work := WorkIdle)
  }

  // stillBusy: what the status register says at line 390.
  function TimeoutStep(s: State, stillBusy: bool): (t: State)
    ensures SameStream(s, t) && t.work == s.work
  {
    match s.timeout
    case TimeoutIdle => s
    case Entered => s.(timeout := if s.active then LockTimeout else TimeoutIdle)
    case LockTimeout => s.(lock := HeldByTimeout, timeout := ReadStatus)
    case ReadStatus => s.(armed := s.armed || stillBusy, timeout := UnlockTimeout(!stillBusy))
    case UnlockTimeout(missed) => s.(lock := Free, timeout := if missed then Interrupting else TimeoutIdle)
    case Interrupting => s.(timeout := if s.active then Queueing else TimeoutIdle)
    case Queueing => s.(queued := true, timeout := TimeoutIdle)
  }

  function Step(s: State, e: Event): State
    requires WellFormed(s) && Enabled(s, e)
  {
    match e
    case WriterDoes(w) => WriterStep(s, w)
    case WorkDoes => WorkStep(s)
    case TimerFires => s.(armed := false, timeout := Entered)
    case TimeoutDoes(stillBusy) => TimeoutStep(s, stillBusy)
    case Interrupt => s.(irqQueueing := s.active)
    case InterruptQueues => s.(queued := true, irqQueueing := false)
  }

  ghost predicate Init(s: State) {
    && |s.page| >= 4 && |s.page| % 2 == 0
    && s == State(s.page, 0, 0, false, false, false, Free, None, WorkIdle, TimeoutIdle, false, [], [])
  }

  // ---- the invariant ----

  function Used(s: State): int
    requires Indexed(s)
  {
    Occupancy(|s.page|, s.head, s.tail)
  }

  function Stored(s: State): seq<byte>
    requires Indexed(s)
  {
    Contents(s.page, s.head, s.tail)
  }

  // Facts that make every step well defined; among them, the space a writer holds is free to fill.
  predicate WellFormed(s: State) {
    && |s.page| >= 4 && |s.page| % 2 == 0
    && Indexed(s)
    && (s.work.ModTimer? || s.work.Strobe? ==> s.head != s.tail)
    && (s.writer.Some? ==> WriterOk(s.page, s.head, s.tail, s.writer.value))
  }

  predicate WriterOk(page: seq<byte>, head: nat, tail: nat, w: Writer)
    requires head < |page| && tail < |page|
  {
    && w.written <= |w.data|
    && (w.pc.ReadTail? || w.pc.ReadTailAgain? || w.pc.Enqueue? || w.pc.Asleep? || w.pc.CopyIn? ==> w.written < |w.data|)
    && match w.pc
       case ReadTailAgain(_, seen) =>
         seen < |page| && Occupancy(|page|, head, tail) <= Occupancy(|page|, head, seen)
       case Asleep(found) => found <= 0
       case CopyIn(space) => 0 < space && FreeFor(page, head, tail, space)
       case MoveHead(chunk) =>
         && 0 < chunk <= |w.data| - w.written
         && FreeFor(page, head, tail, chunk)
         && page[head..head + chunk] == w.data[w.written..w.written + chunk]
       case _ => true
  }

  // The cells that a producer may fill next, in one piece.
  predicate FreeFor(page: seq<byte>, head: nat, tail: nat, count: nat)
    requires head < |page| && tail < |page|
  {
    head + count <= |page| && Occupancy(|page|, head, tail) + count <= |page| - 1
  }

  predicate InStart(pc: WriterPc) {
    pc.TestActive? || pc.SetActive? || pc.AddTimer? || pc.QueueWork? || pc.UnlockStart?
  }

  predicate InLockedWork(pc: WorkPc) {
    !pc.WorkIdle? && !pc.WaitReady?
  }

  predicate LockOk(s: State) {
    && (s.lock.HeldByWriter? <==> s.writer.Some? && InStart(s.writer.value.pc))
    && (s.lock.HeldByWork? <==> InLockedWork(s.work))
    && (s.lock.HeldByTimeout? <==> s.timeout.ReadStatus? || s.timeout.UnlockTimeout?)
  }

  function Taken(writer: Option<Writer>): seq<byte>
    requires writer.Some? ==> writer.value.written <= |writer.value.data|
  {
    if writer.None? then [] else writer.value.data[..writer.value.written]
  }

  function Flatten(calls: seq<Call>): seq<byte> {
    if |calls| == 0 then [] else Flatten(calls[..|calls| - 1]) + calls[|calls| - 1].bytes
  }

  // Everything accepted so far: the finished calls in order, then the call in progress.
  function Accepted(s: State): seq<byte>
    requires s.writer.Some? ==> s.writer.value.written <= |s.writer.value.data|
  {
    Flatten(s.calls) + Taken(s.writer)
  }

  predicate StreamOk(s: State)
    requires WellFormed(s)
  {
    s.strobed + Stored(s) == Accepted(s)
  }

  predicate WriterAt(s: State, pc: WriterPc) {
    s.writer.Some? && s.writer.value.pc == pc
  }

  // The writer has moved the head and has not finished its "start if inactive" section.
  predicate AboutToStart(s: State) {
    WriterAt(s, LockToStart) || WriterAt(s, TestActive) || WriterAt(s, SetActive)
  }

  predicate NotForgotten(s: State) {
    && (s.head != s.tail ==> s.active || AboutToStart(s))
    && (s.work.ClearActive? && s.head != s.tail ==> WriterAt(s, LockToStart))
    && (WriterAt(s, SetActive) ==> !s.active)
    && (WriterAt(s, AddTimer) || WriterAt(s, QueueWork) ==> s.active)
  }

  predicate HasPusher(s: State) {
    s.armed || !s.timeout.TimeoutIdle? || s.queued || !s.work.WorkIdle?
  }

  predicate Pushed(s: State) {
    && (s.active ==> HasPusher(s) || WriterAt(s, AddTimer))
    && (s.work.DelTimer? ==> !s.active)
    && (s.timeout == UnlockTimeout(false) ==> s.armed)
    && (s.work.Strobe? || s.work.WakeWriters? || s.work.UnlockWork? ==>
          s.active ==> s.armed || !s.timeout.TimeoutIdle? || s.queued)
  }

  predicate SleepsUnwoken(s: State) {
    s.writer.Some? && s.writer.value.pc.Asleep? && !s.writer.value.woken
  }

  predicate HalfFull(s: State)
    requires WellFormed(s)
  {
    SleepsUnwoken(s) && s.writer.value.pc.found == 0 ==>
      2 * Used(s) >= |s.page| || (s.work.WakeWriters? && 2 * Used(s) == |s.page| - 2)
  }

  predicate Inv(s: State) {
    WellFormed(s) && LockOk(s) && StreamOk(s) && NotForgotten(s) && Pushed(s) && HalfFull(s)
  }
}
