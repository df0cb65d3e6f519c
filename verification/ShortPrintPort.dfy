/**
 The printer driver's routines, working on its global variables in place.  Each assignment
 to a shared variable is one step of the machine in module ShortPrint; between two of
 them any finite number of steps of the other threads may happen.
 */
module ShortPrintPort {
  import opened Options
  import opened Ring
  import opened ShortPrint
  import opened ShortPrintSafety
  import opened ShortPrintRuns

  // Why the write loop ended: a copy faulted, a signal arrived, or neither.
  datatype WriteEnd = Going | Fault | Signal

  datatype Thread = AWriter | TheWork | NoOne

  // A step that a given thread leaves to the others.
  predicate IsForeign(me: Thread, e: Event) {
    match me
    case AWriter => !e.WriterDoes?
    case TheWork => !e.WorkDoes?
    case NoOne => true
  }

  lemma WriterLeaves(s: State, w: WriterEvent)
    requires WellFormed(s) && WriterCan(s, w)
    ensures var t := WriterStep(s, w);
            s.calls <= t.calls && t.work == s.work && t.tail == s.tail && t.strobed == s.strobed
  {
    hide WellFormed;
  }

  // The byte that goes out next, and that there is one.
  predicate Next(s: State, b: byte) {
    Indexed(s) && s.head != s.tail && s.page[s.tail] == b
  }

  lemma WriterKeepsRing(s: State, w: WriterEvent)
    requires WellFormed(s) && WriterCan(s, w) && !w.Copy? && !w.Publish?
    ensures var t := WriterStep(s, w); t.page == s.page && t.head == s.head && t.tail == s.tail
  {
    hide WellFormed;
  }

  lemma DataSparesNext(s: State, w: WriterEvent, b: byte)
    requires WellFormed(s) && WriterCan(s, w) && (w.Copy? || w.Publish?) && Next(s, b)
    ensures Next(WriterStep(s, w), b)
  {
    if w.Publish? {
      AdvanceHeadAppends(s.page, s.head, s.tail, s.writer.value.pc.chunk);
    }
  }

  lemma WriterSparesNext(s: State, w: WriterEvent, b: byte)
    requires WellFormed(s) && WriterCan(s, w) && Next(s, b)
    ensures Next(WriterStep(s, w), b)
  {
    hide WellFormed, WriterStep;
    if w.Copy? || w.Publish? {
      DataSparesNext(s, w, b);
    } else {
      WriterKeepsRing(s, w);
    }
  }

  lemma WorkLeaves(s: State)
    requires WellFormed(s) && Enabled(s, WorkDoes)
    ensures WorkStep(s).calls == s.calls && SameCall(s.writer, WorkStep(s).writer)
  {
    hide WellFormed;
  }

  // What a thread can rely on while others take a step.
  lemma ForeignStep(s: State, e: Event, me: Thread, b: byte)
    requires WellFormed(s) && Enabled(s, e) && IsForeign(me, e)
    ensures var t := Step(s, e);
            && s.calls <= t.calls
            && (me.AWriter? ==> t.calls == s.calls && SameCall(s.writer, t.writer))
            && (me.TheWork? ==> t.work == s.work && t.tail == s.tail && t.strobed == s.strobed)
            && (me.TheWork? && Next(s, b) ==> Next(t, b))
  {
    hide WellFormed, WriterStep, WorkStep;
    match e {
      case WriterDoes(w) =>
        WriterLeaves(s, w);
        if Next(s, b) { WriterSparesNext(s, w, b); }
      case WorkDoes => WorkLeaves(s);
      case _ =>
    }
  }

  // How far the holder of the lock is from letting go.
  function LockRank(s: State): nat {
    match s.lock
    case Free => 0
    case HeldByWriter => 1 + WriterRank(s.writer)
    case HeldByTimeout => if s.timeout.ReadStatus? then 2 else 1
    case HeldByWork =>
      match s.work
      case TestEmpty => 6
      case ClearActive => 5
      case ModTimer => 5
      case DelTimer => 4
      case Strobe => 4
      case WakeWriters => 3
      case UnlockWork => 2
      case _ => 1
  }

  function HolderEvent(s: State): Event
    requires s.lock.HeldByWriter? ==> s.writer.Some?
  {
    match s.lock
    case HeldByWriter => WriterDoes(SectionEvent(s.writer.value.pc))
    case HeldByTimeout => TimeoutDoes(false)
    case _ => WorkDoes
  }

  lemma HolderGetsCloser(s: State)
    requires WellFormed(s) && LockOk(s) && !s.lock.Free?
    ensures Enabled(s, HolderEvent(s)) && LockRank(Step(s, HolderEvent(s))) < LockRank(s)
  {
    match s.lock {
      case HeldByWriter => WriterGetsCloser(s);
      case HeldByTimeout =>
      case HeldByWork => WorkGetsCloser(s);
    }
  }

  lemma WriterGetsCloser(s: State)
    requires WellFormed(s) && LockOk(s) && s.lock.HeldByWriter?
    ensures var e := SectionEvent(s.writer.value.pc);
            WriterCan(s, e) && LockRank(WriterStep(s, e)) < LockRank(s)
  {
  }

  lemma WorkGetsCloser(s: State)
    requires WellFormed(s) && LockOk(s) && s.lock.HeldByWork?
    ensures Enabled(s, WorkDoes) && LockRank(WorkStep(s)) < LockRank(s)
  {
  }

  class Port {
    const outBuffer: array<byte>
    var outHead: nat
    var outTail: nat
    var outputActive: bool
    var timerPending: bool
    var workPending: bool
    var outLock: Lock
    var outSem: Option<Writer>
    var work: WorkPc
    var timeout: TimeoutPc
    var irqQueueing: bool
    var strobed: seq<byte>
    var calls: seq<Call>

    function View(): State
      reads this, outBuffer
    {
      State(outBuffer[..], outHead, outTail, outputActive, timerPending, workPending, outLock,
            outSem, work, timeout, irqQueueing, strobed, calls)
    }

    ghost predicate Valid()
      reads this, outBuffer
    {
      Reachable(View())
    }

    // shortp_init, as far as output goes.
    constructor (pageSize: nat)
      requires pageSize >= 4 && pageSize % 2 == 0
      ensures Valid() && fresh(outBuffer) && outBuffer.Length == pageSize
      ensures outHead == outTail && !outputActive && outSem == None && strobed == [] && calls == []
    {
      outBuffer := new byte[pageSize];
      outHead, outTail := 0, 0;
      outputActive, timerPending, workPending := false, false, false;
      outLock, outSem := Free, None;
      work, timeout, irqQueueing := WorkIdle, TimeoutIdle, false;
      strobed, calls := [], [];
      new;
      assert Init(View()) && Run(View(), [], View());
    }

    // copy_from_user into the ring.
    method CopyFromUser(data: seq<byte>)
      requires outHead + |data| <= outBuffer.Length
      modifies outBuffer
      ensures outBuffer[..] == Fill(old(outBuffer[..]), outHead, data)
    {
      for i := 0 to |data|
        invariant forall k :: 0 <= k < outBuffer.Length ==>
          outBuffer[k] == if outHead <= k < outHead + i then data[k - outHead] else old(outBuffer[k])
      {
        outBuffer[outHead + i] := data[i];
      }
    }

    // shortp_incr_out_bp: for a step of less than a page the result is a place in the page again.
    static method IncrOutBp(size: nat, bp: nat, incr: nat) returns (next: nat)
      requires bp < size && bp + incr < 2 * size
      ensures next < size && next == (bp + incr) % size
    {
      SmallRemainder(size, bp + incr);
      next := bp + incr;
      if next >= size {
        next := next - size;
      }
    }

    // ---- the writer's accesses ----

    method WriterPrivately(e: WriterEvent)
      requires Valid() && WriterCan(View(), e)
      requires e.Down? || e.Loop? || e.FirstRead? || e.SecondRead? || e.PrepareToWait? || e.Resume? || e.Up?
      modifies this
      ensures old(WellFormed(View())) && View() == WriterStep(old(View()), e) && Valid()
    {
      ReachableStep(View(), WriterDoes(e));
      match e {
        case Down(data) => outSem := Some(Writer(data, 0, AtLoop, false));
        case Loop =>
          outSem := Some(outSem.value.(pc :=
            if outSem.value.written < |outSem.value.data| then ReadTail(false) else Return(false)));
        case FirstRead => outSem := Some(outSem.value.(pc := ReadTailAgain(outSem.value.pc.queued, outTail)));
        case SecondRead(signal) =>
          var space := SpaceFrom(outBuffer.Length, outHead, outSem.value.pc.seen, outTail);
          outSem := Some(outSem.value.(pc := AfterSpaceTest(outSem.value.pc.queued, space, signal)));
        case PrepareToWait => outSem := Some(outSem.value.(pc := ReadTail(true), woken := false));
        case Resume(_) => outSem := Some(outSem.value.(pc := Enqueue));
        case Up =>
          calls := calls + [Call(outSem.value.data[..outSem.value.written], outSem.value.pc.fault)];
          outSem := None;
      }
    }

    method WriterCopies(ok: bool)
      requires Valid() && WriterCan(View(), Copy(ok))
      modifies this`outSem, outBuffer
      ensures old(WellFormed(View())) && View() == WriterStep(old(View()), Copy(ok)) && Valid()
    {
      ReachableStep(View(), WriterDoes(Copy(ok)));
      var w := outSem.value;
      if ok {
        var chunk := Chunk(w, w.pc.space);
        CopyFromUser(w.data[w.written..w.written + chunk]);
        outSem := Some(w.(pc := MoveHead(chunk)));
      } else {
        outSem := Some(w.(pc := Return(true)));
      }
    }

    method WriterPublishes()
      requires Valid() && WriterCan(View(), Publish)
      modifies this`outHead, this`outSem
      ensures old(WellFormed(View())) && View() == WriterStep(old(View()), Publish) && Valid()
    {
      ReachableStep(View(), WriterDoes(Publish));
      var w := outSem.value;
      AdvanceIsRemainder(outBuffer.Length, outHead, w.pc.chunk);
      outHead := IncrOutBp(outBuffer.Length, outHead, w.pc.chunk);
      outSem := Some(w.(pc := LockToStart, written := w.written + w.pc.chunk));
    }

    method WriterStarts(e: WriterEvent)
      requires Valid() && WriterCan(View(), e)
      requires e.TakeLock? || e.Test? || e.Activate? || e.StartTimer? || e.Queue? || e.DropLock?
      modifies this
      ensures old(WellFormed(View())) && View() == WriterStep(old(View()), e) && Valid()
    {
      ReachableStep(View(), WriterDoes(e));
      var next := AtLoop;
      match e {
        case TakeLock => outLock, next := HeldByWriter, TestActive;
        case Test => next := if outputActive then UnlockStart else SetActive;
        case Activate => outputActive, next := true, AddTimer;
        case StartTimer => timerPending, next := true, QueueWork;
        case Queue => workPending, next := true, UnlockStart;
        case DropLock => outLock := Free;
      }
      outSem := Some(outSem.value.(pc := next));
    }

    // ---- shortp_do_work ----

    // The second half of shortp_do_write: the byte goes out.
    method StrobeByte()
      requires Valid() && work.Strobe?
      modifies this
      ensures old(Indexed(View())) && View() == WorkStep(old(View())) && Valid()
    {
      ReachableWork(View());
      AdvanceIsRemainder(outBuffer.Length, outTail, 1);
      strobed := strobed + [outBuffer[outTail]];
      outTail := IncrOutBp(outBuffer.Length, outTail, 1);
      work := WakeWriters;
    }

    // The work item has found the ring empty.
    method GoInactive()
      requires Valid() && (work.ClearActive? || work.DelTimer?)
      modifies this
      ensures old(Indexed(View())) && View() == WorkStep(old(View())) && Valid()
    {
      ReachableWork(View());
      if work.ClearActive? {
        outputActive, work := false, DelTimer;
      } else {
        timerPending, work := false, WakeWriters;
      }
    }

    // The wake test and the wake-up.
    method WakeSomebody()
      requires Valid() && work.WakeWriters?
      modifies this
      ensures old(Indexed(View())) && View() == WorkStep(old(View())) && Valid()
    {
      ReachableWork(View());
      if (outBuffer.Length + outTail - outHead) % outBuffer.Length > outBuffer.Length / 2 && outSem.Some? {
        outSem := Some(outSem.value.(woken := true));
      }
      work := UnlockWork;
    }

    method WorkMoves()
      requires Valid() && Enabled(View(), WorkDoes)
      requires work.WorkIdle? || work.WaitReady? || work.TestEmpty? || work.ModTimer? || work.UnlockWork?
      modifies this
      ensures old(Indexed(View())) && View() == WorkStep(old(View())) && Valid()
    {
      ReachableWork(View());
      match work {
        case WorkIdle => workPending, work := false, WaitReady;
        case WaitReady => outLock, work := HeldByWork, TestEmpty;
        case TestEmpty => work := if outHead == outTail then ClearActive else ModTimer;
        case ModTimer => timerPending, work := true, Strobe;
        case UnlockWork => outLock, work := Free, WorkIdle;
      }
    }

    method WorkDo()
      requires Valid() && Enabled(View(), WorkDoes)
      modifies this
      ensures old(Indexed(View())) && View() == WorkStep(old(View())) && Valid()
    {
      match work {
        case Strobe => StrobeByte();
        case ClearActive | DelTimer => GoInactive();
        case WakeWriters => WakeSomebody();
        case _ => WorkMoves();
      }
    }

    // ---- shortp_timeout and shortp_interrupt ----

    method TimeoutMoves(stillBusy: bool)
      requires Valid() && Enabled(View(), TimeoutDoes(stillBusy))
      modifies this
      ensures View() == TimeoutStep(old(View()), stillBusy) && Valid()
    {
      ReachableTimeout(View(), stillBusy);
      match timeout {
        case Entered => timeout := if outputActive then LockTimeout else TimeoutIdle;
        case LockTimeout => outLock, timeout := HeldByTimeout, ReadStatus;
        case ReadStatus =>
          if stillBusy { timerPending := true; }
          timeout := UnlockTimeout(!stillBusy);
        case UnlockTimeout(missed) => outLock, timeout := Free, if missed then Interrupting else TimeoutIdle;
        case Interrupting => timeout := if outputActive then Queueing else TimeoutIdle;
        case Queueing => workPending, timeout := true, TimeoutIdle;
      }
    }

    method InterruptMoves(e: Event)
      requires Valid() && Enabled(View(), e) && (e.TimerFires? || e.Interrupt? || e.InterruptQueues?)
      modifies this
      ensures old(WellFormed(View())) && View() == Step(old(View()), e) && Valid()
    {
      ReachableStep(View(), e);
      match e {
        case TimerFires => timerPending, timeout := false, Entered;
        case Interrupt => irqQueueing := outputActive;
        case InterruptQueues => workPending, irqQueueing := true, false;
      }
    }

    method Do(e: Event)
      requires Valid() && Enabled(View(), e)
      modifies this, outBuffer
      ensures old(WellFormed(View())) && View() == Step(old(View()), e) && Valid()
    {
      ReachableStep(View(), e);
      match e {
        case WriterDoes(w) =>
          match w {
            case Copy(ok) => WriterCopies(ok);
            case Publish => WriterPublishes();
            case TakeLock | Test | Activate | StartTimer | Queue | DropLock => WriterStarts(w);
            case _ => WriterPrivately(w);
          }
        case WorkDoes => WorkDo();
        case TimeoutDoes(stillBusy) => TimeoutMoves(stillBusy);
        case _ => InterruptMoves(e);
      }
    }

    // ---- whole routines, with the other threads running in between ----

    method OneOfTheOthers(me: Thread, ghost b: byte)
      requires Valid()
      modifies this, outBuffer
      ensures Valid() && old(calls) <= calls
      ensures me.AWriter? ==> calls == old(calls) && SameCall(old(outSem), outSem)
      ensures me.TheWork? ==> work == old(work) && outTail == old(outTail) && strobed == old(strobed)
      ensures me.TheWork? && old(Next(View(), b)) ==> Next(View(), b)
    {
      hide Step, Enabled, WellFormed, IsForeign;
      var e: Event := *;
      if Enabled(View(), e) && IsForeign(me, e) {
        Do(e);
        ForeignStep(old(View()), e, me, b);
      }
    }

    // Any finite number of steps of the others.
    method Others(me: Thread, ghost b: byte := 0)
      requires Valid()
      modifies this, outBuffer
      ensures Valid() && old(calls) <= calls
      ensures me.AWriter? ==> calls == old(calls) && SameCall(old(outSem), outSem)
      ensures me.TheWork? ==> work == old(work) && outTail == old(outTail) && strobed == old(strobed)
      ensures me.TheWork? && old(Next(View(), b)) ==> Next(View(), b)
    {
      var steps: nat := *;
      while steps > 0
        invariant Valid() && old(calls) <= calls
        invariant me.AWriter? ==> calls == old(calls) && SameCall(old(outSem), outSem)
        invariant me.TheWork? ==> work == old(work) && outTail == old(outTail) && strobed == old(strobed)
        invariant me.TheWork? && old(Next(View(), b)) ==> Next(View(), b)
      {
        OneOfTheOthers(me, b);
        steps := steps - 1;
      }
    }

    // This thread's call is in progress, at the given point.
    predicate InCall(data: seq<byte>, written: nat, pc: WriterPc)
      reads this
    {
      outSem.Some? && outSem.value.data == data && outSem.value.written == written && outSem.value.pc == pc
    }

    // shortp_out_space, with the others running between its two reads of the tail.  seen is the state at the second.
    method OutSpaceNow(data: seq<byte>, written: nat, queued: bool, signal: bool)
        returns (space: int, ghost seen: State)
      requires Valid() && InCall(data, written, ReadTail(queued))
      modifies this, outBuffer
      ensures Valid() && calls == old(calls) && (space <= 0 ==> NoSpaceSeen(seen))
      ensures InCall(data, written, AfterSpaceTest(queued, space, signal))
    {
      WriterPrivately(FirstRead);
      Others(AWriter);
      space := SpaceFrom(outBuffer.Length, outHead, outSem.value.pc.seen, outTail);
      seen := View();
      WriterPrivately(SecondRead(signal));
    }

    // wait_event_interruptible: sleep until there is space, or give up on a signal.
    method WaitForSpace(data: seq<byte>, written: nat) returns (space: int, ghost seen: State)
      requires Valid() && InCall(data, written, Enqueue)
      modifies this, outBuffer
      ensures Valid() && calls == old(calls) && (space <= 0 ==> NoSpaceSeen(seen))
      ensures InCall(data, written, if space > 0 then CopyIn(space) else Return(false))
    {
      var patience: nat := *;
      space, seen := 0, View();
      while space <= 0 && patience > 0
        invariant Valid() && calls == old(calls)
        invariant space <= 0 ==> InCall(data, written, Enqueue)
        invariant space > 0 ==> InCall(data, written, CopyIn(space))
        decreases patience
      {
        WriterPrivately(PrepareToWait);
        Others(AWriter);
        space, seen := OutSpaceNow(data, written, true, false);
        if space <= 0 {
          Others(AWriter);
          WriterPrivately(Resume(!outSem.value.woken));
        }
        patience := patience - 1;
      }
      if space <= 0 {
        WriterPrivately(PrepareToWait);
        space, seen := OutSpaceNow(data, written, true, true);
      }
    }

    // One step of whoever keeps this thread from the lock.
    method LockHolderMoves(me: Thread, ghost b: byte := 0)
      requires Valid() && !outLock.Free?
      requires me.AWriter? ==> !outLock.HeldByWriter?
      requires me.TheWork? ==> work.WaitReady?
      modifies this, outBuffer
      ensures Valid() && LockRank(View()) < old(LockRank(View()))
      ensures me.AWriter? ==> calls == old(calls) && SameCall(old(outSem), outSem)
      ensures me.TheWork? ==> work == old(work) && strobed == old(strobed)
      ensures me.TheWork? && old(Next(View(), b)) ==> Next(View(), b)
    {
      ReachableHasInv(View());
      HolderGetsCloser(View());
      assert IsForeign(me, HolderEvent(View()));
      hide Step, Enabled, WellFormed, IsForeign, Inv;
      Do(HolderEvent(View()));
      ForeignStep(old(View()), HolderEvent(old(View())), me, b);
    }

    // spin_lock_irqsave: whoever holds the lock runs until it lets go.
    method SpinLock(data: seq<byte>, written: nat)
      requires Valid() && InCall(data, written, LockToStart)
      modifies this, outBuffer
      ensures Valid() && calls == old(calls) && InCall(data, written, TestActive)
    {
      while !outLock.Free?
        invariant Valid() && calls == old(calls) && InCall(data, written, LockToStart)
        decreases LockRank(View())
      {
        ReachableHasInv(View());
        LockHolderMoves(AWriter);
      }
      WriterStarts(TakeLock);
    }

    // The others run, then the writer takes one step of its locked section.
    method NextStart(data: seq<byte>, written: nat, pc: WriterPc)
      requires Valid() && InCall(data, written, pc) && InStart(pc)
      modifies this, outBuffer
      ensures Valid() && calls == old(calls) && outSem.Some?
      ensures InCall(data, written, outSem.value.pc)
      ensures match pc
              case TestActive => outSem.value.pc.UnlockStart? || outSem.value.pc.SetActive?
              case SetActive => outSem.value.pc.AddTimer?
              case AddTimer => outSem.value.pc.QueueWork?
              case QueueWork => outSem.value.pc.UnlockStart?
              case UnlockStart => outSem.value.pc.AtLoop?
    {
      Others(AWriter);
      WriterStarts(SectionEvent(pc));
    }

    // The locked section at the end of a pass.
    method StartIfInactive(data: seq<byte>, written: nat)
      requires Valid() && InCall(data, written, LockToStart)
      modifies this, outBuffer
      ensures Valid() && calls == old(calls) && InCall(data, written, AtLoop)
    {
      SpinLock(data, written);
      NextStart(data, written, TestActive);
      if outSem.value.pc.SetActive? {
        NextStart(data, written, SetActive);
        NextStart(data, written, AddTimer);
        NextStart(data, written, QueueWork);
      }
      NextStart(data, written, UnlockStart);
    }

    // The space that a pass finds, sleeping for it if need be; zero if a signal arrives instead.
    method FindSpace(data: seq<byte>, written: nat) returns (space: nat, ghost seen: State)
      requires Valid() && InCall(data, written, ReadTail(false))
      modifies this, outBuffer
      ensures Valid() && calls == old(calls) && (space == 0 ==> NoSpaceSeen(seen))
      ensures InCall(data, written, if space > 0 then CopyIn(space) else Return(false))
    {
      var found;
      found, seen := OutSpaceNow(data, written, false, false);
      if found <= 0 {
        Others(AWriter);
        found, seen := WaitForSpace(data, written);
      }
      space := if found > 0 then found else 0;
    }

    // The next pass of the loop begins, or the call is over.
    method BeginPass(data: seq<byte>, written: nat)
      requires Valid() && InCall(data, written, AtLoop)
      modifies this, outBuffer
      ensures Valid() && calls == old(calls)
      ensures InCall(data, written, if written < |data| then ReadTail(false) else Return(false))
    {
      Others(AWriter);
      WriterPrivately(Loop);
      Others(AWriter);
    }

    // What follows a copy: the head, the start of output, and the next pass.
    method FinishPass(data: seq<byte>, written: nat, chunk: nat)
      requires Valid() && InCall(data, written, MoveHead(chunk))
      modifies this, outBuffer
      ensures Valid() && calls == old(calls)
      ensures InCall(data, written + chunk, if written + chunk < |data| then ReadTail(false) else Return(false))
    {
      Others(AWriter);
      WriterPublishes();
      Others(AWriter);
      StartIfInactive(data, written + chunk);
      BeginPass(data, written + chunk);
    }

    // One chunk goes into the ring; zero if the copy faults, which it does if the chunk goes beyond what can be read.
    method MoveData(data: seq<byte>, written: nat, space: nat, readable: nat) returns (moved: nat)
      requires Valid() && InCall(data, written, CopyIn(space))
      modifies this, outBuffer
      ensures Valid() && calls == old(calls) && written + moved <= |data|
      ensures moved == 0 || moved == space || written + moved == |data|
      ensures if moved == 0 then readable < |data| else written + moved <= readable
      ensures InCall(data, written + moved,
                if moved == 0 then Return(true)
                else if written + moved < |data| then ReadTail(false) else Return(false))
    {
      ReachableHasInv(View());
      var chunk := Chunk(outSem.value, space);
      var copied := written + chunk <= readable;
      moved := if copied then chunk else 0;
      WriterCopies(copied);
      if copied {
        FinishPass(data, written, moved);
      }
    }

    // Where a call stands between two passes of the write loop.
    static function BetweenPasses(data: seq<byte>, written: nat, end: WriteEnd): WriterPc {
      if end.Fault? then Return(true)
      else if end.Signal? || written >= |data| then Return(false)
      else ReadTail(false)
    }

    method WritePass(data: seq<byte>, written: nat, readable: nat)
        returns (moved: nat, end: WriteEnd, ghost seen: State)
      requires written <= |data|
      requires Valid() && InCall(data, written, ReadTail(false))
      modifies this, outBuffer
      ensures Valid() && calls == old(calls) && written + moved <= |data|
      ensures InCall(data, written + moved, BetweenPasses(data, written + moved, end))
      ensures moved == 0 <==> !end.Going?
      ensures end.Going? ==> written + moved <= readable
      ensures (end.Fault? ==> readable < |data|) && (end.Signal? ==> NoSpaceSeen(seen))
    {
      moved := 0;
      var space;
      space, seen := FindSpace(data, written);
      if space == 0 {
        end := Signal;
      } else {
        Others(AWriter);
        moved := MoveData(data, written, space, readable);
        end := if moved == 0 then Fault else Going;
      }
    }

    // The write loop, pass after pass.
    method WriteLoop(data: seq<byte>, readable: nat) returns (written: nat, end: WriteEnd, ghost seen: State)
      requires Valid() && InCall(data, 0, BetweenPasses(data, 0, Going))
      modifies this, outBuffer
      ensures Valid() && calls == old(calls) && written <= |data| && (end.Going? ==> written == |data|)
      ensures InCall(data, written, Return(end.Fault?)) && written <= readable
      ensures (end.Fault? ==> readable < |data|) && (end.Signal? ==> NoSpaceSeen(seen))
    {
      written, end, seen := 0, Going, View();
      while written < |data| && end.Going?
        invariant Valid() && calls == old(calls) && written <= |data|
        invariant InCall(data, written, BetweenPasses(data, written, end)) && written <= readable
        invariant (end.Fault? ==> readable < |data|) && (end.Signal? ==> NoSpaceSeen(seen))
        decreases |data| - written, end.Going?
      {
        var moved;
        moved, end, seen := WritePass(data, written, readable);
        written := written + moved;
      }
    }

    // The semaphore is given back, and the call is over.
    method FinishWrite(data: seq<byte>, written: nat, fault: bool)
      requires Valid() && InCall(data, written, Return(fault)) && written <= |data|
      modifies this, outBuffer
      ensures Valid() && calls == old(calls) + [Call(data[..written], fault)]
    {
      Others(AWriter);
      WriterPrivately(Up);
    }

    // The call has put the first "written" bytes of data into the printer's stream, in one
    // piece: all of them, unless a copy faulted or a signal arrived.  It does not begin if a signal arrives while
    // another call has the semaphore.  readable: how much of the caller's buffer can be read.  seen is the state in
    // which a call that a signal ends has last found no space.
    method ShortpWrite(data: seq<byte>, readable: nat)
        returns (entered: bool, written: nat, end: WriteEnd, ghost seen: State)
      requires Valid()
      modifies this, outBuffer
      ensures Valid() && old(calls) <= calls && written <= |data|
      ensures !entered ==> outSem.Some? && written == 0
      ensures entered ==> |calls| > |old(calls)| && calls[|calls| - 1] == Call(data[..written], end.Fault?)
      ensures entered && end.Going? ==> written == |data|
      ensures entered ==>
        written <= readable && (end.Fault? ==> readable < |data|) && (end.Signal? ==> NoSpaceSeen(seen))
    {
      Others(NoOne);
      entered, written, end, seen := outSem.None?, 0, Going, View();
      if entered {
        WriterPrivately(Down(data));
        BeginPass(data, 0);
        written, end, seen := WriteLoop(data, readable);
        FinishWrite(data, written, end.Fault?);
      }
    }

    // The others run, then the work item takes its next step inside the lock.
    method NextWork(ghost b: byte := 0)
      requires Valid() && InLockedWork(work) && outTail < outBuffer.Length
      modifies this, outBuffer
      ensures Valid()
      ensures match old(work)
              case TestEmpty => work.ClearActive? || work.ModTimer?
              case ClearActive => work.DelTimer?
              case DelTimer => work.WakeWriters?
              case ModTimer => work.Strobe?
              case Strobe => work.WakeWriters?
              case WakeWriters => work.UnlockWork?
              case UnlockWork => work.WorkIdle?
      ensures if old(work).Strobe? then |strobed| == |old(strobed)| + 1 && old(strobed) <= strobed
              else strobed == old(strobed)
      ensures old(Next(View(), b)) ==> if old(work).Strobe? then strobed == old(strobed) + [b] else Next(View(), b)
      ensures old(Next(View(), b)) && old(work).TestEmpty? ==> work.ModTimer?
      ensures outTail < outBuffer.Length
      ensures outTail == if old(work).Strobe? then Advance(outBuffer.Length, old(outTail), 1) else old(outTail)
    {
      Others(TheWork, b);
      ghost var before := strobed;
      WorkDo();
      assert strobed == before || strobed[..|before|] == before;
    }

    // shortp_do_write: the timer is set anew, then one byte goes out and the tail moves on.  Whoever
    // runs in between, output that is still active has something that will push it on.
    method ShortpDoWrite()
      requires Valid() && work.ModTimer? && outTail < outBuffer.Length
      modifies this, outBuffer
      ensures Valid() && work.WakeWriters? && outTail == (old(outTail) + 1) % outBuffer.Length
      ensures strobed == old(strobed) + [old(outBuffer[outTail])]
      ensures outputActive ==> timerPending || !timeout.TimeoutIdle? || workPending
    {
      AdvanceIsRemainder(outBuffer.Length, outTail, 1);
      ghost var b := outBuffer[outTail];
      ReachableHasInv(View());
      NextWork(b);
      NextWork(b);
      ReachableHasInv(View());
    }

    // One run of the work item: it sends one byte exactly if it finds the ring non-empty, and so it
    // does if there is a byte when it starts, and sends that one.
    method ShortpDoWork() returns (found: bool)
      requires Valid() && work.WorkIdle? && workPending
      modifies this, outBuffer
      ensures Valid() && work.WorkIdle?
      ensures if found then |strobed| == |old(strobed)| + 1 && old(strobed) <= strobed else strobed == old(strobed)
      ensures forall b :: old(Next(View(), b)) ==> found && strobed == old(strobed) + [b]
    {
      ReachableHasInv(View());
      ghost var b := outBuffer[outTail];
      BeginWork(b);
      NextWork(b);
      found := work.ModTimer?;
      if found {
        ShortpDoWrite();
      } else {
        NextWork();
        NextWork();
      }
      NextWork();
      NextWork();
    }

    // The item leaves the queue and waits for the lock.
    method BeginWork(ghost b: byte)
      requires Valid() && work.WorkIdle? && workPending
      modifies this, outBuffer
      ensures Valid() && work.TestEmpty? && strobed == old(strobed) && outTail < outBuffer.Length
      ensures old(Next(View(), b)) ==> Next(View(), b)
    {
      WorkDo();
      Others(TheWork, b);
      while !outLock.Free?
        invariant Valid() && work.WaitReady? && strobed == old(strobed)
        invariant old(Next(View(), b)) ==> Next(View(), b)
        decreases LockRank(View())
      {
        LockHolderMoves(TheWork, b);
      }
      WorkDo();
      ReachableHasInv(View());
    }
  }

  // A writer at the end of a space test that has found none.
  ghost predicate NoSpaceSeen(s: State) {
    && Reachable(s) && s.writer.Some? && s.writer.value.pc.ReadTailAgain?
    && SpaceFrom(|s.page|, s.head, s.writer.value.pc.seen, s.tail) <= 0
  }

  // The others can change nothing about a writer but its being woken.
  predicate SameCall(before: Option<Writer>, after: Option<Writer>) {
    before.None? == after.None? &&
    (before.Some? ==> after.value == before.value || after.value == before.value.(woken := true))
  }
}
