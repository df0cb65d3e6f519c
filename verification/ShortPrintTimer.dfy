/**
 When the driver adds a timer that is already pending.  add_timer is called in two places: by the
 timeout handler of a printer that is still busy, and by the writer that starts the output.
 For each of them, exactly the states from which the call can find the timer pending.
 */
module ShortPrintTimer {
  import opened Options
  import opened Ring
  import opened ShortPrint
  import opened ShortPrintSafety
  import opened ShortPrintRuns
  import opened ShortPrintTornRead

  // ---- a writer beside an empty ring gets to store a byte ----

  function NextMove(writer: Option<Writer>): WriterEvent {
    if writer.None? then Down([0]) else
    match writer.value.pc
    case AtLoop => Loop
    case ReadTail(_) => FirstRead
    case ReadTailAgain(_, _) => SecondRead(false)
    case Enqueue => PrepareToWait
    case Asleep(_) => Resume(true)
    case CopyIn(_) => Copy(true)
    case MoveHead(_) => Publish
    case Return(_) => Up
    case _ => SectionEvent(writer.value.pc)
  }

  function MoveRank(writer: Option<Writer>, tail: nat): nat {
    if writer.None? then 6 else
    match writer.value.pc
    case MoveHead(_) => 1
    case CopyIn(_) => 2
    case ReadTailAgain(_, seen) => if seen == tail then 3 else 7
    case ReadTail(_) => 4
    case Enqueue => 5
    case Asleep(_) => 6
    case Return(_) => 7
    case AtLoop => if writer.value.written < |writer.value.data| then 5 else 8
    case _ => 8 + WriterRank(writer)
  }

  predicate SameControl(s: State, t: State) {
    && t.active == s.active && t.armed == s.armed && t.queued == s.queued && t.lock == s.lock
    && t.work == s.work && t.timeout == s.timeout && t.irqQueueing == s.irqQueueing
  }

  predicate Outside(writer: Option<Writer>) {
    writer.None? || (!writer.value.pc.LockToStart? && !InStart(writer.value.pc))
  }

  lemma MoveKeepsControl(s: State)
    requires WellFormed(s) && WriterCan(s, NextMove(s.writer)) && Outside(s.writer)
    ensures Indexed(WriterStep(s, NextMove(s.writer)))
    ensures SameControl(s, WriterStep(s, NextMove(s.writer)))
  {
    hide WriterOk, Fill, Advance, SpaceFrom, AfterSpaceTest;
  }

  predicate GoesOn(s: State, t: State) {
    && t.head == s.head && |t.page| == |s.page| && WriterRank(t.writer) < WriterRank(s.writer)
    && (Outside(t.writer) ==> WriterAt(t, AtLoop))
  }

  lemma SectionIsProgress(s: State)
    requires WellFormed(s) && !Outside(s.writer) && WriterCan(s, SectionEvent(s.writer.value.pc))
    ensures GoesOn(s, WriterStep(s, SectionEvent(s.writer.value.pc)))
  {
    hide WriterOk, Fill, Advance, SpaceFrom, AfterSpaceTest, Chunk;
  }

  lemma PublishIsProgress(s: State)
    requires WellFormed(s) && s.head == s.tail && WriterCan(s, Publish)
    ensures var t := WriterStep(s, Publish);
            WriterAt(t, LockToStart) && t.head != t.tail
  {
    AdvanceHeadAppends(s.page, s.head, s.tail, s.writer.value.pc.chunk);
  }

  // The byte is stored, or the writer is nearer to storing it.
  predicate MovesOn(s: State, t: State) {
    if t.head == s.head then Outside(t.writer) && MoveRank(t.writer, t.tail) < MoveRank(s.writer, s.tail)
    else s.writer.Some? && s.writer.value.pc.MoveHead? && WriterAt(t, LockToStart) && t.head != t.tail
  }

  lemma SpaceTestIsProgress(s: State)
    requires WellFormed(s) && s.head == s.tail && WriterCan(s, SecondRead(false))
    ensures MovesOn(s, WriterStep(s, SecondRead(false)))
  {
  }

  lemma MoveIsProgress(s: State)
    requires WellFormed(s) && s.head == s.tail && WriterCan(s, NextMove(s.writer)) && Outside(s.writer)
    ensures MovesOn(s, WriterStep(s, NextMove(s.writer)))
  {
    hide WellFormed, SpaceFrom, Fill;
    var e := NextMove(s.writer);
    if e.Publish? {
      hide WriterStep;
      PublishIsProgress(s);
    } else if e.SecondRead? {
      hide WriterStep, MovesOn;
      SpaceTestIsProgress(s);
    }
  }

  // ---- the handler ----

  // Only the other threads move.
  predicate WithoutHandler(events: seq<Event>) {
    forall e <- events :: !e.TimeoutDoes?
  }

  // The handler can take its next step, the lock or the add, with the timer pending.
  predicate MeetsPending(s: State) {
    s.armed && Enabled(s, TimeoutDoes(true))
  }

  ghost predicate CanMeetPending(s: State) {
    exists events: seq<Event>, t: State :: WithoutHandler(events) && Run(s, events, t) && MeetsPending(t)
  }

  // A schedule that arms the timer while the handler waits for the lock.
  function ToArm(s: State): Event {
    if s.lock.HeldByWork? then WorkDoes
    else if s.lock.HeldByWriter? || !s.active || s.head == s.tail then WriterDoes(NextMove(s.writer))
    else if s.work.WaitReady? || s.queued then WorkDoes
    else if s.irqQueueing then InterruptQueues
    else Interrupt
  }

  function WorkLeft(work: WorkPc): nat {
    match work
    case TestEmpty => 5
    case ClearActive => 4
    case ModTimer => 4
    case DelTimer => 3
    case Strobe => 3
    case WakeWriters => 2
    case UnlockWork => 1
    case WorkIdle => 0
    case WaitReady => 0
  }

  // The work item, which holds the lock, will give it back with the timer pending.
  predicate LeavesArmed(s: State) {
    match s.work
    case TestEmpty => s.head != s.tail
    case ModTimer => true
    case ClearActive => false
    case DelTimer => false
    case _ => s.armed
  }

  function ArmRank(s: State): nat {
    if s.lock.HeldByWork? then WorkLeft(s.work) + if LeavesArmed(s) then 0 else 40
    else if s.lock.HeldByWriter? || !s.active || s.head == s.tail then
      if s.head == s.tail then 20 + MoveRank(s.writer, s.tail) else 10 + WriterRank(s.writer)
    else if s.work.WaitReady? then 6
    else if s.queued then 7
    else if s.irqQueueing then 8
    else 9
  }

  predicate Waits(s: State) {
    s.timeout.LockTimeout? && !(s.armed && s.lock.Free?)
  }

  lemma WorkArms(s: State)
    requires WellFormed(s) && LockOk(s) && Waits(s) && s.lock.HeldByWork?
    ensures Enabled(s, WorkDoes)
    ensures var t := WorkStep(s);
            Waits(t) ==> ArmRank(t) < ArmRank(s)
  {
  }

  lemma SectionArms(s: State)
    requires WellFormed(s) && LockOk(s) && NotForgotten(s) && Waits(s) && ToArm(s).WriterDoes? && !Outside(s.writer)
    ensures WriterCan(s, NextMove(s.writer))
    ensures var t := WriterStep(s, NextMove(s.writer));
            Waits(t) ==> ArmRank(t) < ArmRank(s)
  {
    hide WellFormed, NotForgotten;
    SectionIsProgress(s);
  }

  lemma MoveArms(s: State)
    requires WellFormed(s) && LockOk(s) && NotForgotten(s) && Waits(s) && ToArm(s).WriterDoes? && Outside(s.writer)
    ensures WriterCan(s, NextMove(s.writer))
    ensures var t := WriterStep(s, NextMove(s.writer));
            Waits(t) ==> ArmRank(t) < ArmRank(s)
  {
    hide WellFormed, WriterStep;
    assert s.head == s.tail && WriterCan(s, NextMove(s.writer));
    hide NotForgotten, NextMove;
    MoveKeepsControl(s);
    MoveIsProgress(s);
    var t := WriterStep(s, NextMove(s.writer));
    assert t.head != s.head ==> WriterRank(t.writer) == 6 && MoveRank(s.writer, s.tail) == 1;
  }

  lemma OthersArm(s: State)
    requires WellFormed(s) && LockOk(s) && Waits(s) && !s.lock.HeldByWork? && !ToArm(s).WriterDoes?
    ensures Enabled(s, ToArm(s)) && !ToArm(s).TimeoutDoes?
    ensures var t := Step(s, ToArm(s));
            t.timeout.LockTimeout? && ArmRank(t) < ArmRank(s)
  {
  }

  lemma ArmsNext(s: State)
    requires Inv(s) && Waits(s)
    ensures Enabled(s, ToArm(s)) && !ToArm(s).TimeoutDoes?
    ensures var t := Step(s, ToArm(s));
            Inv(t) && t.timeout.LockTimeout? && (Waits(t) ==> ArmRank(t) < ArmRank(s))
  {
    hide StreamOk, HalfFull, WriterOk, ArmRank, WellFormed, WorkStep, WriterStep;
    if s.lock.HeldByWork? {
      WorkArms(s);
    } else if ToArm(s).WriterDoes? {
      if Outside(s.writer) {
        MoveArms(s);
      } else {
        SectionArms(s);
      }
    } else {
      OthersArm(s);
    }
    StepKeepsInv(s, ToArm(s));
  }

  lemma {:induction false} OthersGetItArmed(s: State) returns (events: seq<Event>, t: State)
    requires Inv(s) && s.timeout.LockTimeout?
    ensures WithoutHandler(events) && Run(s, events, t) && MeetsPending(t)
    decreases if Waits(s) then 1 + ArmRank(s) else 0
  {
    hide Step, ToArm, ArmRank, LockOk, StreamOk, NotForgotten, Pushed, HalfFull;
    if !Waits(s) {
      return [], s;
    }
    var e := ToArm(s);
    ArmsNext(s);
    var rest;
    rest, t := OthersGetItArmed(Step(s, e));
    events := [e] + rest;
    assert events[1..] == rest;
  }

  lemma LockedTimerStays(s: State, e: Event)
    requires WellFormed(s) && LockOk(s) && s.timeout.ReadStatus? && Enabled(s, e) && !e.TimeoutDoes?
    ensures Step(s, e).armed == s.armed && Step(s, e).timeout.ReadStatus?
  {
  }

  lemma {:induction false} LockKeepsTimer(s: State, events: seq<Event>, t: State)
    requires Inv(s) && s.timeout.ReadStatus? && WithoutHandler(events) && Run(s, events, t)
    ensures t.armed == s.armed
    decreases |events|
  {
    if events != [] {
      LockedTimerStays(s, events[0]);
      StepKeepsInv(s, events[0]);
      LockKeepsTimer(Step(s, events[0]), events[1..], t);
    }
  }

  lemma LockedPcStays(s: State, e: Event)
    requires WellFormed(s) && LockOk(s) && s.lock.HeldByTimeout? && Enabled(s, e) && !e.TimeoutDoes?
    ensures var t := Step(s, e); t.timeout == s.timeout && t.armed == s.armed && t.lock == s.lock
  {
  }

  lemma {:induction false} LockKeepsPc(s: State, events: seq<Event>, t: State)
    requires Inv(s) && s.lock.HeldByTimeout? && WithoutHandler(events) && Run(s, events, t)
    ensures t.timeout == s.timeout && t.armed == s.armed && t.lock == s.lock
    decreases |events|
  {
    if events != [] {
      LockedPcStays(s, events[0]);
      StepKeepsInv(s, events[0]);
      LockKeepsPc(Step(s, events[0]), events[1..], t);
    }
  }

  // The handler that has the lock, with any steps of the others between its own: if the printer is still busy it
  // arms the timer, lets go of the lock and is done, and queues nothing; otherwise it leaves the timer alone and
  // goes on to the interrupt.
  lemma HandlerRearmsOrInterrupts(s: State, stillBusy: bool, events: seq<Event>, t: State, later: bool)
    requires Reachable(s) && s.timeout.ReadStatus?
    requires WithoutHandler(events) && Run(TimeoutStep(s, stillBusy), events, t)
    ensures TimeoutStep(s, stillBusy).queued == s.queued && TimeoutStep(s, stillBusy).armed == (s.armed || stillBusy)
    ensures t.armed == (s.armed || stillBusy) && Enabled(t, TimeoutDoes(later))
    ensures var u := TimeoutStep(t, later);
            && u == t.(lock := Free, timeout := if stillBusy then TimeoutIdle else Interrupting)
  {
    ReachableTimeout(s, stillBusy);
    var middle := TimeoutStep(s, stillBusy);
    ReachableHasInv(s);
    ReachableHasInv(middle);
    LockKeepsPc(middle, events, t);
  }

  // How many steps a handler still has to take at most.
  function HandlerLeft(pc: TimeoutPc): nat {
    match pc
    case TimeoutIdle => 0
    case Queueing => 1
    case Interrupting => 2
    case UnlockTimeout(_) => 3
    case ReadStatus => 4
    case LockTimeout => 5
    case Entered => 6
  }

  function HandlerSteps(events: seq<Event>): nat {
    if events == [] then 0 else (if events[0].TimeoutDoes? then 1 else 0) + HandlerSteps(events[1..])
  }

  lemma HandlerStepCounts(s: State, e: Event)
    requires WellFormed(s) && Enabled(s, e) && !e.TimerFires?
    ensures HandlerLeft(Step(s, e).timeout) + (if e.TimeoutDoes? then 1 else 0) <= HandlerLeft(s.timeout)
  {
    hide WellFormed;
  }

  // In every run in which the timer does not go off again the handler ends, after six steps of its own at most.
  lemma {:induction false} HandlerEnds(s: State, events: seq<Event>, t: State)
    requires Run(s, events, t) && forall e <- events :: !e.TimerFires?
    ensures HandlerLeft(t.timeout) + HandlerSteps(events) <= HandlerLeft(s.timeout) <= 6
    ensures HandlerSteps(events) == HandlerLeft(s.timeout) ==> t.timeout.TimeoutIdle?
    decreases |events|
  {
    if events != [] {
      HandlerStepCounts(s, events[0]);
      HandlerEnds(Step(s, events[0]), events[1..], t);
    }
  }

  // A handler that finds the output inactive is done, and touches nothing; otherwise it goes for the lock.
  lemma HandlerTestsFirst(s: State, later: bool)
    requires s.timeout.Entered?
    ensures TimeoutStep(s, later) == s.(timeout := if s.active then LockTimeout else TimeoutIdle)
  {
  }

  // The interrupt that a timeout stands in for queues the work item exactly if output is active, as a real one does.
  lemma TimeoutActsAsInterrupt(s: State, later: bool)
    requires Reachable(s) && s.timeout.Interrupting? && !s.irqQueueing
    ensures WellFormed(s)
    ensures var asked := TimeoutStep(s, later);
            if s.active
            then
              TimeoutStep(asked, later).(timeout := s.timeout) == Step(Step(s, Interrupt), InterruptQueues)
              == s.(queued := true)
            else asked.(timeout := s.timeout) == Step(s, Interrupt) == s && asked.timeout.TimeoutIdle?
    ensures s.active ==> TimeoutStep(TimeoutStep(s, later), later).timeout.TimeoutIdle?
  {
    ReachableHasInv(s);
  }

  // A handler that has passed its test and does not hold the lock yet can always find the timer pending
  // by the time it has it; one that holds the lock finds it pending exactly if it is.
  lemma HandlerMeetsPendingExactly(s: State)
    requires Reachable(s) && (s.timeout.LockTimeout? || s.timeout.ReadStatus?)
    ensures CanMeetPending(s) <==> s.timeout.LockTimeout? || s.armed
  {
    ReachableHasInv(s);
    if s.timeout.LockTimeout? {
      var events, t := OthersGetItArmed(s);
    } else {
      if CanMeetPending(s) {
        var events: seq<Event>, t: State :| WithoutHandler(events) && Run(s, events, t) && MeetsPending(t);
        LockKeepsTimer(s, events, t);
      }
      if s.armed {
        assert Run(s, [], s) && WithoutHandler([]) && MeetsPending(s);
      }
    }
  }

  // ---- the start of output ----

  // Nobody starts the output.
  predicate WithoutStart(events: seq<Event>) {
    forall e <- events :: !StartsOutput(e)
  }

  predicate StartsOutput(e: Event) {
    e.WriterDoes? && e.w.Activate?
  }

  // The writer has found the output inactive, and will add a timer that is pending.
  predicate StartsPending(s: State) {
    WriterAt(s, SetActive) && s.armed
  }

  // The next start of the output can find the timer pending.
  ghost predicate CanStartPending(s: State) {
    exists events: seq<Event>, t: State :: WithoutStart(events) && Run(s, events, t) && StartsPending(t)
  }

  // The work item deletes the timer before it gives the lock back.
  predicate WillDelete(s: State) {
    s.work.ClearActive? || s.work.DelTimer? || (s.work.TestEmpty? && s.head == s.tail && WriterAt(s, LockToStart))
  }

  // The work item will look at the ring although the output is inactive.
  predicate WillLook(s: State) {
    s.queued || s.irqQueueing || s.timeout.Queueing? || s.work.WaitReady? || s.work.TestEmpty?
  }

  // The work item, when it looks next, can find a byte: the writer can still store one, or one is left.
  predicate CanFindByte(s: State)
    requires Indexed(s)
  {
    WriterAt(s, LockToStart) ==> Used(s) > if s.work.Strobe? then 1 else 0
  }

  // While output is inactive: a timer is pending, or somebody who was on the way when it stopped can arm one.
  predicate Loose(s: State)
    requires Indexed(s)
  {
    if WriterAt(s, TestActive) || WriterAt(s, SetActive) then s.armed
    else
      || (s.armed && !WillDelete(s))
      || s.timeout.LockTimeout? || s.timeout.ReadStatus?
      || s.work.ModTimer?
      || (WillLook(s) && CanFindByte(s))
  }

  lemma WriterStaysTight(s: State, e: WriterEvent)
    requires WellFormed(s) && LockOk(s) && NotForgotten(s) && WriterCan(s, e)
    requires !s.active && !Loose(s) && !e.Activate?
    ensures !WriterStep(s, e).active && !Loose(WriterStep(s, e))
  {
  }

  lemma WorkStaysTight(s: State)
    requires WellFormed(s) && LockOk(s) && NotForgotten(s) && Enabled(s, WorkDoes)
    requires !s.active && !Loose(s)
    ensures !WorkStep(s).active && !Loose(WorkStep(s))
  {
    if s.work.Strobe? {
      AdvanceTailRemoves(s.page, s.head, s.tail, 1);
    }
  }

  lemma OthersStayTight(s: State, e: Event)
    requires WellFormed(s) && LockOk(s) && Enabled(s, e) && !e.WriterDoes? && !e.WorkDoes?
    requires !s.active && !Loose(s)
    ensures !Step(s, e).active && !Loose(Step(s, e))
  {
  }

  lemma StaysTight(s: State, e: Event)
    requires Inv(s) && Enabled(s, e) && !StartsOutput(e) && !s.active && !Loose(s)
    ensures Inv(Step(s, e)) && !Step(s, e).active && !Loose(Step(s, e))
  {
    hide StreamOk, HalfFull, Pushed, WriterOk;
    StepKeepsInv(s, e);
    if e.WriterDoes? {
      WriterStaysTight(s, e.w);
    } else if e.WorkDoes? {
      WorkStaysTight(s);
    } else {
      OthersStayTight(s, e);
    }
  }

  lemma {:induction false} TightStarts(s: State, events: seq<Event>, t: State)
    requires Inv(s) && !s.active && !Loose(s) && WithoutStart(events) && Run(s, events, t)
    ensures !StartsPending(t)
    decreases |events|
  {
    hide Step, LockOk, StreamOk, NotForgotten, Pushed, HalfFull;
    if events != [] {
      StaysTight(s, events[0]);
      TightStarts(Step(s, events[0]), events[1..], t);
    }
  }

  // A schedule that keeps the timer pending, or gets it armed, and lets a writer come to start the output.
  function ToStart(s: State): Event {
    if !WriterAt(s, LockToStart) then WriterDoes(NextMove(s.writer))
    else if s.lock.HeldByWork? then WorkDoes
    else if s.lock.HeldByTimeout? then TimeoutDoes(true)
    else if s.armed then WriterDoes(TakeLock)
    else if s.timeout.LockTimeout? then TimeoutDoes(true)
    else if s.work.WaitReady? || s.queued then WorkDoes
    else if s.irqQueueing then InterruptQueues
    else TimeoutDoes(true)
  }

  function StartRank(s: State): nat {
    if WriterAt(s, TestActive) then 1
    else if !WriterAt(s, LockToStart) then 60 + MoveRank(s.writer, s.tail)
    else if s.lock.HeldByWork? then WorkLeft(s.work) + if LeavesArmed(s) then 2 else 40
    else if s.timeout.UnlockTimeout? then if s.armed then 3 else 11
    else if s.timeout.ReadStatus? then 4
    else if s.armed then 2
    else if s.timeout.LockTimeout? then 5
    else if s.work.WaitReady? then 8
    else if s.queued then 9
    else 10
  }

  predicate Starting(s: State) {
    Inv(s) && !s.active && Loose(s) && !StartsPending(s)
  }

  predicate NearerStart(s: State, t: State) {
    Indexed(t) && !t.active && Loose(t) && (StartsPending(t) || StartRank(t) < StartRank(s))
  }

  lemma SectionStarts(s: State)
    requires Starting(s) && ToStart(s).WriterDoes? && !Outside(s.writer)
    ensures WriterCan(s, ToStart(s).w) && !ToStart(s).w.Activate?
    ensures NearerStart(s, WriterStep(s, ToStart(s).w))
  {
    hide StreamOk, HalfFull, Pushed, WriterOk, Used;
    assert WriterCan(s, ToStart(s).w);
  }

  lemma MoveStarts(s: State)
    requires Starting(s) && ToStart(s).WriterDoes? && Outside(s.writer)
    ensures WriterCan(s, ToStart(s).w) && !ToStart(s).w.Activate?
    ensures NearerStart(s, WriterStep(s, ToStart(s).w))
  {
    hide StreamOk, HalfFull, Pushed, WriterOk, WriterStep;
    assert s.head == s.tail && WriterCan(s, NextMove(s.writer));
    MoveKeepsControl(s);
    MoveIsProgress(s);
  }

  lemma StrobeStarts(s: State)
    requires Starting(s) && ToStart(s).WorkDoes? && s.work.Strobe?
    ensures NearerStart(s, WorkStep(s))
  {
    hide StreamOk, HalfFull, Pushed, WriterOk;
    AdvanceTailRemoves(s.page, s.head, s.tail, 1);
  }

  lemma FreeWorkStarts(s: State)
    requires Starting(s) && ToStart(s).WorkDoes? && (s.work.UnlockWork? || !InLockedWork(s.work))
    ensures Enabled(s, WorkDoes) && NearerStart(s, WorkStep(s))
  {
    hide StreamOk, HalfFull, Pushed, WriterOk, NextMove, MoveRank, WriterRank, Occupancy;
  }

  lemma LockedWorkStarts(s: State)
    requires Starting(s) && ToStart(s).WorkDoes? && InLockedWork(s.work) && !s.work.Strobe? && !s.work.UnlockWork?
    ensures NearerStart(s, WorkStep(s))
  {
    hide StreamOk, HalfFull, Pushed, WriterOk, NextMove, MoveRank, WriterRank, Occupancy, ManyFree;
  }

  lemma WorkStarts(s: State)
    requires Starting(s) && ToStart(s).WorkDoes?
    ensures Enabled(s, WorkDoes) && NearerStart(s, WorkStep(s))
  {
    hide StreamOk, HalfFull, Pushed, WriterOk, NearerStart, WorkStep;
    if s.work.Strobe? {
      StrobeStarts(s);
    } else if s.work.UnlockWork? || !InLockedWork(s.work) {
      FreeWorkStarts(s);
    } else {
      LockedWorkStarts(s);
    }
  }

  lemma OthersStart(s: State)
    requires Starting(s) && !ToStart(s).WorkDoes? && !ToStart(s).WriterDoes?
    ensures Enabled(s, ToStart(s)) && NearerStart(s, Step(s, ToStart(s)))
  {
  }

  lemma StartsNext(s: State)
    requires Starting(s)
    ensures Enabled(s, ToStart(s)) && !StartsOutput(ToStart(s))
    ensures Inv(Step(s, ToStart(s))) && NearerStart(s, Step(s, ToStart(s)))
  {
    hide NearerStart, StreamOk, HalfFull, Pushed, WriterOk;
    if ToStart(s).WriterDoes? {
      if Outside(s.writer) {
        MoveStarts(s);
      } else {
        SectionStarts(s);
      }
    } else if ToStart(s).WorkDoes? {
      WorkStarts(s);
    } else {
      OthersStart(s);
    }
    StepKeepsInv(s, ToStart(s));
  }

  lemma {:induction false} LooseStarts(s: State) returns (events: seq<Event>, t: State)
    requires Inv(s) && !s.active && Loose(s)
    ensures WithoutStart(events) && Run(s, events, t) && StartsPending(t)
    decreases if StartsPending(s) then 0 else 1 + StartRank(s)
  {
    hide Step, ToStart, StartRank, Loose, LockOk, StreamOk, NotForgotten, Pushed, HalfFull;
    if StartsPending(s) {
      return [], s;
    }
    var e := ToStart(s);
    StartsNext(s);
    var rest;
    rest, t := LooseStarts(Step(s, e));
    events := [e] + rest;
    assert events[1..] == rest;
  }

  // From a state in which the output is inactive, the writer that starts it next can find the timer
  // pending exactly if the state is loose.
  lemma StartMeetsPendingExactly(s: State)
    requires Reachable(s) && !s.active
    ensures Indexed(s) && (CanStartPending(s) <==> Loose(s))
  {
    ReachableHasInv(s);
    if Loose(s) {
      var events, t := LooseStarts(s);
    } else if CanStartPending(s) {
      var events: seq<Event>, t: State :| WithoutStart(events) && Run(s, events, t) && StartsPending(t);
      TightStarts(s, events, t);
    }
  }

  // ---- both happen ----

  // The timer goes off while output is active, the work item sends a byte before the handler has the
  // lock, and the handler finds the printer still busy.
  lemma HandlerFindsTimerPending() returns (s: State)
    ensures Reachable(s) && s.active && s.armed && s.timeout.ReadStatus?
  {
    s := HandlerWaits();
    s := WorkItemRuns(s);
    ReachableTimeout(s, true);
    s := TimeoutStep(s, true);
  }

  lemma HandlerWaits() returns (s: State)
    ensures Reachable(s) && s == ThreeSent().(armed := false, timeout := LockTimeout)
  {
    ReachesThreeSent();
    ReachableStep(ThreeSent(), TimerFires);
    s := Step(ThreeSent(), TimerFires);
    ReachableTimeout(s, true);
    s := TimeoutStep(s, true);
  }

  // The handler still waits for the lock when the work item has sent the last byte and stopped the output;
  // it finds the printer busy and arms the timer, and the next writer adds it again.
  lemma WriterFindsTimerPending() returns (s: State)
    ensures Reachable(s) && WriterAt(s, AddTimer) && s.armed
  {
    s := HandlerWaits();
    s := WorkItemRuns(s);
    s := InterruptArrives(s);
    s := WorkItemRuns(s);
    s := InterruptArrives(s);
    s := WorkItemRuns(s);
    s := InterruptArrives(s);
    s := WorkItemStops(s);
    ReachableHasInv(s);
    var events, t := LooseStarts(s);
    ReachableRun(s, events, t);
    s := Writes(t, Activate);
  }
}
