/** Runs of the output engine, and what holds in every state that a run can reach. */
module ShortPrintRuns {
  import opened Options
  import opened Ring
  import opened ShortPrint
  import opened ShortPrintSafety

  ghost predicate Run(s: State, events: seq<Event>, t: State)
    decreases |events|
  {
    if events == [] then t == s
    else WellFormed(s) && Enabled(s, events[0]) && Run(Step(s, events[0]), events[1..], t)
  }

  ghost predicate Reachable(t: State) {
    exists s: State, events: seq<Event> :: Init(s) && Run(s, events, t)
  }

  lemma {:induction false} RunKeepsInv(s: State, events: seq<Event>, t: State)
    requires Inv(s) && Run(s, events, t)
    ensures Inv(t)
    decreases |events|
  {
    if events != [] {
      StepKeepsInv(s, events[0]);
      RunKeepsInv(Step(s, events[0]), events[1..], t);
    }
  }

  lemma {:induction false} RunsCompose(s: State, first: seq<Event>, t: State, second: seq<Event>, u: State)
    requires Run(s, first, t) && Run(t, second, u)
    ensures Run(s, first + second, u)
    decreases |first|
  {
    if first == [] {
      assert first + second == second;
    } else {
      RunsCompose(Step(s, first[0]), first[1..], t, second, u);
      assert (first + second)[1..] == first[1..] + second;
    }
  }

  lemma ReachableHasInv(t: State)
    requires Reachable(t)
    ensures Inv(t)
  {
    var s, events :| Init(s) && Run(s, events, t);
    InitHasInv(s);
    RunKeepsInv(s, events, t);
  }

  lemma ReachableStep(s: State, e: Event)
    requires Reachable(s)
    ensures WellFormed(s)
    ensures Enabled(s, e) ==> Reachable(Step(s, e))
  {
    ReachableHasInv(s);
    var origin, events :| Init(origin) && Run(origin, events, s);
    if Enabled(s, e) {
      assert Run(s, [e], Step(s, e));
      RunsCompose(origin, events, s, [e], Step(s, e));
    }
  }

  lemma ReachableRun(s: State, events: seq<Event>, t: State)
    requires Reachable(s) && Run(s, events, t)
    ensures Reachable(t)
  {
    var origin, before :| Init(origin) && Run(origin, before, s);
    RunsCompose(origin, before, s, events, t);
  }

  lemma ReachableWork(s: State)
    requires Reachable(s) && Enabled(s, WorkDoes)
    ensures Indexed(s) && Reachable(WorkStep(s))
  {
    ReachableStep(s, WorkDoes);
  }

  lemma ReachableTimeout(s: State, stillBusy: bool)
    requires Reachable(s) && Enabled(s, TimeoutDoes(stillBusy))
    ensures Reachable(TimeoutStep(s, stillBusy))
  {
    ReachableStep(s, TimeoutDoes(stillBusy));
  }

  // Whatever the interleaving, bytes in the ring are never forgotten.
  lemma OutputIsNeverForgotten(s: State)
    requires Reachable(s) && s.head != s.tail
    ensures s.active || AboutToStart(s)
  {
    ReachableHasInv(s);
  }

  // Active output always has something that will push it on.  The one exception is the
  // writer itself, in its locked section, between setting the flag and arming the timer.
  lemma ActiveOutputIsPushed(s: State)
    requires Reachable(s) && s.active
    ensures s.armed || !s.timeout.TimeoutIdle? || s.queued || !s.work.WorkIdle? || WriterAt(s, AddTimer)
    ensures !s.lock.HeldByWriter? ==> s.armed || !s.timeout.TimeoutIdle? || s.queued || !s.work.WorkIdle?
  {
    ReachableHasInv(s);
  }

  // The printer gets the accepted bytes in order, each call's bytes in one piece.
  lemma PrinterStreamIsExact(s: State)
    requires Reachable(s)
    ensures WellFormed(s)
    ensures s.strobed + Stored(s) == Flatten(s.calls) + Taken(s.writer)
  {
    ReachableHasInv(s);
  }

  // The space test decides alone: with space the writer goes on, whatever signals are pending; without, it first
  // joins the queue, and from there sleeps, or gives up on a signal.
  lemma SpaceTestDecides(s: State, signal: bool)
    requires Reachable(s) && WriterCan(s, SecondRead(signal))
    ensures var w := s.writer.value;
            var space := SpaceFrom(|s.page|, s.head, w.pc.seen, s.tail);
            WellFormed(s) && WriterStep(s, SecondRead(signal)) == s.(writer := Some(w.(pc :=
              if space > 0 then CopyIn(space)
              else if !w.pc.queued then Enqueue
              else if signal then Return(false)
              else Asleep(space))))
  {
    ReachableHasInv(s);
  }

  // One pass takes all the space it was granted, or all that is left of the data.  A copy that faults ends the
  // call with -EFAULT and stores nothing.
  lemma PassIsMaximal(s: State, space: nat)
    requires Reachable(s) && WriterAt(s, CopyIn(space))
    ensures WellFormed(s)
    ensures var w, v := s.writer.value, WriterStep(s, Copy(true)).writer;
            && v.Some? && v.value.data == w.data && v.value.written == w.written && v.value.pc.MoveHead?
            && v.value.pc.chunk == if space <= |w.data| - w.written then space else |w.data| - w.written
    ensures WriterStep(s, Copy(false)) == s.(writer := Some(s.writer.value.(pc := Return(true))))
  {
    ReachableHasInv(s);
  }

  // Beside a copy that faults and a test that gives up on a signal, only the loop condition ends a call, with all
  // bytes written and no error.
  lemma LoopEndsWithAll(s: State, e: WriterEvent)
    requires Reachable(s) && WriterCan(s, e) && s.writer.Some? && !s.writer.value.pc.Return?
    requires !e.SecondRead? && !e.Copy?
    ensures WellFormed(s)
    ensures var v := WriterStep(s, e).writer;
            && v.Some? && (v.value.pc.Return? ==> v.value.pc == Return(false))
            && (v.value.pc.Return? <==> e.Loop? && s.writer.value.written == |s.writer.value.data|)
  {
    ReachableHasInv(s);
    assert s.writer.value.written <= |s.writer.value.data|;
    hide Inv, WriterOk, Advance;
  }

  // Space that a writer has been granted stays free until it publishes, whatever the tail does.
  lemma GrantedSpaceStaysFree(s: State, count: nat)
    requires Reachable(s)
    requires WriterAt(s, CopyIn(count)) || WriterAt(s, MoveHead(count))
    ensures WellFormed(s) && 0 < count && FreeFor(s.page, s.head, s.tail, count)
  {
    ReachableHasInv(s);
  }

  // A writer that fell asleep because the test found no space (rather than a negative amount)
  // is woken before the ring holds less than half a page.
  lemma SleeperHoldsHalfPage(s: State)
    requires Reachable(s) && SleepsUnwoken(s) && s.writer.value.pc.found == 0 && !s.work.WakeWriters?
    ensures WellFormed(s) && 2 * Used(s) >= |s.page|
  {
    ReachableHasInv(s);
  }

  // So only a negative result can leave a writer asleep beside an empty ring.
  lemma OnlyTornTestSleepsBesideEmptyRing(s: State)
    requires Reachable(s) && SleepsUnwoken(s) && s.head == s.tail
    ensures s.writer.value.pc.found < 0
  {
    ReachableHasInv(s);
  }

  // ---- progress: the ring can always be emptied, with every printer interrupt lost ----

  // Steps that need neither new data nor an interrupt.
  predicate Internal(e: Event) {
    match e
    case WriterDoes(w) => w.TakeLock? || w.Test? || w.Activate? || w.StartTimer? || w.Queue? || w.DropLock?
    case Interrupt => false
    case _ => true
  }

  function SectionEvent(pc: WriterPc): WriterEvent {
    match pc
    case TestActive => Test
    case SetActive => Activate
    case AddTimer => StartTimer
    case QueueWork => Queue
    case UnlockStart => DropLock
    case _ => TakeLock
  }

  predicate Drained(s: State) {
    s.head == s.tail && !s.active
  }

  // A scheduler: the lock holder first, then the work item, then whoever can queue it.
  function Choice(s: State): Event {
    if s.lock.HeldByWork? then WorkDoes
    else if s.lock.HeldByWriter? && s.writer.Some? then WriterDoes(SectionEvent(s.writer.value.pc))
    else if s.lock.HeldByTimeout? then TimeoutDoes(false)
    else if s.work.WaitReady? || s.queued then WorkDoes
    else if !s.active then WriterDoes(TakeLock)
    else if !s.timeout.TimeoutIdle? then TimeoutDoes(false)
    else TimerFires
  }

  function WorkRank(s: State): nat {
    match s.work
    case ClearActive => if s.head == s.tail then 1 else 10
    case DelTimer => 9
    case WakeWriters => 8
    case UnlockWork => 7
    case WorkIdle => if s.queued then 5 else 6
    case WaitReady => 4
    case TestEmpty => 3
    case ModTimer => 2
    case Strobe => 1
  }

  function TimeoutRank(pc: TimeoutPc): nat {
    match pc
    case UnlockTimeout(missed) => if missed then 3 else 8
    case TimeoutIdle => 7
    case Entered => 6
    case LockTimeout => 5
    case ReadStatus => 4
    case Interrupting => 2
    case Queueing => 1
  }

  function WriterRank(writer: Option<Writer>): nat {
    if writer.None? then 0 else
    match writer.value.pc
    case LockToStart => 6
    case TestActive => 5
    case SetActive => 4
    case AddTimer => 3
    case QueueWork => 2
    case UnlockStart => 1
    case _ => 0
  }

  function Rank(s: State): nat {
    if Drained(s) then 0 else 1 + 20 * WorkRank(s) + TimeoutRank(s.timeout) + WriterRank(s.writer)
  }

  lemma ChoiceIsEnabled(s: State)
    requires WellFormed(s) && LockOk(s) && NotForgotten(s) && Pushed(s) && !Drained(s)
    ensures Enabled(s, Choice(s)) && Internal(Choice(s))
  {
  }

  lemma WorkRanksLower(s: State)
    requires WellFormed(s) && LockOk(s) && NotForgotten(s) && Pushed(s) && !Drained(s) && Enabled(s, WorkDoes)
    requires Choice(s).WorkDoes? && !s.work.Strobe?
    ensures var t := WorkStep(s);
            t.head == s.head && t.tail == s.tail && |t.page| == |s.page| && Rank(t) < Rank(s)
  {
    hide WriterOk, ManyFree;
  }

  lemma WorkMakesProgress(s: State)
    requires WellFormed(s) && LockOk(s) && NotForgotten(s) && Pushed(s) && !Drained(s) && Enabled(s, WorkDoes)
    requires Choice(s).WorkDoes? && WellFormed(WorkStep(s))
    ensures var t := WorkStep(s);
            t.head == s.head && (Used(t) < Used(s) || (Used(t) == Used(s) && Rank(t) < Rank(s)))
  {
    hide WriterOk, Rank, LockOk, NotForgotten, Pushed;
    if s.work.Strobe? {
      AdvanceTailRemoves(s.page, s.head, s.tail, 1);
    } else {
      hide WorkStep;
      WorkRanksLower(s);
    }
  }

  lemma WriterMakesProgress(s: State)
    requires WellFormed(s) && LockOk(s) && NotForgotten(s) && !Drained(s) && Enabled(s, Choice(s))
    requires Choice(s).WriterDoes?
    ensures var t := Step(s, Choice(s));
            t.head == s.head && t.tail == s.tail && |t.page| == |s.page| && Rank(t) < Rank(s)
  {
    hide WellFormed;
  }

  lemma TimerMakesProgress(s: State)
    requires WellFormed(s) && LockOk(s) && NotForgotten(s) && Pushed(s) && !Drained(s) && Enabled(s, Choice(s))
    requires !Choice(s).WorkDoes? && !Choice(s).WriterDoes?
    ensures var t := Step(s, Choice(s));
            t.head == s.head && t.tail == s.tail && |t.page| == |s.page| && Rank(t) < Rank(s)
  {
  }

  // From every reachable state the engine can print everything and go inactive on its own,
  // with no further interrupt from the printer.
  lemma {:induction false} CanAlwaysDrain(s: State) returns (events: seq<Event>, t: State)
    requires Inv(s)
    ensures Run(s, events, t) && Drained(t) && t.head == s.head
    ensures forall e <- events :: Internal(e)
    decreases Used(s), Rank(s)
  {
    if Drained(s) {
      return [], s;
    }
    var e := Choice(s);
    ChoiceIsEnabled(s);
    StepKeepsInv(s, e);
    if e.WorkDoes? {
      WorkMakesProgress(s);
    } else if e.WriterDoes? {
      WriterMakesProgress(s);
    } else {
      TimerMakesProgress(s);
    }
    var rest;
    rest, t := CanAlwaysDrain(Step(s, e));
    events := [e] + rest;
    assert events[1..] == rest;
  }

  // ---- and every run without new data empties it, one byte for each work item that completes ----

  predicate NothingNew(events: seq<Event>) {
    forall e <- events :: !(e.WriterDoes? && e.w.Publish?)
  }

  predicate NothingStarted(events: seq<Event>) {
    forall e <- events :: !(e.WriterDoes? && e.w.Activate?)
  }

  // The work items that complete in a run.
  function CompletedItems(s: State, events: seq<Event>): nat
    decreases |events|
  {
    if events == [] || !WellFormed(s) || !Enabled(s, events[0]) then 0
    else (if Completes(s, events[0]) then 1 else 0) + CompletedItems(Step(s, events[0]), events[1..])
  }

  predicate Completes(s: State, e: Event) {
    e.WorkDoes? && s.work.UnlockWork?
  }

  // The items it takes for certain to send what is stored: the one under way counts extra if it is past its
  // send, or has found the ring empty before the bytes came.
  function ItemsNeeded(s: State): int
    requires Indexed(s)
  {
    Used(s) + if s.work.WakeWriters? || s.work.UnlockWork? || (InLockedWork(s.work) && StopsFull(s)) then 1 else 0
  }

  predicate StopsFull(s: State) {
    (s.work.ClearActive? || s.work.DelTimer?) && s.head != s.tail
  }

  lemma StrobeSendsOne(s: State)
    requires Inv(s) && s.work.Strobe?
    ensures ItemsNeeded(WorkStep(s)) == ItemsNeeded(s)
  {
    hide StreamOk, HalfFull, WriterOk, LockOk, NotForgotten, Pushed;
    AdvanceTailRemoves(s.page, s.head, s.tail, 1);
  }

  lemma ItemSendsOne(s: State)
    requires Inv(s) && Enabled(s, WorkDoes)
    ensures var t := WorkStep(s);
            && (s.head == s.tail ==> t.head == t.tail)
            && (Drained(s) ==> Drained(t))
            && (Drained(t) || ItemsNeeded(t) == ItemsNeeded(s) - if s.work.UnlockWork? then 1 else 0)
  {
    hide StreamOk, HalfFull, WriterOk, Occupancy;
    if s.work.Strobe? {
      StrobeSendsOne(s);
    }
  }

  lemma WriterSendsNothing(s: State, e: WriterEvent)
    requires WellFormed(s) && WriterCan(s, e) && !e.Publish?
    ensures var t := WriterStep(s, e);
            t.head == s.head && |t.page| == |s.page| && (t.active ==> e.Activate? || s.active)
  {
    hide AfterSpaceTest, SpaceFrom;
  }

  lemma OthersSendNothing(s: State, e: Event)
    requires Inv(s) && Enabled(s, e) && !e.WorkDoes? && !(e.WriterDoes? && e.w.Publish?)
    ensures var t := Step(s, e);
            && t.head == s.head && t.tail == s.tail && |t.page| == |s.page| && t.work == s.work
            && (t.active ==> (e.WriterDoes? && e.w.Activate?) || s.active)
  {
    hide StreamOk, HalfFull, WriterOk, WriterStep;
    if e.WriterDoes? {
      WriterSendsNothing(s, e.w);
    }
  }

  predicate Drains(s: State, items: nat, started: bool, t: State)
    requires Indexed(s) && Indexed(t)
  {
    && (s.head == s.tail ==> t.head == t.tail)
    && (Used(t) == 0 || Used(t) + items <= ItemsNeeded(s))
    && (!started && (Drained(s) || items > ItemsNeeded(s)) ==> Drained(t))
  }

  lemma DrainsThrough(s: State, e: Event, items: nat, started: bool, t: State)
    requires Inv(s) && Enabled(s, e) && !(e.WriterDoes? && e.w.Publish?) && Inv(Step(s, e)) && Indexed(t)
    requires e.WriterDoes? && e.w.Activate? ==> started
    requires Drains(Step(s, e), items, started, t)
    ensures Drains(s, items + if Completes(s, e) then 1 else 0, started, t)
  {
    hide StreamOk, HalfFull, WriterOk, WorkStep, WriterStep, TimeoutStep, LockOk, NotForgotten, Pushed;
    if e.WorkDoes? {
      ItemSendsOne(s);
    } else {
      OthersSendNothing(s, e);
    }
  }

  lemma {:induction false} DrainsAlong(s: State, events: seq<Event>, t: State)
    requires Inv(s) && Run(s, events, t) && NothingNew(events)
    ensures Inv(t) && Drains(s, CompletedItems(s, events), !NothingStarted(events), t)
    decreases |events|
  {
    hide StreamOk, HalfFull, WriterOk, Step, LockOk, NotForgotten, Pushed;
    if events != [] {
      hide ItemsNeeded, Drains;
      var e, rest := events[0], events[1..];
      StepKeepsInv(s, e);
      DrainsAlong(Step(s, e), rest, t);
      DrainsThrough(s, e, CompletedItems(Step(s, e), rest), !NothingStarted(events), t);
    }
  }

  // In every run that brings no new data, n completed work items leave n bytes fewer, or none at all; and with
  // one more, and no start of output, the output is inactive.
  lemma EveryRunDrains(s: State, events: seq<Event>, t: State)
    requires Reachable(s) && Run(s, events, t) && NothingNew(events)
    ensures Indexed(s) && Indexed(t)
    ensures t.head == t.tail || Used(t) + CompletedItems(s, events) <= ItemsNeeded(s)
    ensures NothingStarted(events) && CompletedItems(s, events) > ItemsNeeded(s) ==> Drained(t)
  {
    ReachableHasInv(s);
    DrainsAlong(s, events, t);
  }
}
