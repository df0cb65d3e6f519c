/** Exactly when a sleeping printer writer can be left behind beside an empty ring. */
module ShortPrintSleeper {
  import opened Options
  import opened Ring
  import opened ShortPrint
  import opened ShortPrintSafety
  import opened ShortPrintRuns

  // Two bytes are stored, or one and the wake test is the next thing that happens to it.
  predicate Guarded(s: State)
    requires WellFormed(s)
  {
    Used(s) >= 2 || (s.work.WakeWriters? && Used(s) == 1)
  }

  // The ring has been emptied, and nobody has woken the writer.
  predicate Stranded(s: State) {
    SleepsUnwoken(s) && s.head == s.tail
  }

  // The sleeper does nothing itself: no signal arrives.
  predicate WithoutWriter(events: seq<Event>) {
    forall e <- events :: !e.WriterDoes?
  }

  ghost predicate CanStrand(s: State) {
    exists events: seq<Event>, t: State :: WithoutWriter(events) && Run(s, events, t) && Stranded(t)
  }

  // The byte before the last one takes the sleeper along: the wake test after it succeeds.
  lemma GuardHolds(s: State, e: Event)
    requires Inv(s) && SleepsUnwoken(s) && Guarded(s) && Enabled(s, e) && !e.WriterDoes?
    ensures WellFormed(Step(s, e))
    ensures SleepsUnwoken(Step(s, e)) ==> Guarded(Step(s, e))
  {
    StepKeepsInv(s, e);
    if e.WorkDoes? {
      if s.work.Strobe? {
        AdvanceTailRemoves(s.page, s.head, s.tail, 1);
      } else if s.work.WakeWriters? {
        ManyFreeMeans(|s.page|, s.head, s.tail);
      }
    }
  }

  // Once awake, a writer does not fall asleep again by the steps of others.
  lemma AwakeStaysAwake(s: State, e: Event)
    requires WellFormed(s) && Enabled(s, e) && !e.WriterDoes? && !SleepsUnwoken(s)
    ensures !SleepsUnwoken(Step(s, e))
  {
  }

  lemma {:induction false} GuardHoldsAllAlong(s: State, events: seq<Event>, t: State)
    requires Inv(s) && (SleepsUnwoken(s) ==> Guarded(s)) && WithoutWriter(events) && Run(s, events, t)
    ensures !Stranded(t)
    decreases |events|
  {
    if events == [] {
      assert Used(s) == 0 <==> s.head == s.tail;
    } else {
      StepKeepsInv(s, events[0]);
      if SleepsUnwoken(s) {
        GuardHolds(s, events[0]);
      } else {
        AwakeStaysAwake(s, events[0]);
      }
      GuardHoldsAllAlong(Step(s, events[0]), events[1..], t);
    }
  }

  // With at most one byte stored and no wake test due, the next step of the engine wakes nobody.
  lemma UnguardedStep(s: State)
    requires Inv(s) && SleepsUnwoken(s) && !Guarded(s) && s.head != s.tail
    ensures var e := Choice(s);
            && !e.WriterDoes? && Enabled(s, e) && Inv(Step(s, e))
            && var t := Step(s, e);
               && SleepsUnwoken(t) && !Guarded(t)
               && (Used(t) < Used(s) || (Used(t) == Used(s) && Rank(t) < Rank(s)))
  {
    hide StreamOk, HalfFull, WriterOk;
    var e := Choice(s);
    ChoiceIsEnabled(s);
    StepKeepsInv(s, e);
    if e.WorkDoes? {
      WorkMakesProgress(s);
    } else {
      TimerMakesProgress(s);
    }
  }

  lemma {:induction false} UnguardedStrands(s: State) returns (events: seq<Event>, t: State)
    requires Inv(s) && SleepsUnwoken(s) && !Guarded(s)
    ensures WithoutWriter(events) && Run(s, events, t) && Stranded(t)
    decreases Used(s), Rank(s)
  {
    if s.head == s.tail {
      return [], s;
    }
    var e := Choice(s);
    UnguardedStep(s);
    var rest;
    rest, t := UnguardedStrands(Step(s, e));
    events := [e] + rest;
    assert events[1..] == rest;
  }

  // For every page size: a sleeping writer is woken before the ring is empty, in every run, exactly
  // if two bytes are stored when it sleeps, or one whose wake test is due.
  lemma StrandedExactly(s: State)
    requires Reachable(s) && SleepsUnwoken(s)
    ensures WellFormed(s) && (CanStrand(s) <==> !Guarded(s))
  {
    ReachableHasInv(s);
    if CanStrand(s) {
      var events: seq<Event>, t: State :| WithoutWriter(events) && Run(s, events, t) && Stranded(t);
      if Guarded(s) {
        GuardHoldsAllAlong(s, events, t);
      }
    }
    if !Guarded(s) {
      var events, t := UnguardedStrands(s);
    }
  }

  // And then it sleeps for ever: no step of anybody else wakes it or stores a byte.
  lemma {:induction false} StrandedForEver(s: State, events: seq<Event>, t: State)
    requires Inv(s) && Stranded(s) && WithoutWriter(events) && Run(s, events, t)
    ensures Stranded(t) && t.head == s.head
    decreases |events|
  {
    if events != [] {
      StepKeepsInv(s, events[0]);
      StrandedStep(s, events[0]);
      StrandedForEver(Step(s, events[0]), events[1..], t);
    }
  }

  lemma StrandedStep(s: State, e: Event)
    requires Inv(s) && Stranded(s) && Enabled(s, e) && !e.WriterDoes?
    ensures Stranded(Step(s, e)) && Step(s, e).head == s.head
  {
    ManyFreeMeans(|s.page|, s.head, s.tail);
  }

  // A test in one step, which finds no space at all, never leaves a writer unguarded.
  lemma WholeTestIsGuarded(s: State)
    requires Reachable(s) && SleepsUnwoken(s) && s.writer.value.pc.found >= 0
    ensures WellFormed(s) && Guarded(s)
  {
    ReachableHasInv(s);
  }
}
