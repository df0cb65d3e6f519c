/**
 The pipe device as a step machine for any number of processes.  Inside the semaphore a
 process takes one step per access.  The tests made on a wait queue happen outside the semaphore,
 one read of a pointer at a time, so they may mix values from before and after a move of the
 others, an open among them, and may see a pointer that has reached the end and has not wrapped yet.
 */
module Pipe {
  import opened Ring

  const EAGAIN: int := -11
  const EFAULT: int := -14
  const ERESTARTSYS: int := -512

  datatype Role = Reader(count: nat, nonblock: bool) | Writer(data: seq<byte>, nonblock: bool)

  datatype Pc =
    | Outside(result: int)
    | WantSem
    | Test
    | UpToWait
    | Enqueue
    | QueuedTest             // the test from inside the wait queue: about to read rp
    | QueuedWp(seen: nat)    // has read rp, about to compare it with wp
    | QueuedRp               // a writer that has found them unequal, about to read rp again
    | QueuedLast(seen: nat)  // about to read wp again
    | Asleep
    | Copy
    | Wrap(n: nat)
    | Up(n: nat)
    | WakeOthers(n: nat)
    | UpFault

  datatype Proc = Proc(role: Role, pc: Pc, woken: bool)

  type Pid = nat

  // head is wp, tail is rp
  datatype State = State(
    buf: seq<byte>,
    rp: nat,
    wp: nat,
    sem: int,
    procs: map<Pid, Proc>,
    delivered: seq<byte>,   // everything ever handed to readers
    accepted: seq<byte>,    // everything ever taken from writers
    outMark: nat,           // how much of either there was at the last open
    inMark: nat,
    left: set<Pid>)         // writers that an open has left asleep, or in their last read; not woken since

  datatype Event =
    | Open(buf: seq<byte>)   // the buffer in the size that is configured now
    | Call(pid: Pid, role: Role)
    | Go(pid: Pid, signal: bool, fault: bool)

  // ---- the arithmetic of the buffer ----

  function SpaceFree(size: nat, rp: nat, wp: nat): int
    requires 0 < size
  {
    if rp == wp then size - 1 else (rp + size - wp) % size - 1
  }

  function Min(a: int, b: int): int {
    if a < b then a else b
  }

  // How much one read or write moves.
  function Amount(size: nat, rp: nat, wp: nat, role: Role): int
    requires 0 < size
  {
    match role
    case Reader(count, _) => if wp > rp then Min(count, wp - rp) else Min(count, size - rp)
    case Writer(data, _) =>
      var count := Min(|data|, SpaceFree(size, rp, wp));
      if wp >= rp then Min(count, size - wp) else Min(count, rp - wp - 1)
  }

  // Why a process of this role has to wait.
  predicate Blocked(size: nat, rp: nat, wp: nat, role: Role)
    requires 0 < size
  {
    match role
    case Reader(_, _) => rp == wp
    case Writer(_, _) => SpaceFree(size, rp, wp) == 0
  }

  // The second half of spacefree, from a test outside the semaphore.
  predicate SaysFull(size: nat, seen: nat, wp: nat)
    requires 0 < size && wp <= size
  {
    (seen + size - wp) % size - 1 == 0
  }

  // A pointer at the end of the buffer stands for its start.
  function Norm(size: nat, p: nat): (q: nat)
    requires 0 < size && p <= size
    ensures q < size
  {
    if p == size then 0 else p
  }

  // ---- the steps ----

  // An open holds the semaphore from beginning to end; nobody else can be inside.
  predicate Enabled(s: State, e: Event) {
    match e
    case Open(buf) => s.sem > 0 && 0 < |buf|
    case Call(pid, _) => pid in s.procs && s.procs[pid].pc.Outside?
    case Go(pid, signal, _) =>
      && pid in s.procs && !s.procs[pid].pc.Outside?
      && (s.procs[pid].pc.WantSem? ==> s.sem > 0 || signal)
      && (s.procs[pid].pc.Asleep? ==> s.procs[pid].woken || signal)
  }

  predicate OnQueue(p: Proc) {
    p.pc.QueuedTest? || p.pc.QueuedWp? || p.pc.QueuedRp? || p.pc.QueuedLast? || p.pc.Asleep?
  }

  // wake_up_interruptible on the queue of the other role.
  function WakeAll(procs: map<Pid, Proc>, role: Role): (woken: map<Pid, Proc>)
    ensures woken.Keys == procs.Keys
  {
    map q | q in procs ::
      if OnQueue(procs[q]) && procs[q].role.Reader? != role.Reader? then procs[q].(woken := true) else procs[q]
  }

  // Where the answer of a test from inside the wait queue takes a process.
  function AfterQueuedTest(role: Role, blocked: bool, signal: bool): Pc {
    if blocked then (if role.Reader? && signal then Outside(ERESTARTSYS) else Asleep)
    else if role.Writer? && signal then Outside(ERESTARTSYS)
    else WantSem
  }

  // The pc after a step that changes nothing else but the semaphore.
  function NextPc(s: State, p: Proc, signal: bool): Pc
    requires 0 < |s.buf| && s.wp <= |s.buf|
  {
    var blocked := Blocked(|s.buf|, s.rp, s.wp, p.role);
    match p.pc
    case WantSem => if signal then Outside(ERESTARTSYS) else Test
    case Test => if blocked then UpToWait else Copy
    case UpToWait => if p.role.nonblock then Outside(EAGAIN) else Enqueue
    case Enqueue => QueuedTest
    case QueuedTest => QueuedWp(s.rp)
    case QueuedWp(seen) =>
      if p.role.Reader? then AfterQueuedTest(p.role, seen == s.wp, signal)
      else if seen == s.wp then AfterQueuedTest(p.role, |s.buf| - 1 == 0, signal)
      else QueuedRp
    case QueuedRp => QueuedLast(s.rp)
    case QueuedLast(seen) => AfterQueuedTest(p.role, SaysFull(|s.buf|, seen, s.wp), signal)
    case Asleep =>
      if p.role.Reader? then Enqueue
      else if signal then Outside(ERESTARTSYS)
      else WantSem
    case Copy => UpFault
    case Wrap(n) => Up(n)
    case Up(n) => WakeOthers(n)
    case WakeOthers(n) => Outside(n)
    case UpFault => Outside(EFAULT)
    case Outside(result) => Outside(result)
  }

  // down takes one, up gives one back.
  function SemChange(pc: Pc, signal: bool): int {
    match pc
    case WantSem => if signal then 0 else -1
    case UpToWait => 1
    case Up(_) => 1
    case UpFault => 1
    case _ => 0
  }

  predicate Transfers(p: Proc, fault: bool) {
    p.pc.Copy? && !fault
  }

  // Moving the bytes and advancing the pointer, which may now stand at the end.
  function Transfer(s: State, pid: Pid): State
    requires pid in s.procs && CanTransfer(s, s.procs[pid].role)
  {
    var p := s.procs[pid];
    var n := Amount(|s.buf|, s.rp, s.wp, p.role);
    var procs := s.procs[pid := p.(pc := Wrap(n))];
    match p.role
    case Reader(_, _) =>
      s.(rp := s.rp + n, delivered := s.delivered + s.buf[s.rp..s.rp + n], procs := procs)
    case Writer(data, _) =>
      s.(buf := Fill(s.buf, s.wp, data[..n]), wp := s.wp + n, accepted := s.accepted + data[..n], procs := procs)
  }

  predicate CanTransfer(s: State, role: Role) {
    && s.rp < |s.buf| && s.wp < |s.buf|
    && var n := Amount(|s.buf|, s.rp, s.wp, role);
       match role
       case Reader(_, _) => 0 <= n && s.rp + n <= |s.buf|
       case Writer(data, _) => 0 <= n <= |data| && s.wp + n <= |s.buf|
  }

  function Advance1(s: State, pid: Pid, signal: bool): State
    requires 0 < |s.buf| && s.wp <= |s.buf| && pid in s.procs
  {
    var p := s.procs[pid];
    var next := p.(pc := NextPc(s, p, signal), woken := p.woken && !p.pc.Enqueue?);
    s.(sem := s.sem + SemChange(p.pc, signal),
       rp := if p.pc.Wrap? && p.role.Reader? && s.rp == |s.buf| then 0 else s.rp,
       wp := if p.pc.Wrap? && p.role.Writer? && s.wp == |s.buf| then 0 else s.wp,
       procs := (if p.pc.WakeOthers? then WakeAll(s.procs, p.role) else s.procs)[pid := next],
       left := if p.pc.WakeOthers? && p.role.Reader? then {} else if next.pc.Asleep? then s.left else s.left - {pid})
  }

  // scull_p_open, on a buffer that is there: the size is set, the pointers are reset, and nobody is woken.
  function Opened(s: State, buf: seq<byte>): State {
    s.(buf := buf, rp := 0, wp := 0, outMark := |s.delivered|, inMark := |s.accepted|, left := Exposed(s))
  }

  // The writers that an open can mislead: asleep, or with rp already read for the last time.
  function Exposed(s: State): set<Pid> {
    set p | p in s.procs && IsExposed(s.procs[p])
  }

  predicate IsExposed(p: Proc) {
    p.role.Writer? && !p.woken && (p.pc.Asleep? || p.pc.QueuedLast?)
  }

  function SleepingWriters(s: State): set<Pid> {
    set p | p in s.procs && SleepsUnwoken(s.procs[p]) && s.procs[p].role.Writer?
  }

  function Step(s: State, e: Event): State
    requires WellFormed(s) && Enabled(s, e)
  {
    match e
    case Open(buf) => Opened(s, buf)
    case Call(pid, role) => s.(procs := s.procs[pid := Proc(role, WantSem, false)])
    case Go(pid, signal, fault) =>
      if Transfers(s.procs[pid], fault) then Transfer(s, pid) else Advance1(s, pid, signal)
  }

  ghost predicate Init(s: State) {
    && 0 < |s.buf| && s == State(s.buf, 0, 0, 1, s.procs, [], [], 0, 0, {})
    && forall p <- s.procs :: s.procs[p].pc.Outside?
  }

  // ---- the invariant ----

  // Between a down and its up.
  predicate Inside(pc: Pc) {
    pc.Test? || pc.UpToWait? || pc.Copy? || pc.Wrap? || pc.Up? || pc.UpFault?
  }

  predicate InsideAt(s: State, p: Pid) {
    p in s.procs && Inside(s.procs[p].pc)
  }

  // At most one process is inside, and the semaphore knows.
  ghost predicate Exclusive(s: State) {
    && 0 <= s.sem <= 1
    && (s.sem == 1 ==> forall p: Pid :: !InsideAt(s, p))
    && (s.sem == 0 ==> exists p: Pid :: InsideAt(s, p))
    && (forall p: Pid, q: Pid :: InsideAt(s, p) && InsideAt(s, q) ==> p == q)
  }

  predicate PointersIn(s: State) {
    0 < |s.buf| && s.rp <= |s.buf| && s.wp <= |s.buf|
  }

  // Only the process that is about to wrap a pointer leaves it at the end.
  ghost predicate PointersOk(s: State) {
    && PointersIn(s)
    && (s.rp == |s.buf| ==> exists p <- s.procs :: s.procs[p].pc.Wrap? && s.procs[p].role.Reader?)
    && (s.wp == |s.buf| ==> exists p <- s.procs :: s.procs[p].pc.Wrap? && s.procs[p].role.Writer?)
  }

  ghost predicate WellFormed(s: State) {
    && PointersOk(s)
    && forall p <- s.procs :: s.procs[p].pc.Copy? ==>
         CanTransfer(s, s.procs[p].role) && !Blocked(|s.buf|, s.rp, s.wp, s.procs[p].role)
  }

  function Stored(s: State): seq<byte>
    requires PointersIn(s)
  {
    Contents(s.buf, Norm(|s.buf|, s.wp), Norm(|s.buf|, s.rp))
  }

  function Used(s: State): int
    requires PointersIn(s)
  {
    Occupancy(|s.buf|, Norm(|s.buf|, s.wp), Norm(|s.buf|, s.rp))
  }

  ghost predicate StreamOk(s: State)
    requires PointersOk(s)
  {
    && s.outMark <= |s.delivered| && s.inMark <= |s.accepted|
    && s.delivered[s.outMark..] + Stored(s) == s.accepted[s.inMark..]
  }

  predicate SleepsUnwoken(p: Proc) {
    p.pc.Asleep? && !p.woken
  }

  // Has moved its pointer and not issued its wake-up yet.
  predicate WillWake(p: Proc) {
    p.pc.Wrap? || p.pc.Up? || p.pc.WakeOthers?
  }

  ghost predicate WriterWillWake(s: State) {
    exists q <- s.procs :: s.procs[q].role.Writer? && WillWake(s.procs[q])
  }

  ghost predicate ReaderWillWake(s: State) {
    exists q <- s.procs :: s.procs[q].role.Reader? && WillWake(s.procs[q])
  }

  predicate LeftOk(s: State) {
    s.left <= Exposed(s)
  }

  // A reader asleep beside data, or a writer asleep beside space, is owed a wake-up.
  ghost predicate SleeperOwed(s: State, p: Pid)
    requires PointersIn(s) && p in s.procs
  {
    SleepsUnwoken(s.procs[p]) ==>
      if s.procs[p].role.Reader? then Used(s) > 0 ==> WriterWillWake(s)
      else Used(s) < |s.buf| - 1 ==> p in s.left || ReaderWillWake(s)
  }

  // A reader that is going to sleep although there is data.
  predicate MisledReader(s: State, p: Proc)
    requires PointersIn(s)
  {
    p.role.Reader? && !p.woken && p.pc.QueuedWp? && p.pc.seen == s.wp && Used(s) > 0
  }

  // A writer with an rp that is no longer true.
  predicate MisledWriter(s: State, p: Proc) {
    p.role.Writer? && !p.woken && p.pc.QueuedLast? && p.pc.seen != s.rp
  }

  // So is whoever will fall asleep on what it has read; and only writers read the pointers twice.
  ghost predicate TesterOwed(s: State, p: Pid)
    requires PointersIn(s) && p in s.procs
  {
    && (s.procs[p].pc.QueuedRp? || s.procs[p].pc.QueuedLast? ==> s.procs[p].role.Writer?)
    && (MisledReader(s, s.procs[p]) ==> WriterWillWake(s))
    && (MisledWriter(s, s.procs[p]) ==> p in s.left || ReaderWillWake(s))
  }

  ghost predicate SleepersOwed(s: State)
    requires PointersIn(s)
  {
    forall p <- s.procs :: SleeperOwed(s, p)
  }

  ghost predicate TestersOwed(s: State)
    requires PointersIn(s)
  {
    forall p <- s.procs :: TesterOwed(s, p)
  }

  ghost predicate NoLostWakeup(s: State)
    requires PointersIn(s)
  {
    SleepersOwed(s) && TestersOwed(s)
  }

  ghost predicate Inv(s: State) {
    WellFormed(s) && Exclusive(s) && StreamOk(s) && LeftOk(s) && NoLostWakeup(s)
  }
}
