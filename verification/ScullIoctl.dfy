/** The part of scull_ioctl that sets, tells and exchanges the two geometry parameters. */
module ScullIoctl {
  import opened Options

  const SCULL_QUANTUM: nat := 4000
  const SCULL_QSET: nat := 1000
  const EPERM: int := -1
  const EFAULT: int := -14

  // The memory that a command points to: whether the address is one of the user's, whether it can
  // be read and written, and what a read that fails leaves behind.
  datatype UserMemory = UserMemory(inRange: bool, readable: bool, writable: bool, stray: nat)

  // The commands come in one set for the quantum and one for the size of the arrays.
  datatype IoctlCmd =
    | Reset
    | Set(ofQuantum: bool, value: nat)
    | Tell(ofQuantum: bool, value: nat)
    | Get(ofQuantum: bool)
    | Query(ofQuantum: bool)
    | Exchange(ofQuantum: bool, value: nat)
    | Shift(ofQuantum: bool, value: nat)
  {
    predicate OfQuantum() {
      !Reset? && ofQuantum
    }

    predicate UsesMemory() {
      Set? || Get? || Exchange?
    }

    // What the command stores in the parameter of the given kind, unless it is a reset.
    function Stores(quantum: bool, admin: bool, user: UserMemory): Option<nat> {
      if Reset? || Get? || Query? || ofQuantum != quantum || !admin || (UsesMemory() && !user.inRange) then None
      else if UsesMemory() && !user.readable then Some(user.stray)
      else Some(value)
    }

    function Returns(was: nat, admin: bool, user: UserMemory): int {
      if UsesMemory() && !user.inRange then EFAULT
      else match this
           case Reset => 0
           case Get(_) => if user.writable then 0 else EFAULT
           case Query(_) => was
           case Set(_, _) => if !admin then EPERM else if user.readable then 0 else EFAULT
           case Tell(_, _) => if !admin then EPERM else 0
           case Exchange(_, _) => if !admin then EPERM else if user.readable && user.writable then 0 else EFAULT
           case Shift(_, _) => if !admin then EPERM else was
    }

    // What the command puts into the user's memory.
    function Puts(was: nat, admin: bool, user: UserMemory): Option<nat> {
      if !user.inRange || !user.writable then None
      else match this
           case Get(_) => Some(was)
           case Exchange(_, _) => if admin && user.readable then Some(was) else None
           case _ => None
    }
  }

  datatype Call = Call(cmd: IoctlCmd, admin: bool, user: UserMemory)

  // The two parameters.
  datatype Knobs = Knobs(quantum: nat, qset: nat) {
    function Of(ofQuantum: bool): nat {
      if ofQuantum then quantum else qset
    }
  }

  function Tuned(k: Knobs, c: Call): Knobs {
    if c.cmd.Reset? then Knobs(SCULL_QUANTUM, SCULL_QSET)
    else
      Knobs(c.cmd.Stores(true, c.admin, c.user).GetOr(k.quantum), c.cmd.Stores(false, c.admin, c.user).GetOr(k.qset))
  }

  function TunedAll(k: Knobs, calls: seq<Call>): Knobs
    decreases |calls|
  {
    if calls == [] then k else TunedAll(Tuned(k, calls[0]), calls[1..])
  }

  function Answer(k: Knobs, c: Call): int {
    c.cmd.Returns(k.Of(c.cmd.OfQuantum()), c.admin, c.user)
  }

  function Put(k: Knobs, c: Call): Option<nat> {
    c.cmd.Puts(k.Of(c.cmd.OfQuantum()), c.admin, c.user)
  }

  // ---- what the commands are for ----

  // What a caller sees of a parameter, whoever asks and whatever its memory is like.
  ghost predicate Shows(k: Knobs, ofQuantum: bool, value: nat) {
    forall admin: bool, user: UserMemory :: Answer(k, Call(Query(ofQuantum), admin, user)) == value
  }

  // A privileged command with a value for the parameter, and memory that can be read if it needs it.
  predicate Delivers(c: Call, ofQuantum: bool, value: nat) {
    && c.admin && !c.cmd.Reset? && !c.cmd.Get? && !c.cmd.Query? && c.cmd.ofQuantum == ofQuantum
    && c.cmd.value == value
    && (c.cmd.Set? || c.cmd.Exchange? ==> c.user.inRange && c.user.readable)
  }

  // A command that leaves the parameter alone: one that only reads, one for the other parameter, one
  // without the privilege, or one whose address is not the user's.
  predicate Spares(c: Call, ofQuantum: bool) {
    match c.cmd
    case Reset => false
    case Get(_) => true
    case Query(_) => true
    case Tell(kind, _) => kind != ofQuantum || !c.admin
    case Shift(kind, _) => kind != ofQuantum || !c.admin
    case Set(kind, _) => kind != ofQuantum || !c.admin || !c.user.inRange
    case Exchange(kind, _) => kind != ofQuantum || !c.admin || !c.user.inRange
  }

  // A value that has been delivered is what every query shows, through any run of calls that spare the parameter.
  lemma {:induction false} StoredIsShown(k: Knobs, c: Call, later: seq<Call>, ofQuantum: bool, value: nat)
    requires Delivers(c, ofQuantum, value) && forall d <- later :: Spares(d, ofQuantum)
    ensures Shows(TunedAll(Tuned(k, c), later), ofQuantum, value)
  {
    SparedIsShown(Tuned(k, c), later, ofQuantum, value);
  }

  lemma {:induction false} SparedIsShown(k: Knobs, calls: seq<Call>, ofQuantum: bool, value: nat)
    requires Shows(k, ofQuantum, value) && forall d <- calls :: Spares(d, ofQuantum)
    ensures Shows(TunedAll(k, calls), ofQuantum, value)
    decreases |calls|
  {
    if calls != [] {
      SparedOnce(k, calls[0], ofQuantum, value);
      SparedIsShown(Tuned(k, calls[0]), calls[1..], ofQuantum, value);
    }
  }

  lemma SparedOnce(k: Knobs, c: Call, ofQuantum: bool, value: nat)
    requires Shows(k, ofQuantum, value) && Spares(c, ofQuantum)
    ensures Shows(Tuned(k, c), ofQuantum, value)
  {
    forall admin: bool, user: UserMemory
      ensures Answer(Tuned(k, c), Call(Query(ofQuantum), admin, user)) == value
    {
      assert Answer(k, Call(Query(ofQuantum), admin, user)) == value;
    }
  }

  // A reset, by anybody, brings back the two defaults.
  lemma ResetIsShown(k: Knobs, c: Call)
    requires c.cmd.Reset?
    ensures Shows(Tuned(k, c), true, 4000) && Shows(Tuned(k, c), false, 1000) && Answer(k, c) == 0
  {
  }

  // A shift is a query and a tell in one.
  lemma ShiftIsQueryAndTell(k: Knobs, ofQuantum: bool, value: nat, user: UserMemory)
    ensures var shift := Call(Shift(ofQuantum, value), true, user);
            && Shows(k, ofQuantum, k.Of(ofQuantum)) && Answer(k, shift) == k.Of(ofQuantum)
            && Tuned(k, shift) == Tuned(k, Call(Tell(ofQuantum, value), true, user))
  {
  }

  // An exchange through good memory is a get and a set in one: the user finds what queries showed before.
  lemma ExchangeIsGetAndSet(k: Knobs, ofQuantum: bool, value: nat, user: UserMemory)
    requires user.inRange && user.readable && user.writable
    ensures var exchange := Call(Exchange(ofQuantum, value), true, user);
            && Answer(k, exchange) == 0 && Shows(k, ofQuantum, k.Of(ofQuantum))
            && Put(k, exchange) == Put(k, Call(Get(ofQuantum), true, user)) == Some(k.Of(ofQuantum))
            && Tuned(k, exchange) == Tuned(k, Call(Set(ofQuantum, value), true, user))
  {
  }

  // The order of the checks: the address, then the privilege, then the accesses.
  lemma Refusals(k: Knobs, c: Call)
    ensures var memory := c.cmd.Set? || c.cmd.Get? || c.cmd.Exchange?;
            var stores := c.cmd.Set? || c.cmd.Tell? || c.cmd.Exchange? || c.cmd.Shift?;
            && (memory && !c.user.inRange ==> Answer(k, c) == -14 && Tuned(k, c) == k)
            && (stores && !c.admin && !(memory && !c.user.inRange) ==> Answer(k, c) == -1 && Tuned(k, c) == k)
            && (Answer(k, c) < 0 <==>
                  || (memory && !c.user.inRange)
                  || (stores && !c.admin)
                  || ((c.cmd.Set? || c.cmd.Exchange?) && !c.user.readable)
                  || ((c.cmd.Get? || c.cmd.Exchange?) && !c.user.writable))
            && (Answer(k, c) < 0 ==> Put(k, c).None?)
            && (Answer(k, c) >= 0 && !c.cmd.Query? && !c.cmd.Shift? ==> Answer(k, c) == 0)
  {
  }

  // A read of the user's memory that faults leaves in the parameter what it leaves, whatever value was meant.
  lemma FaultLeavesStray(k: Knobs, c: Call)
    requires c.admin && c.user.inRange && !c.user.readable && (c.cmd.Set? || c.cmd.Exchange?)
    ensures Shows(Tuned(k, c), c.cmd.ofQuantum, c.user.stray) && Answer(k, c) == -14
  {
  }

  // A command can fail and still change a parameter: exactly if a privileged caller's memory, at an
  // address of the user's, faults.
  lemma FailureCanStore(cmd: IoctlCmd, was: nat, admin: bool, user: UserMemory)
    ensures
      cmd.Returns(was, admin, user) < 0 && (exists ofQuantum :: cmd.Stores(ofQuantum, admin, user).Some?)
      <==>
      && admin && user.inRange
      && ((cmd.Set? && !user.readable) || (cmd.Exchange? && !(user.readable && user.writable)))
  {
    if cmd.Set? || cmd.Exchange? {
      assert cmd.Stores(cmd.ofQuantum, admin, user).Some? <==> admin && user.inRange;
    }
  }

  // ---- in place ----

  // scull_quantum and scull_qset, shared by all devices and changed by ioctl.
  class Params {
    var quantum: nat
    var qset: nat

    constructor (quantum: nat, qset: nat)
      ensures this.quantum == quantum && this.qset == qset
    {
      this.quantum, this.qset := quantum, qset;
    }

    predicate Positive()
      reads this
    {
      0 < quantum && 0 < qset
    }

    function View(): Knobs
      reads this
    {
      Knobs(quantum, qset)
    }

    // admin: the caller has CAP_SYS_ADMIN.  A failed read from the caller's memory still leaves something
    // in the variable.  put is what goes into the caller's memory.
    method ScullIoctl(cmd: IoctlCmd, admin: bool, user: UserMemory) returns (result: int, put: Option<nat>)
      modifies this
      ensures View() == Tuned(old(View()), Call(cmd, admin, user))
      ensures result == Answer(old(View()), Call(cmd, admin, user)) && put == Put(old(View()), Call(cmd, admin, user))
    {
      result, put := 0, None;
      if cmd.UsesMemory() && !user.inRange {
        result := EFAULT;
        return;
      }
      match cmd {
        case Reset =>
          quantum, qset := SCULL_QUANTUM, SCULL_QSET;
        case Set(ofQuantum, value) =>
          if !admin { return EPERM, None; }
          Assign(ofQuantum, if user.readable then value else user.stray);
          if !user.readable { return EFAULT, None; }
        case Tell(ofQuantum, value) =>
          if !admin { return EPERM, None; }
          Assign(ofQuantum, value);
        case Get(ofQuantum) =>
          if !user.writable { return EFAULT, None; }
          put := Some(if ofQuantum then quantum else qset);
        case Query(ofQuantum) =>
          result := if ofQuantum then quantum else qset;
        case Exchange(ofQuantum, value) =>
          if !admin { return EPERM, None; }
          var tmp := if ofQuantum then quantum else qset;
          Assign(ofQuantum, if user.readable then value else user.stray);
          if !user.readable || !user.writable { return EFAULT, None; }
          put := Some(tmp);
        case Shift(ofQuantum, value) =>
          if !admin { return EPERM, None; }
          result := if ofQuantum then quantum else qset;
          Assign(ofQuantum, value);
      }
    }

    method Assign(ofQuantum: bool, value: nat)
      modifies this
      ensures quantum == if ofQuantum then value else old(quantum)
      ensures qset == if ofQuantum then old(qset) else value
    {
      if ofQuantum { quantum := value; } else { qset := value; }
    }
  }
}
