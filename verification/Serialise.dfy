/**
 Request and discovery threads of one server, interleaved access by access under data_mutex with each other
 and with the snapshots that replace the table after a demotion. The ack is read after the mutex has been
 released, through the slot the thread has looked up.
 */
module Serialise {
  import opened Machine
  import opened Ledgers
  import opened History
  import opened Banks
  import opened ClientTables
  import opened Options

  datatype Pc =
    | Ready
    | Locked                          // holds the mutex, has not looked at the table yet
    | Looked(s: nat, d: nat)          // source registered, both slots found, transfer admitted
    | Debited(s: nat, d: nat)
    | Credited(s: nat, d: nat)
    | Counted(s: nat, d: nat)
    | Leaving(slot: Option<nat>)      // about to release the mutex
    | Unlocked(slot: Option<nat>)     // about to read the ack from this slot
    | Done(ack: Option<Ack>)
  {
    predicate Critical() {
      !Ready? && !Unlocked? && !Done?
    }
  }

  datatype Thread = Thread(op: Op, pc: Pc)

  /**
   order lists the threads as they acquired the mutex; those from mark on did so after the last snapshot was
   applied, and base is that snapshot's history. served continues base with their operations, and found is
   the ledger as the last of them found it.
   */
  datatype State = State(ledger: Ledger, holder: Option<nat>, threads: seq<Thread>, order: seq<nat>,
                         base: seq<Op>, mark: nat, served: seq<Op>, found: Ledger)

  datatype Step =
    | Spawn(op: Op)
    | Acquire(t: nat)
    | Work(t: nat)
    | Install(history: seq<Op>)       // apply_state_update, with the ledger of some history

  predicate Enabled(s: State, a: Step) {
    match a
    case Spawn(_) => true
    case Acquire(t) => t < |s.threads| && s.threads[t].pc.Ready? && s.holder.None?
    case Work(t) => t < |s.threads| && !s.threads[t].pc.Ready? && !s.threads[t].pc.Done? &&
                    (s.threads[t].pc.Critical() ==> s.holder == Some(t) && Fits(s.ledger, s.threads[t]))
    case Install(_) => s.holder.None?
  }

  /** The slot pointers a thread holds are inside the table. */
  predicate Fits(l: Ledger, th: Thread) {
    (th.pc.Looked? || th.pc.Debited? || th.pc.Credited? || th.pc.Counted?) ==>
      th.op.Transfer? && th.pc.s < |l.clients| && th.pc.d < |l.clients|
  }

  function SlotOf(l: Ledger, op: Op): Option<nat> {
    if op.Transfer? && Known(l, op.source) then Some(Find(l.clients, op.source)) else None
  }

  /** One access of the lock holder: the ledger it leaves and where it stands. */
  function Advance(l: Ledger, op: Op, pc: Pc): (Ledger, Pc)
    requires pc.Critical() && Fits(l, Thread(op, pc))
  {
    match pc
    case Locked =>
      if op.Discover? then (Register(l, op.ip), Leaving(None))
      else
        var r := Register(l, op.source);
        if Verdict(r, op).Committed? then (r, Looked(Find(r.clients, op.source), Find(r.clients, op.dest)))
        else (Decide(r, op), Leaving(SlotOf(r, op)))
    case Looked(s, d) => (l.(clients := Debit(l.clients, s, op.value)), Debited(s, d))
    case Debited(s, d) => (l.(clients := Credit(l.clients, d, op.value)), Credited(s, d))
    case Credited(s, d) => (Count(l, op.value), Counted(s, d))
    case Counted(s, d) => (l.(clients := Mark(l.clients, s, op.seqn)), Leaving(Some(s)))
    case Leaving(slot) => (l, Unlocked(slot))
    case _ => (l, pc)
  }

  /** The ack as the thread reads it, from whatever its slot holds by then. */
  function ReadAck(l: Ledger, slot: Option<nat>): Option<Ack> {
    if slot.None? || slot.value >= |l.clients| then None
    else Some(Ack(l.clients[slot.value].lastReq, l.clients[slot.value].balance))
  }

  function Do(s: State, a: Step): State
    requires Enabled(s, a)
  {
    match a
    case Spawn(op) => s.(threads := s.threads + [Thread(op, Ready)])
    case Acquire(t) =>
      s.(holder := Some(t), threads := s.threads[t := s.threads[t].(pc := Locked)], order := s.order + [t],
         served := s.served + [s.threads[t].op], found := s.ledger)
    case Work(t) =>
      var th := s.threads[t];
      if th.pc.Unlocked? then s.(threads := s.threads[t := th.(pc := Done(ReadAck(s.ledger, th.pc.slot)))])
      else
        var (l, pc) := Advance(s.ledger, th.op, th.pc);
        s.(ledger := l, holder := if pc.Critical() then s.holder else None, threads := s.threads[t := th.(pc := pc)])
    case Install(history) => s.(ledger := Run(history), base := history, mark := |s.order|, served := history)
  }

  /** Where the ledger stands while op runs its critical section on top of l. */
  function Partial(l: Ledger, op: Op, pc: Pc): Ledger
    requires pc.Critical() && op.Transfer?
    requires var r := Register(l, op.source); pc.Locked? || pc.Leaving? || (Known(r, op.source) && Known(r, op.dest))
  {
    var r := Register(l, op.source);
    var s, d := Find(r.clients, op.source), Find(r.clients, op.dest);
    match pc
    case Locked => l
    case Looked(_, _) => r
    case Debited(_, _) => r.(clients := Debit(r.clients, s, op.value))
    case Credited(_, _) => r.(clients := Credit(Debit(r.clients, s, op.value), d, op.value))
    case Counted(_, _) => Count(r.(clients := Credit(Debit(r.clients, s, op.value), d, op.value)), op.value)
    case _ => Apply(l, op)
  }

  /** The holder is somewhere inside op, which found the ledger in state l. */
  ghost predicate Inside(l: Ledger, now: Ledger, th: Thread) {
    var op, pc := th.op, th.pc;
    if op.Discover? then (pc.Locked? && now == l) || (pc.Leaving? && now == Apply(l, op) && pc.slot == None)
    else
      var r := Register(l, op.source);
      && pc.Critical()
      && (!pc.Locked? && !pc.Leaving? ==>
            Verdict(r, op).Committed? && pc.s == Find(r.clients, op.source) && pc.d == Find(r.clients, op.dest))
      && now == Partial(l, op, pc)
      && (pc.Leaving? ==> pc.slot == SlotOf(now, op))
  }

  /** No access moves a client to another slot. */
  lemma AdvanceExtends(l: Ledger, op: Op, pc: Pc)
    requires pc.Critical() && Fits(l, Thread(op, pc))
    ensures ExtendsIps(l.clients, Advance(l, op, pc).0.clients)
  {
  }

  lemma SameSlot(l: Ledger, l': Ledger, op: Op)
    requires ExtendsIps(l.clients, l'.clients) && SlotOf(l, op).Some?
    ensures SlotOf(l', op) == SlotOf(l, op)
  {
    FindStable(l.clients, l'.clients, op.source);
  }

  lemma DecidedSlot(r: Ledger, op: Op)
    requires op.Transfer?
    ensures SlotOf(Decide(r, op), op) == SlotOf(r, op)
  {
    if Known(r, op.source) {
      SameSlot(r, Decide(r, op), op);
    }
  }

  lemma AdvanceInside(l: Ledger, now: Ledger, th: Thread)
    requires Inside(l, now, th)
    ensures Fits(now, th)
    ensures var (now', pc') := Advance(now, th.op, th.pc);
            if pc'.Critical() then Inside(l, now', th.(pc := pc'))
            else pc'.Unlocked? && now' == Apply(l, th.op) && (th.op.Transfer? ==> pc'.slot == SlotOf(now', th.op))
  {
    if th.op.Transfer? {
      DecidedSlot(Register(l, th.op.source), th.op);
    }
  }

  function Ops(threads: seq<Thread>, order: seq<nat>): (ops: seq<Op>)
    requires forall k | 0 <= k < |order| :: order[k] < |threads|
    ensures |ops| == |order| && forall k | 0 <= k < |ops| :: ops[k] == threads[order[k]].op
  {
    seq(|order|, k requires 0 <= k < |order| && order[k] < |threads| => threads[order[k]].op)
  }

  /** Every thread that is past waiting for the mutex has had it, exactly once. */
  ghost predicate OrderOk(s: State) {
    && (forall k | 0 <= k < |s.order| :: s.order[k] < |s.threads|)
    && (forall i, j | 0 <= i < j < |s.order| :: s.order[i] != s.order[j])
    && (forall t | 0 <= t < |s.threads| :: t in s.order <==> !s.threads[t].pc.Ready?)
    && s.mark <= |s.order|
  }

  /** Where the k-th holder of the mutex stands in what has been served. */
  function Turn(s: State, k: nat): nat
    requires s.mark <= k
  {
    |s.base| + k - s.mark
  }

  ghost predicate ServedOk(s: State)
    requires OrderOk(s)
  {
    && |s.served| == Turn(s, |s.order|) && s.base <= s.served
    && (forall k | s.mark <= k < |s.order| :: s.served[Turn(s, k)] == s.threads[s.order[k]].op)
  }

  /** Thread t is inside its critical section, and has found what all before it had left. */
  ghost predicate Holds(s: State, t: nat) {
    var n := |s.served| - 1;
    && s.mark < |s.order| && s.order[|s.order| - 1] == t && t < |s.threads|
    && 0 <= n && s.served[n] == s.threads[t].op
    && s.found == Run(s.served[..n])
    && Inside(s.found, s.ledger, s.threads[t])
  }

  /** Between critical sections the ledger is that of the operations served, one after the other. */
  ghost predicate LedgerOk(s: State) {
    && (forall t | 0 <= t < |s.threads| :: s.threads[t].pc.Critical() ==> s.holder == Some(t))
    && match s.holder
       case None => s.ledger == Run(s.served)
       case Some(t) => Holds(s, t)
  }

  ghost predicate Inv(s: State) {
    OrderOk(s) && ServedOk(s) && LedgerOk(s)
  }

  ghost predicate Init(s: State) {
    s == State(EMPTY, None, [], [], [], 0, [], EMPTY)
  }

  lemma SpawnKeepsOrder(s: State, op: Op)
    requires OrderOk(s) && ServedOk(s)
    ensures OrderOk(Do(s, Spawn(op))) && ServedOk(Do(s, Spawn(op)))
  {
  }

  lemma AcquireKeepsOrder(s: State, t: nat)
    requires OrderOk(s) && Enabled(s, Acquire(t))
    ensures OrderOk(Do(s, Acquire(t)))
  {
  }

  lemma AcquireKeepsServed(s: State, t: nat)
    requires OrderOk(s) && ServedOk(s) && Enabled(s, Acquire(t)) && OrderOk(Do(s, Acquire(t)))
    ensures ServedOk(Do(s, Acquire(t)))
  {
  }

  lemma WorkKeepsOrder(s: State, t: nat)
    requires OrderOk(s) && ServedOk(s) && Enabled(s, Work(t))
    ensures OrderOk(Do(s, Work(t))) && ServedOk(Do(s, Work(t)))
  {
  }

  lemma StepKeepsOrder(s: State, a: Step)
    requires OrderOk(s) && ServedOk(s) && Enabled(s, a)
    ensures OrderOk(Do(s, a)) && ServedOk(Do(s, a))
  {
    match a {
      case Spawn(op) => SpawnKeepsOrder(s, op);
      case Acquire(t) =>
        AcquireKeepsOrder(s, t);
        AcquireKeepsServed(s, t);
      case Work(t) => WorkKeepsOrder(s, t);
      case Install(_) =>
    }
  }

  lemma HoldsCarries(s: State, s': State, t: nat)
    requires Holds(s, t) && t < |s'.threads| && s'.threads[t] == s.threads[t]
    requires s'.ledger == s.ledger && s'.found == s.found && s'.served == s.served
    requires s'.order == s.order && s'.mark == s.mark
    ensures Holds(s', t)
  {
  }

  lemma SpawnKeepsLedger(s: State, op: Op)
    requires LedgerOk(s)
    ensures LedgerOk(Do(s, Spawn(op)))
  {
    if s.holder.Some? {
      HoldsCarries(s, Do(s, Spawn(op)), s.holder.value);
    }
  }

  lemma AcquireKeepsLedger(s: State, t: nat)
    requires LedgerOk(s) && s.mark <= |s.order| && Enabled(s, Acquire(t))
    ensures LedgerOk(Do(s, Acquire(t)))
  {
    assert (s.served + [s.threads[t].op])[..|s.served|] == s.served;
  }

  lemma RunLast(ops: seq<Op>)
    requires ops != []
    ensures Run(ops) == Apply(Run(ops[..|ops| - 1]), ops[|ops| - 1])
  {
  }

  lemma CriticalStays(s: State, t: nat)
    requires Holds(s, t) && Enabled(s, Work(t)) && s.threads[t].pc.Critical()
    ensures Do(s, Work(t)).threads[t].pc.Critical() ==> Holds(Do(s, Work(t)), t)
  {
    AdvanceInside(s.found, s.ledger, s.threads[t]);
  }

  lemma CriticalLeaves(s: State, t: nat)
    requires Holds(s, t) && Enabled(s, Work(t)) && s.threads[t].pc.Critical()
    ensures !Do(s, Work(t)).threads[t].pc.Critical() ==> Do(s, Work(t)).ledger == Run(s.served)
  {
    RunLast(s.served);
    AdvanceInside(s.found, s.ledger, s.threads[t]);
  }

  lemma CriticalKeepsLedger(s: State, t: nat)
    requires LedgerOk(s) && Enabled(s, Work(t)) && s.threads[t].pc.Critical()
    ensures LedgerOk(Do(s, Work(t)))
  {
    CriticalStays(s, t);
    CriticalLeaves(s, t);
    assert forall u | 0 <= u < |s.threads| && u != t :: Do(s, Work(t)).threads[u] == s.threads[u];
  }

  lemma AckKeepsLedger(s: State, t: nat)
    requires LedgerOk(s) && Enabled(s, Work(t)) && s.threads[t].pc.Unlocked?
    ensures LedgerOk(Do(s, Work(t)))
  {
    if s.holder.Some? {
      HoldsCarries(s, Do(s, Work(t)), s.holder.value);
    }
  }

  lemma StepKeepsInv(s: State, a: Step)
    requires Inv(s) && Enabled(s, a)
    ensures Inv(Do(s, a))
  {
    StepKeepsOrder(s, a);
    match a {
      case Spawn(op) => SpawnKeepsLedger(s, op);
      case Acquire(t) => AcquireKeepsLedger(s, t);
      case Work(t) =>
        if s.threads[t].pc.Critical() {
          CriticalKeepsLedger(s, t);
        } else {
          AckKeepsLedger(s, t);
        }
      case Install(_) =>
    }
  }

  ghost predicate Next(s: State, s': State) {
    exists a :: Enabled(s, a) && s' == Do(s, a)
  }

  ghost predicate IsRun(run: seq<State>) {
    run != [] && Init(run[0]) && forall k | 0 < k < |run| :: Next(run[k - 1], run[k])
  }

  lemma {:induction false} RunInv(run: seq<State>, k: nat)
    requires IsRun(run) && k < |run|
    ensures Inv(run[k])
  {
    if k > 0 {
      RunInv(run, k - 1);
      assert Next(run[k - 1], run[k]);
      var a :| Enabled(run[k - 1], a) && run[k] == Do(run[k - 1], a);
      StepKeepsInv(run[k - 1], a);
    }
  }

  /** The mutex holder always finds the slots it looked up, so it can always take its next step. */
  lemma HolderNeverStuck(run: seq<State>, k: nat, t: nat)
    requires IsRun(run) && k < |run| && t < |run[k].threads| && run[k].threads[t].pc.Critical()
    ensures Enabled(run[k], Work(t))
  {
    RunInv(run, k);
    AdvanceInside(run[k].found, run[k].ledger, run[k].threads[t]);
  }

  /**
   Serialisability: in every reachable state with the mutex free, the ledger is that of the last snapshot
   applied, continued by the threads that have held the mutex since, run whole, one after the other, each
   exactly once, in the order they got it. Without a snapshot it is theirs alone.
   */
  lemma Serialisable(run: seq<State>, k: nat)
    requires IsRun(run) && k < |run| && run[k].holder.None?
    ensures OrderOk(run[k])
    ensures run[k].ledger == RunFrom(Run(run[k].base), Ops(run[k].threads, run[k].order)[run[k].mark..])
  {
    RunInv(run, k);
    var since := Ops(run[k].threads, run[k].order)[run[k].mark..];
    assert run[k].served == run[k].base + since;
    RunConcat(EMPTY, run[k].base, since);
  }

  /** The request of thread t was accepted when its turn came, after the last snapshot. */
  ghost predicate AcceptedThread(s: State, t: nat)
    requires OrderOk(s) && ServedOk(s)
  {
    exists i | s.mark <= i < |s.order| :: s.order[i] == t && AcceptedAt(s.served, Turn(s, i))
  }

  lemma RunOrderOk(run: seq<State>, k: nat)
    requires IsRun(run) && k < |run|
    ensures OrderOk(run[k]) && ServedOk(run[k])
  {
    RunInv(run, k);
  }

  lemma AcceptedTurnUnique(s: State, i: nat, j: nat)
    requires OrderOk(s) && ServedOk(s) && s.mark <= i < |s.order| && s.mark <= j < |s.order|
    requires AcceptedAt(s.served, Turn(s, i)) && AcceptedAt(s.served, Turn(s, j))
    requires var a, b := s.threads[s.order[i]].op, s.threads[s.order[j]].op;
             a.Transfer? && b.Transfer? && a.source == b.source && a.seqn == b.seqn
    ensures i == j
  {
    AcceptedUnique(s.served, Turn(s, i), Turn(s, j));
  }

  lemma AcceptedThreadUnique(s: State, t: nat, u: nat)
    requires OrderOk(s) && ServedOk(s) && t < |s.threads| && u < |s.threads|
    requires var a, b := s.threads[t].op, s.threads[u].op;
             a.Transfer? && b.Transfer? && a.source == b.source && a.seqn == b.seqn
    requires AcceptedThread(s, t) && AcceptedThread(s, u)
    ensures t == u
  {
    var i :| s.mark <= i < |s.order| && s.order[i] == t && AcceptedAt(s.served, Turn(s, i));
    var j :| s.mark <= j < |s.order| && s.order[j] == u && AcceptedAt(s.served, Turn(s, j));
    AcceptedTurnUnique(s, i, j);
  }

  /**
   Of several threads carrying the same number of the same source at most one is accepted, unless a
   snapshot that forgets the first is applied between them.
   */
  lemma AcceptedOnce(run: seq<State>, k: nat, t: nat, u: nat)
    requires IsRun(run) && k < |run| && t < |run[k].threads| && u < |run[k].threads| && t != u
    requires var a, b := run[k].threads[t].op, run[k].threads[u].op;
             a.Transfer? && b.Transfer? && a.source == b.source && a.seqn == b.seqn
    ensures OrderOk(run[k]) && ServedOk(run[k]) && !(AcceptedThread(run[k], t) && AcceptedThread(run[k], u))
  {
    RunOrderOk(run, k);
    if AcceptedThread(run[k], t) && AcceptedThread(run[k], u) {
      AcceptedThreadUnique(run[k], t, u);
    }
  }

  // ---------------------------------------------------------------------------------------------
  // The ack is read after the mutex has been released
  // ---------------------------------------------------------------------------------------------

  lemma SameNumbers(l: Ledger, l': Ledger, x: uint32)
    requires |l'.clients| == |l.clients|
    requires forall i | 0 <= i < |l.clients| ::
               l'.clients[i].ip == l.clients[i].ip && l'.clients[i].lastReq == l.clients[i].lastReq
    ensures LastReq(l', x) == LastReq(l, x)
  {
    FindStable(l.clients, l'.clients, x);
  }

  /** Moving the money leaves every number alone. */
  lemma MovingLastReq(r: Ledger, s: nat, d: nat, value: uint32, x: uint32)
    requires s < |r.clients| && d < |r.clients|
    ensures LastReq(r.(clients := Debit(r.clients, s, value)), x) == LastReq(r, x)
    ensures LastReq(r.(clients := Credit(Debit(r.clients, s, value), d, value)), x) == LastReq(r, x)
  {
    SameNumbers(r, r.(clients := Debit(r.clients, s, value)), x);
    SameNumbers(r, r.(clients := Credit(Debit(r.clients, s, value), d, value)), x);
  }

  /** No access of a critical section takes a number back. */
  lemma InsideLastReq(l: Ledger, now: Ledger, th: Thread, x: uint32)
    requires Inside(l, now, th)
    ensures LastReq(l, x) <= LastReq(now, x)
  {
    if th.pc.Leaving? {
      StepLastReq(l, th.op, x);
    } else if !th.pc.Locked? {
      RegisterLastReq(l, th.op.source, x);
      MovingLastReq(Register(l, th.op.source), th.pc.s, th.pc.d, th.op.value, x);
    }
  }

  /** The operations whose critical sections are over. */
  function Settled(s: State): seq<Op> {
    if s.holder.Some? && s.served != [] then s.served[..|s.served| - 1] else s.served
  }

  lemma NumbersKept(s: State, x: uint32)
    requires Inv(s)
    ensures LastReq(Run(Settled(s)), x) <= LastReq(s.ledger, x)
  {
    if s.holder.Some? {
      InsideLastReq(s.found, s.ledger, s.threads[s.holder.value], x);
    }
  }

  lemma AcceptedEarlier(ops: seq<Op>, ops': seq<Op>, i: nat)
    requires ops <= ops' && i < |ops|
    ensures AcceptedAt(ops', i) == AcceptedAt(ops, i)
  {
    assert ops'[..i] == ops[..i];
  }

  /** Before it reads its ack the thread points at its source's slot; afterwards it has seen its own number or more. */
  predicate AckOk(l: Ledger, th: Thread) {
    && (th.op.Transfer? && th.pc.Unlocked? ==> th.pc.slot.Some? && th.pc.slot == SlotOf(l, th.op))
    && (th.op.Transfer? && th.pc.Done? ==> th.pc.ack.Some? && th.op.seqn <= th.pc.ack.value.seqn)
  }

  /** This holds of every request accepted since the last snapshot. */
  ghost predicate AcksOk(s: State)
    requires OrderOk(s) && ServedOk(s)
  {
    forall i | s.mark <= i < |s.order| && AcceptedAt(s.served, Turn(s, i)) :: AckOk(s.ledger, s.threads[s.order[i]])
  }

  lemma OrderGrows(s: State, a: Step)
    requires Enabled(s, a) && !a.Install?
    ensures s.order <= Do(s, a).order && s.served <= Do(s, a).served
    ensures s.base == Do(s, a).base && s.mark == Do(s, a).mark
  {
  }

  /** What a thread reads for its ack is never older than its own accepted request. */
  lemma LedgerNotOlder(ops: seq<Op>, settled: seq<Op>, i: nat, now: Ledger)
    requires settled <= ops && i < |settled| && AcceptedAt(ops, i)
    requires LastReq(Run(settled), ops[i].source) <= LastReq(now, ops[i].source)
    ensures 0 < ops[i].seqn <= LastReq(now, ops[i].source)
  {
    AcceptedEarlier(settled, ops, i);
    LastReqIsBound(settled, i);
    StepLastReq(Run(ops[..i]), ops[i], ops[i].source);
  }

  lemma HolderIsLast(s: State)
    requires LedgerOk(s) && s.holder.Some?
    ensures s.mark < |s.order| && s.order[|s.order| - 1] == s.holder.value < |s.threads|
    ensures s.served != [] && s.threads[s.holder.value].pc.Critical()
  {
  }

  lemma TurnIsOver(s: State, i: nat)
    requires OrderOk(s) && ServedOk(s) && s.mark <= i < |s.order|
    requires s.holder.Some? ==> s.order[|s.order| - 1] == s.holder.value && s.order[i] != s.holder.value
    ensures Turn(s, i) < |Settled(s)| && Settled(s) <= s.served
  {
  }

  lemma ReadsNotOlder(s: State, i: nat, n: nat)
    requires Inv(s) && s.mark <= i < |s.order| && n == Turn(s, i) && n < |s.served| && AcceptedAt(s.served, n)
    requires !s.threads[s.order[i]].pc.Critical()
    ensures var op := s.threads[s.order[i]].op; 0 < op.seqn <= LastReq(s.ledger, op.source)
  {
    assert s.served[n] == s.threads[s.order[i]].op;
    NumbersKept(s, s.served[n].source);
    if s.holder.Some? {
      HolderIsLast(s);
    }
    TurnIsOver(s, i);
    LedgerNotOlder(s.served, Settled(s), n, s.ledger);
  }

  /** Another thread's access leaves the slots of the others theirs. */
  lemma SlotKept(s: State, a: Step, th: Thread)
    requires Enabled(s, a) && !a.Install? && AckOk(s.ledger, th)
    ensures AckOk(Do(s, a).ledger, th)
  {
    if th.op.Transfer? && th.pc.Unlocked? {
      if a.Work? && s.threads[a.t].pc.Critical() {
        AdvanceExtends(s.ledger, s.threads[a.t].op, s.threads[a.t].pc);
      }
      SameSlot(s.ledger, Do(s, a).ledger, th.op);
    }
  }

  /** The thread's own access: it leaves the mutex with its slot, and reads its ack there. */
  lemma OwnAck(s: State, t: nat)
    requires LedgerOk(s) && t < |s.threads| && Enabled(s, Work(t)) && AckOk(s.ledger, s.threads[t])
    requires var s' := Do(s, Work(t)); var th := s'.threads[t];
             th.pc.Critical() || (th.op.Transfer? ==> 0 < th.op.seqn <= LastReq(s'.ledger, th.op.source))
    ensures var s' := Do(s, Work(t)); AckOk(s'.ledger, s'.threads[t])
  {
    if s.threads[t].pc.Critical() {
      AdvanceInside(s.found, s.ledger, s.threads[t]);
    }
  }

  lemma OthersAck(s: State, a: Step, t: nat)
    requires Inv(s) && Enabled(s, a) && !a.Install? && a != Work(t) && t in s.order
    requires AckOk(s.ledger, s.threads[t])
    ensures AckOk(Do(s, a).ledger, Do(s, a).threads[t])
  {
    SlotKept(s, a, s.threads[t]);
    assert Do(s, a).threads[t] == s.threads[t];
  }

  lemma AckStep(s: State, a: Step, i: nat)
    requires Inv(s) && Enabled(s, a) && !a.Install? && s.mark <= i < |s.order|
    requires AcceptedAt(s.served, Turn(s, i))
    requires AckOk(s.ledger, s.threads[s.order[i]])
    ensures AckOk(Do(s, a).ledger, Do(s, a).threads[s.order[i]])
  {
    if a == Work(s.order[i]) {
      StepKeepsInv(s, a);
      if !Do(s, a).threads[s.order[i]].pc.Critical() {
        ReadsNotOlder(Do(s, a), i, Turn(s, i));
      }
      OwnAck(s, s.order[i]);
    } else {
      OthersAck(s, a, s.order[i]);
    }
  }

  /** A thread that has just got the mutex has no ack yet. */
  lemma AckNew(s: State, a: Step, i: nat)
    requires Enabled(s, a) && !a.Install? && |s.order| <= i < |Do(s, a).order| && OrderOk(Do(s, a))
    ensures AckOk(Do(s, a).ledger, Do(s, a).threads[Do(s, a).order[i]])
  {
  }

  lemma AcceptedAlready(s: State, s': State, i: nat)
    requires s.base == s'.base && s.mark == s'.mark && s.served <= s'.served
    requires s.mark <= i && Turn(s, i) < |s.served| && AcceptedAt(s'.served, Turn(s', i))
    ensures AcceptedAt(s.served, Turn(s, i))
  {
    AcceptedEarlier(s.served, s'.served, Turn(s, i));
  }

  lemma AcksKept(s: State, a: Step)
    requires Inv(s) && AcksOk(s) && Enabled(s, a)
    ensures OrderOk(Do(s, a)) && ServedOk(Do(s, a)) && AcksOk(Do(s, a))
  {
    var s' := Do(s, a);
    StepKeepsOrder(s, a);
    if !a.Install? {
      OrderGrows(s, a);
      forall i | s'.mark <= i < |s'.order| && AcceptedAt(s'.served, Turn(s', i))
        ensures AckOk(s'.ledger, s'.threads[s'.order[i]])
      {
        if i < |s.order| {
          AcceptedAlready(s, s', i);
          AckStep(s, a, i);
        } else {
          AckNew(s, a, i);
        }
      }
    }
  }

  /**
   A request accepted since the last snapshot is always acknowledged with its number or a later one, although
   the ack is read unlocked, through a slot looked up before.
   */
  lemma {:induction false} AckNotOlder(run: seq<State>, k: nat)
    requires IsRun(run) && k < |run|
    ensures Inv(run[k]) && AcksOk(run[k])
  {
    if k > 0 {
      AckNotOlder(run, k - 1);
      RunInv(run, k);
      assert Next(run[k - 1], run[k]);
      var a :| Enabled(run[k - 1], a) && run[k] == Do(run[k - 1], a);
      AcksKept(run[k - 1], a);
    }
  }

  // ---------------------------------------------------------------------------------------------
  // Acks in general, also after a snapshot
  // ---------------------------------------------------------------------------------------------

  /** The operations whose numbers the table shows: the holder writes its number last of all. */
  function Shown(s: State): seq<Op> {
    match s.holder
    case Some(t) =>
      if s.served != [] && t < |s.threads| && !s.threads[t].pc.Leaving? then s.served[..|s.served| - 1] else s.served
    case None => s.served
  }

  lemma InsideShows(l: Ledger, now: Ledger, th: Thread, x: uint32)
    requires Inside(l, now, th) && !th.pc.Leaving?
    ensures LastReq(now, x) == LastReq(l, x)
  {
    if !th.pc.Locked? {
      RegisterLastReq(l, th.op.source, x);
      MovingLastReq(Register(l, th.op.source), th.pc.s, th.pc.d, th.op.value, x);
    }
  }

  lemma HolderShows(s: State, t: nat, x: uint32)
    requires Holds(s, t)
    ensures LastReq(s.ledger, x) ==
            LastReq(if s.threads[t].pc.Leaving? then Run(s.served) else s.found, x)
  {
    if s.threads[t].pc.Leaving? {
      RunLast(s.served);
    } else {
      InsideShows(s.found, s.ledger, s.threads[t], x);
    }
  }

  lemma ShownNumbers(s: State, x: uint32)
    requires LedgerOk(s)
    ensures LastReq(s.ledger, x) == LastReq(Run(Shown(s)), x)
  {
    match s.holder {
      case None =>
      case Some(t) => HolderShows(s, t, x);
    }
  }

  lemma InsideDistinct(l: Ledger, now: Ledger, th: Thread)
    requires Inside(l, now, th) && Valid(l)
    ensures DistinctIps(now.clients)
  {
    if th.pc.Leaving? {
      StepKeepsValid(l, th.op);
    } else if !th.pc.Locked? {
      RegisterKeepsValid(l, th.op.source);
    }
  }

  lemma LedgerDistinct(s: State)
    requires LedgerOk(s)
    ensures DistinctIps(s.ledger.clients)
  {
    match s.holder {
      case None => RunIsValid(s.served);
      case Some(t) =>
        RunIsValid(s.served[..|s.served| - 1]);
        InsideDistinct(s.found, s.ledger, s.threads[t]);
    }
  }

  /**
   What an ack says whenever it is read, also after a snapshot has replaced the table: it is there exactly
   when the slot still is, and it carries the thread's number or a later one exactly when the history that the
   table now shows covers that number for whichever client the slot now holds.
   */
  lemma AckExactly(run: seq<State>, k: nat, t: nat)
    requires IsRun(run) && k < |run| && t < |run[k].threads|
    requires var th := run[k].threads[t]; th.op.Transfer? && 0 < th.op.seqn && th.pc.Unlocked? && th.pc.slot.Some?
    ensures var s, th := run[k], run[k].threads[t];
            var slot, ack := th.pc.slot.value, Do(s, Work(t)).threads[t].pc.ack;
            && (ack.Some? <==> slot < |s.ledger.clients|)
            && (ack.Some? ==> (th.op.seqn <= ack.value.seqn <==>
                                 Covered(Shown(s), s.ledger.clients[slot].ip, th.op.seqn)))
  {
    var s, th := run[k], run[k].threads[t];
    var slot := th.pc.slot.value;
    RunInv(run, k);
    LedgerDistinct(s);
    if slot < |s.ledger.clients| {
      FindUnique(s.ledger.clients, slot);
      ShownNumbers(s, s.ledger.clients[slot].ip);
      CoveredExactly(Shown(s), s.ledger.clients[slot].ip, th.op.seqn);
    }
  }

  // ---------------------------------------------------------------------------------------------
  // The balance an ack carries
  // ---------------------------------------------------------------------------------------------

  predicate Unpaid(pc: Pc) {
    pc.Locked? || pc.Looked? || pc.Debited?
  }

  /** The operations whose money has reached its destination. */
  function Paid(s: State): seq<Op> {
    match s.holder
    case Some(t) =>
      if s.served != [] && t < |s.threads| && Unpaid(s.threads[t].pc) then s.served[..|s.served| - 1] else s.served
    case None => s.served
  }

  /** Money that a holder between debit and credit has taken from this client and not handed on yet. */
  function UnderWay(s: State, ip: uint32): nat {
    match s.holder
    case Some(t) =>
      if t < |s.threads| && s.threads[t].pc.Debited? && s.threads[t].op.Transfer? && s.threads[t].op.source == ip
      then s.threads[t].op.value else 0
    case None => 0
  }

  /** 100, and what the history brought in, minus what it took out. */
  function Explained(ops: seq<Op>, ip: uint32): int {
    INITIAL_BALANCE + Flow(Journal(ops), Into(ip)) - Flow(Journal(ops), OutOf(ip))
  }

  /** Registering a source moves no money: its slot opens with what an empty journal explains. */
  lemma RegisteredExplained(ops: seq<Op>, source: uint32, i: nat)
    requires i < |Register(Run(ops), source).clients|
    ensures var c := Register(Run(ops), source).clients[i]; c.balance == Explained(ops, c.ip)
  {
    var more := ops + [Discover(source)];
    assert more[..|ops|] == ops;
    RunSnoc(EMPTY, ops, Discover(source));
    LedgerExplained(more, i);
    assert Journal(more) == Journal(ops);
  }

  lemma DebitedExplained(ops: seq<Op>, op: Op, now: Ledger, i: nat)
    requires op.Transfer? && i < |now.clients|
    requires var r := Register(Run(ops), op.source);
             Verdict(r, op).Committed? && now.clients == Debit(r.clients, Find(r.clients, op.source), op.value)
    ensures var c := now.clients[i];
            c.balance == Explained(ops, c.ip) - (if c.ip == op.source then op.value else 0)
  {
    var r := Register(Run(ops), op.source);
    RegisteredExplained(ops, op.source, i);
    RunIsValid(ops);
    RegisterKeepsValid(Run(ops), op.source);
    FindUnique(r.clients, i);
  }

  lemma MarkedMoney(r: Ledger, op: Op, cs: seq<Client>, i: nat)
    requires op.Transfer? && Verdict(r, op).Committed? && i < |cs|
    requires var s, d := Find(r.clients, op.source), Find(r.clients, op.dest);
             cs == Credit(Debit(r.clients, s, op.value), d, op.value)
    ensures var c := Commit(r, op).clients;
            |c| == |cs| && c[i].ip == cs[i].ip && c[i].balance == cs[i].balance
  {
  }

  lemma CreditedExplained(ops: seq<Op>, op: Op, cs: seq<Client>, i: nat)
    requires op.Transfer? && i < |cs|
    requires var r := Register(Run(ops), op.source);
             var s, d := Find(r.clients, op.source), Find(r.clients, op.dest);
             Verdict(r, op).Committed? && cs == Credit(Debit(r.clients, s, op.value), d, op.value)
    ensures cs[i].balance == Explained(ops + [op], cs[i].ip)
  {
    RunSnoc(EMPTY, ops, op);
    var r := Register(Run(ops), op.source);
    MarkedMoney(r, op, cs, i);
    assert Run(ops + [op]) == Commit(r, op);
    LedgerExplained(ops + [op], i);
  }

  lemma HolderExplained(s: State, t: nat, i: nat)
    requires Holds(s, t) && i < |s.ledger.clients|
    ensures var c := s.ledger.clients[i];
            var n := |s.served| - 1;
            c.balance ==
            match s.threads[t].pc
            case Locked => Explained(s.served[..n], c.ip)
            case Looked(_, _) => Explained(s.served[..n], c.ip)
            case Debited(_, _) =>
              Explained(s.served[..n], c.ip) - (if c.ip == s.threads[t].op.source then s.threads[t].op.value else 0)
            case _ => Explained(s.served, c.ip)
  {
    var ops, op := s.served[..|s.served| - 1], s.threads[t].op;
    assert s.served == ops + [op];
    match s.threads[t].pc {
      case Locked => LedgerExplained(ops, i);
      case Looked(_, _) => RegisteredExplained(ops, op.source, i);
      case Debited(_, _) => DebitedExplained(ops, op, s.ledger, i);
      case Credited(_, _) => CreditedExplained(ops, op, s.ledger.clients, i);
      case Counted(_, _) => CreditedExplained(ops, op, s.ledger.clients, i);
      case _ =>
        RunLast(s.served);
        LedgerExplained(s.served, i);
    }
  }

  lemma SlotExplained(s: State, i: nat)
    requires LedgerOk(s) && i < |s.ledger.clients|
    ensures var c := s.ledger.clients[i]; c.balance == Explained(Paid(s), c.ip) - UnderWay(s, c.ip)
  {
    match s.holder {
      case None => LedgerExplained(s.served, i);
      case Some(t) => HolderExplained(s, t, i);
    }
  }

  /**
   The contents of an ack, whenever it is read: the last number of the client its slot now holds, and that
   client's balance, which is 100 and what the operations paid out so far brought in minus what they took,
   less the money that a holder is just moving away from it.
   */
  lemma AckShows(run: seq<State>, k: nat, t: nat)
    requires IsRun(run) && k < |run| && t < |run[k].threads|
    requires var pc := run[k].threads[t].pc;
             pc.Unlocked? && pc.slot.Some? && pc.slot.value < |run[k].ledger.clients|
    ensures var s := run[k];
            var c := s.ledger.clients[s.threads[t].pc.slot.value];
            var ack := Do(s, Work(t)).threads[t].pc.ack;
            && ack.Some? && ack.value.seqn == LastReq(Run(Shown(s)), c.ip)
            && ack.value.newBalance == Explained(Paid(s), c.ip) - UnderWay(s, c.ip)
            && (s.holder.None? ==> Paid(s) == Shown(s) == s.served && UnderWay(s, c.ip) == 0)
  {
    var s, slot := run[k], run[k].threads[t].pc.slot.value;
    RunInv(run, k);
    LedgerDistinct(s);
    FindUnique(s.ledger.clients, slot);
    ShownNumbers(s, s.ledger.clients[slot].ip);
    SlotExplained(s, slot);
  }

  lemma Extend(run: seq<State>, a: Step) returns (run': seq<State>)
    requires IsRun(run) && Enabled(run[|run| - 1], a)
    ensures IsRun(run') && run' == run + [Do(run[|run| - 1], a)]
  {
    run' := run + [Do(run[|run| - 1], a)];
    assert Next(run[|run| - 1], run'[|run|]);
  }

  /** A lone thread's zero-value request has been accepted and is about to be acknowledged. */
  lemma AcceptedAlone(op: Op) returns (run: seq<State>)
    requires op.Transfer? && op.source == op.dest && op.value == 0 && 0 < op.seqn
    ensures IsRun(run)
    ensures var s := run[|run| - 1];
            && s.threads == [Thread(op, Unlocked(Some(0)))] && s.holder == None
            && s.order == [0] && s.served == [op] && s.mark == 0 && s.base == []
  {
    run := [State(EMPTY, None, [], [], [], 0, [], EMPTY)];
    run := Extend(run, Spawn(op));
    run := Extend(run, Acquire(0));
    assert run[|run| - 1].threads == [Thread(op, Locked)];
    run := Extend(run, Work(0));
    assert run[|run| - 1].threads == [Thread(op, Leaving(Some(0)))];
    run := Extend(run, Work(0));
  }

  lemma FirstAccepted(s: State, op: Op)
    requires OrderOk(s) && ServedOk(s) && s.order == [0] && s.served == [op] && s.mark == 0 && s.base == []
    requires op.Transfer? && op.source == op.dest && op.value == 0 && 0 < op.seqn
    ensures AcceptedThread(s, 0)
  {
    assert [op][..0] == [];
    assert AcceptedAt(s.served, Turn(s, 0));
  }

  /**
   And it need not: a request is accepted, a snapshot that knows only another client is applied before the
   ack is read, and the ack carries number 0 and the balance of that client.
   */
  lemma StrangersAck(client: uint32, stranger: uint32, seqn: uint32) returns (run: seq<State>, k: nat)
    requires client != stranger && 0 < seqn
    ensures IsRun(run) && k < |run| && OrderOk(run[k]) && ServedOk(run[k]) && AcceptedThread(run[k], 0)
    ensures var s := run[|run| - 1];
            && s.threads == [Thread(Transfer(client, client, 0, seqn), Done(Some(Ack(0, INITIAL_BALANCE))))]
            && s.ledger.clients == [Client(stranger, 0, INITIAL_BALANCE)]
  {
    var op := Transfer(client, client, 0, seqn);
    run := AcceptedAlone(op);
    k := |run| - 1;
    ghost var s := run[k];
    RunOrderOk(run, k);
    FirstAccepted(s, op);
    run := Extend(run, Install([Discover(stranger)]));
    assert [Discover(stranger)][..0] == [];
    assert run[|run| - 1].ledger.clients == [Client(stranger, 0, INITIAL_BALANCE)];
    run := Extend(run, Work(0));
    assert run[k] == s;
  }
}
