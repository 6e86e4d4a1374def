/**
 One line of succession: a primary, the backup that will follow it, and the snapshots on their way,
 which may be lost but arrive in the order they were sent.
 */
module Lineage {
  import opened Machine
  import opened Ledgers
  import opened History
  import opened Banks

  // ---------------------------------------------------------------------------------------------
  // How far a backup lags behind
  // ---------------------------------------------------------------------------------------------

  predicate Commits(l: Ledger, op: Op) {
    OutcomeOf(l, op).Committed?
  }

  /**
   A primary p against a backup b that has applied p's latest snapshot: same counters, b's clients are a
   prefix of p's with the same money and possibly older numbers, and each further client of p has
   exactly its opening balance.
   */
  ghost predicate Lag(b: Ledger, p: Ledger) {
    && b.numTransactions == p.numTransactions && b.totalTransferred == p.totalTransferred
    && |b.clients| <= |p.clients|
    && (forall i | 0 <= i < |b.clients| ::
          && b.clients[i].ip == p.clients[i].ip
          && b.clients[i].balance == p.clients[i].balance
          && b.clients[i].lastReq <= p.clients[i].lastReq)
    && (forall i | |b.clients| <= i < |p.clients| :: p.clients[i].balance == INITIAL_BALANCE)
    && p.totalBalance == b.totalBalance + INITIAL_BALANCE * (|p.clients| - |b.clients|)
  }

  lemma LagRegister(b: Ledger, p: Ledger, ip: uint32)
    requires Valid(p) && Lag(b, p)
    ensures Lag(b, Register(p, ip))
  {
    RegisterKeepsValid(p, ip);
  }

  lemma LagDecide(b: Ledger, r: Ledger, op: Op)
    requires Valid(r) && Lag(b, r) && op.Transfer? && !Verdict(r, op).Committed?
    ensures Lag(b, Decide(r, op))
  {
  }

  /** Whatever a primary does without sending a snapshot keeps the relation. */
  lemma LagStep(b: Ledger, p: Ledger, op: Op)
    requires Valid(p) && Lag(b, p) && !Commits(p, op)
    ensures Lag(b, Apply(p, op))
  {
    var ip := if op.Discover? then op.ip else op.source;
    LagRegister(b, p, ip);
    RegisterKeepsValid(p, ip);
    if op.Transfer? {
      LagDecide(b, Register(p, ip), op);
    }
  }

  /** What a table looks up after registering a source. */
  lemma RegisteredLookup(l: Ledger, source: uint32, x: uint32)
    requires Valid(l)
    ensures var r := Register(l, source);
            && (Known(r, x) <==> Known(l, x) || (x == source && |l.clients| < MAX_CLIENTS))
            && (Known(l, x) ==> Find(r.clients, x) == Find(l.clients, x))
            && (Known(r, x) && !Known(l, x) ==> r.clients[Find(r.clients, x)] == Client(source, 0, INITIAL_BALANCE))
  {
    RegisterKeepsValid(l, source);
    FindStable(l.clients, Register(l, source).clients, x);
  }

  /**
   What the latest snapshot can make a failover repeat: a request the primary commits on top of it is one
   the backup would commit too, exactly when the backup's table lists the destination already, or source and
   destination are one.
   */
  lemma LostCommitExactly(b: Ledger, p: Ledger, op: Op)
    requires Valid(b) && Valid(p) && Lag(b, p) && op.Transfer? && Commits(p, op)
    ensures Commits(b, op) <==> Known(b, op.dest) || op.dest == op.source
  {
    RegisteredLookup(b, op.source, op.source);
    RegisteredLookup(p, op.source, op.source);
    RegisteredLookup(b, op.source, op.dest);
    RegisteredLookup(p, op.source, op.dest);
    FindStable(b.clients, p.clients, op.source);
    FindStable(b.clients, p.clients, op.dest);
  }

  // ---------------------------------------------------------------------------------------------
  // The line
  // ---------------------------------------------------------------------------------------------

  /** A ledger together with the history that produced it. */
  datatype Replica = Replica(ledger: Ledger, history: seq<Op>) {
    ghost predicate Ok() {
      ledger == Run(history)
    }

    function Serve(op: Op): Replica {
      Replica(Apply(ledger, op), history + [op])
    }
  }

  /**
   sent is the latest snapshot of the line; log lists every commit of the run, also those that a failover
   makes the system forget.
   */
  datatype State = State(primary: Replica, sent: Replica, wire: seq<Replica>, backup: Replica, log: seq<Op>)

  datatype Step =
    | Request(op: Op)
    | Announce                       // FIND_LEADER or promotion: a snapshot without a commit
    | Lose(i: nat)
    | Deliver
    | Failover(next: Replica)        // the primary crashes, its backup takes over, next becomes the backup

  ghost predicate Enabled(s: State, a: Step) {
    match a
    case Request(_) => true
    case Announce => true
    case Lose(i) => i < |s.wire|
    case Deliver => s.wire != []
    case Failover(next) => next.Ok() && next.history <= s.backup.history
  }

  ghost function Do(s: State, a: Step): State
    requires Enabled(s, a)
  {
    match a
    case Request(op) =>
      var p := s.primary.Serve(op);
      if Commits(s.primary.ledger, op) then State(p, p, s.wire + [p], s.backup, s.log + [op]) else s.(primary := p)
    case Announce => s.(sent := s.primary, wire := s.wire + [s.primary])
    case Lose(i) => s.(wire := s.wire[..i] + s.wire[i + 1..])
    case Deliver => s.(wire := s.wire[1..], backup := s.wire[0])
    case Failover(next) => State(s.backup, s.backup, [s.backup], next, s.log)
  }

  /** A primary that has just announced itself, with a backup somewhere behind it. */
  ghost predicate Init(s: State) {
    && s.primary.Ok() && s.backup.Ok() && s.backup.history <= s.primary.history
    && s.sent == s.primary && s.wire == [] && s.log == []
  }

  ghost predicate Taken(run: seq<State>, steps: seq<Step>, k: nat)
    requires k < |steps| && |run| == |steps| + 1
  {
    Enabled(run[k], steps[k]) && run[k + 1] == Do(run[k], steps[k])
  }

  ghost predicate IsRun(run: seq<State>, steps: seq<Step>) {
    && |run| == |steps| + 1 && Init(run[0])
    && forall k | 0 <= k < |steps| :: Taken(run, steps, k)
  }

  /** Every replica is the work of its history, and the histories only grow from backup to primary. */
  ghost predicate Inv(s: State) {
    && s.primary.Ok() && s.backup.Ok() && s.backup.history <= s.primary.history
    && (forall i | 0 <= i < |s.wire| ::
          s.wire[i].Ok() && s.backup.history <= s.wire[i].history <= s.primary.history)
    && (forall i, j | 0 <= i < j < |s.wire| :: s.wire[i].history <= s.wire[j].history)
  }

  lemma ServeOk(r: Replica, op: Op)
    requires r.Ok()
    ensures r.Serve(op).Ok() && r.history <= r.Serve(op).history
  {
    RunSnoc(EMPTY, r.history, op);
  }

  lemma LoseKeepsInv(s: State, i: nat)
    requires Inv(s) && i < |s.wire|
    ensures Inv(Do(s, Lose(i)))
  {
  }

  lemma RequestKeepsInv(s: State, op: Op)
    requires Inv(s)
    ensures Inv(Do(s, Request(op)))
  {
    ServeOk(s.primary, op);
  }

  lemma StepKeepsInv(s: State, a: Step)
    requires Inv(s) && Enabled(s, a)
    ensures Inv(Do(s, a))
  {
    match a {
      case Request(op) => RequestKeepsInv(s, op);
      case Lose(i) => LoseKeepsInv(s, i);
      case _ =>
    }
  }

  lemma InvAt(run: seq<State>, steps: seq<Step>, k: nat)
    requires IsRun(run, steps) && k < |steps| && Inv(run[k])
    ensures Inv(run[k + 1])
  {
    assert Taken(run, steps, k);
    StepKeepsInv(run[k], steps[k]);
  }

  lemma {:induction false} RunInv(run: seq<State>, steps: seq<Step>, k: nat)
    requires IsRun(run, steps) && k < |run|
    ensures Inv(run[k])
  {
    if k > 0 {
      RunInv(run, steps, k - 1);
      InvAt(run, steps, k - 1);
    }
  }

  // ---------------------------------------------------------------------------------------------
  // The latest snapshot
  // ---------------------------------------------------------------------------------------------

  predicate CommittedAt(ops: seq<Op>, k: nat)
    requires k < |ops|
  {
    Commits(Run(ops[..k]), ops[k])
  }

  /** Nothing in the history has been committed since its first n operations. */
  predicate Quiet(ops: seq<Op>, n: nat) {
    |ops| <= n || (!CommittedAt(ops, |ops| - 1) && Quiet(ops[..|ops| - 1], n))
  }

  lemma {:induction false} QuietAt(ops: seq<Op>, n: nat, k: nat)
    requires Quiet(ops, n) && n <= k < |ops|
    ensures !CommittedAt(ops, k)
  {
    if k < |ops| - 1 {
      QuietAt(ops[..|ops| - 1], n, k);
      assert ops[..|ops| - 1][..k] == ops[..k];
    }
  }

  /** The latest snapshot is at least as new as any other and lags behind the primary without a commit. */
  ghost predicate SentOk(s: State) {
    && s.sent.Ok() && s.backup.history <= s.sent.history <= s.primary.history
    && (forall i | 0 <= i < |s.wire| :: s.wire[i].history <= s.sent.history)
    && Lag(s.sent.ledger, s.primary.ledger)
    && Quiet(s.primary.history, |s.sent.history|)
  }

  lemma ServedQuietly(r: Replica, n: nat, op: Op)
    requires r.Ok() && !Commits(r.ledger, op) && Quiet(r.history, n)
    ensures Quiet(r.history + [op], n)
  {
    assert (r.history + [op])[..|r.history|] == r.history;
  }

  lemma RequestKeepsSent(s: State, op: Op)
    requires s.primary.Ok() && SentOk(s)
    ensures SentOk(Do(s, Request(op)))
  {
    ServeOk(s.primary, op);
    if !Commits(s.primary.ledger, op) {
      RunIsValid(s.primary.history);
      LagStep(s.sent.ledger, s.primary.ledger, op);
      ServedQuietly(s.primary, |s.sent.history|, op);
    }
  }

  lemma StepKeepsSent(s: State, a: Step, s': State)
    requires s.primary.Ok() && s.backup.Ok() && SentOk(s) && Enabled(s, a) && s' == Do(s, a)
    ensures SentOk(s')
  {
    if a.Request? {
      RequestKeepsSent(s, a.op);
    }
  }

  lemma TakenAt(run: seq<State>, steps: seq<Step>, k: nat)
    requires IsRun(run, steps) && 0 < k < |run|
    ensures Enabled(run[k - 1], steps[k - 1]) && run[k] == Do(run[k - 1], steps[k - 1])
  {
    assert Taken(run, steps, k - 1);
  }

  lemma ReplicasOk(run: seq<State>, steps: seq<Step>, k: nat)
    requires IsRun(run, steps) && k < |run|
    ensures run[k].primary.Ok() && run[k].backup.Ok()
  {
    RunInv(run, steps, k);
  }

  lemma SentAt(run: seq<State>, steps: seq<Step>, k: nat)
    requires IsRun(run, steps) && 0 < k < |run| && SentOk(run[k - 1])
    ensures SentOk(run[k])
  {
    ReplicasOk(run, steps, k - 1);
    TakenAt(run, steps, k);
    StepKeepsSent(run[k - 1], steps[k - 1], run[k]);
  }

  lemma InitSent(run: seq<State>, steps: seq<Step>, k: nat)
    requires IsRun(run, steps) && k == 0
    ensures SentOk(run[k])
  {
  }

  lemma {:induction false} RunSent(run: seq<State>, steps: seq<Step>, k: nat)
    requires IsRun(run, steps) && k < |run|
    ensures SentOk(run[k])
  {
    if k == 0 {
      InitSent(run, steps, k);
    } else {
      RunSent(run, steps, k - 1);
      SentAt(run, steps, k);
    }
  }

  /**
   At every moment of every run, through registrations, zero-value requests, announcements, losses and
   failovers, a backup that has applied the latest snapshot lags behind the primary by no more than that.
   */
  lemma LagAlways(run: seq<State>, steps: seq<Step>, k: nat)
    requires IsRun(run, steps) && k < |run|
    ensures Valid(run[k].primary.ledger) && Valid(run[k].backup.ledger)
    ensures run[k].backup == run[k].sent ==> Lag(run[k].backup.ledger, run[k].primary.ledger)
  {
    RunInv(run, steps, k);
    RunSent(run, steps, k);
    RunIsValid(run[k].primary.history);
    RunIsValid(run[k].backup.history);
  }

  /** Everything on the wire is delivered. */
  ghost function Drained(s: State): State
    decreases |s.wire|
  {
    if s.wire == [] then s else Drained(Do(s, Deliver))
  }

  lemma {:induction false} DrainedEnd(s: State)
    ensures Drained(s) == s.(wire := [], backup := if s.wire == [] then s.backup else s.wire[|s.wire| - 1])
    decreases |s.wire|
  {
    if s.wire != [] {
      DrainedEnd(Do(s, Deliver));
      assert Do(s, Deliver).wire == s.wire[1..];
    }
  }

  /**
   What sends a snapshot: an announcement, a commit and the promotion after a failover. Once all that is on
   the wire has been delivered the backup is the primary; any other request leaves the wire as it is.
   */
  lemma SnapshotsArrive(s: State, a: Step)
    requires Enabled(s, a)
    requires a.Announce? || a.Failover? || (a.Request? && Commits(s.primary.ledger, a.op))
    ensures Drained(Do(s, a)).backup == Do(s, a).primary == Do(s, a).sent
    ensures a.Announce? ==> Do(s, a).primary == s.primary
    ensures a.Failover? ==> Do(s, a).primary == s.backup && Do(s, a).backup == a.next
  {
    DrainedEnd(Do(s, a));
  }

  lemma QuietRequest(s: State, op: Op)
    requires !Commits(s.primary.ledger, op)
    ensures var t := Do(s, Request(op));
            t.wire == s.wire && t.sent == s.sent && t.backup == s.backup && t.log == s.log
  {
  }

  /** When nothing has been lost, the backup has applied the latest snapshot as soon as the wire is empty. */
  lemma {:induction false} DrainedIsLatest(run: seq<State>, steps: seq<Step>, k: nat)
    requires IsRun(run, steps) && k < |run| && run[0].backup == run[0].sent
    requires forall j | 0 <= j < k :: !steps[j].Lose? && !steps[j].Failover?
    ensures run[k].sent == if run[k].wire == [] then run[k].backup else run[k].wire[|run[k].wire| - 1]
  {
    if k > 0 {
      DrainedIsLatest(run, steps, k - 1);
      assert Taken(run, steps, k - 1);
    }
  }

  /** Counting commits: none since the first n operations means that the journal has not grown. */
  lemma {:induction false} JournalGrows(ops: seq<Op>, n: nat)
    requires n <= |ops|
    ensures |Journal(ops[..n])| <= |Journal(ops)|
    ensures Quiet(ops, n) <==> |Journal(ops[..n])| == |Journal(ops)|
  {
    if n < |ops| {
      var before := ops[..|ops| - 1];
      assert before[..n] == ops[..n];
      JournalGrows(before, n);
    } else {
      assert ops[..n] == ops;
    }
  }

  /** A counter that has moved by less than a full turn shows it. */
  lemma ShownApart(a: nat, b: nat)
    requires a <= b < a + TWO_32
    ensures AsInt32(a) == AsInt32(b) <==> a == b
  {
    CountRefines(a, b - a);
  }

  lemma {:induction false} QuietLags(ops: seq<Op>, n: nat)
    requires n <= |ops| && Quiet(ops, n)
    ensures Lag(Run(ops[..n]), Run(ops))
  {
    if n < |ops| {
      var before := ops[..|ops| - 1];
      assert before[..n] == ops[..n];
      QuietLags(before, n);
      RunIsValid(before);
      LagStep(Run(ops[..n]), Run(before), ops[|ops| - 1]);
    } else {
      assert ops[..n] == ops;
    }
  }

  /**
   How to tell whether a backup is up to date: against any earlier snapshot of its own line, early or late,
   the primary is ahead by no more than the lag relation exactly when both transaction counters agree,
   exactly when it has committed nothing since (in less than a full turn of the counter).
   */
  lemma LagExactly(b: Replica, p: Replica)
    requires b.Ok() && p.Ok() && b.history <= p.history
    requires |Journal(p.history)| < |Journal(b.history)| + TWO_32
    ensures Lag(b.ledger, p.ledger) <==> b.ledger.numTransactions == p.ledger.numTransactions
    ensures Lag(b.ledger, p.ledger) <==> Quiet(p.history, |b.history|)
  {
    var n, full := |b.history|, INITIAL_BALANCE * MAX_CLIENTS;
    assert p.history[..n] == b.history;
    JournalGrows(p.history, n);
    CountersExplained(b.history, full);
    CountersExplained(p.history, full);
    ShownApart(|Journal(b.history)|, |Journal(p.history)|);
    if Quiet(p.history, n) {
      QuietLags(p.history, n);
    }
  }

  /** In every run, whatever snapshots were lost, the counters tell whether the backup is up to date. */
  lemma CountersTell(run: seq<State>, steps: seq<Step>, k: nat)
    requires IsRun(run, steps) && k < |run|
    requires |Journal(run[k].primary.history)| < TWO_32
    ensures Lag(run[k].backup.ledger, run[k].primary.ledger) <==>
            run[k].backup.ledger.numTransactions == run[k].primary.ledger.numTransactions
  {
    RunInv(run, steps, k);
    LagExactly(run[k].backup, run[k].primary);
  }

  // ---------------------------------------------------------------------------------------------
  // Exactly once across failovers
  // ---------------------------------------------------------------------------------------------

  /** How often the log commits this number of this source. */
  function CommitsOf(log: seq<Op>, source: uint32, seqn: uint32): nat {
    if log == [] then 0
    else
      var op := log[|log| - 1];
      CommitsOf(log[..|log| - 1], source, seqn)
      + (if op.Transfer? && op.source == source && op.seqn == seqn then 1 else 0)
  }

  /** The replica refuses this number of this source: its last_req_id has reached it. */
  predicate Reached(r: Replica, source: uint32, seqn: uint32) {
    0 < seqn <= LastReq(r.ledger, source)
  }

  /** A replica has reached a number exactly when its history has accepted it or a later one. */
  lemma ReachedExactly(r: Replica, op: Op)
    requires r.Ok() && op.Transfer?
    ensures Reached(r, op.source, op.seqn) <==> 0 < op.seqn && Covered(r.history, op.source, op.seqn)
    ensures Reached(r, op.source, op.seqn) ==> OutcomeOf(r.ledger, op).Duplicate?
  {
    RefusedExactlyWhenCovered(r.history, op);
    DuplicateExactly(r.ledger, op);
    if Reached(r, op.source, op.seqn) {
      RegisterLastReq(r.ledger, op.source, op.source);
    }
  }

  /** A longer history has reached at least as much. */
  lemma {:induction false} ReachedGrows(ops: seq<Op>, more: seq<Op>, source: uint32)
    requires ops <= more
    ensures LastReq(Run(ops), source) <= LastReq(Run(more), source)
  {
    if |ops| < |more| {
      LastReqGrows(more, source);
      ReachedGrows(ops, more[..|more| - 1], source);
    } else {
      assert ops == more;
    }
  }

  lemma CommitsOfSnoc(log: seq<Op>, op: Op, source: uint32, seqn: uint32)
    ensures CommitsOf(log + [op], source, seqn) ==
            CommitsOf(log, source, seqn) + (if op.Transfer? && op.source == source && op.seqn == seqn then 1 else 0)
  {
    assert (log + [op])[..|log|] == log;
  }

  lemma ReachedStep(s: State, a: Step, source: uint32, seqn: uint32)
    requires Inv(s) && Enabled(s, a) && Reached(s.primary, source, seqn)
    requires a.Failover? ==> Reached(s.backup, source, seqn)
    ensures Reached(Do(s, a).primary, source, seqn)
    ensures CommitsOf(Do(s, a).log, source, seqn) == CommitsOf(s.log, source, seqn)
  {
    if a.Request? {
      StepLastReq(s.primary.ledger, a.op, source);
      CommitsOfSnoc(s.log, a.op, source, seqn);
    }
  }

  lemma ReachedAt(run: seq<State>, steps: seq<Step>, k: nat, source: uint32, seqn: uint32)
    requires IsRun(run, steps) && k < |steps| && Reached(run[k].primary, source, seqn)
    requires steps[k].Failover? ==> Reached(run[k].backup, source, seqn)
    ensures Reached(run[k + 1].primary, source, seqn)
    ensures CommitsOf(run[k + 1].log, source, seqn) == CommitsOf(run[k].log, source, seqn)
  {
    RunInv(run, steps, k);
    assert Taken(run, steps, k);
    ReachedStep(run[k], steps[k], source, seqn);
  }

  /** Every backup promoted between the two moments had reached this number of this source. */
  ghost predicate PromotionsReached(run: seq<State>, steps: seq<Step>, from: nat, upto: nat,
                                    source: uint32, seqn: uint32)
    requires |run| == |steps| + 1 && from <= upto <= |steps|
  {
    forall k | from <= k < upto && steps[k].Failover? :: Reached(run[k].backup, source, seqn)
  }

  /**
   Exactly once: once the primary has accepted a number of a source, that number is refused as a
   duplicate and never committed again for the rest of the run, through any sequence of failovers that
   promote backups whose applied snapshots have reached it.
   */
  lemma {:induction false} ExactlyOnce(run: seq<State>, steps: seq<Step>, from: nat, upto: nat,
                                       source: uint32, seqn: uint32)
    requires IsRun(run, steps) && from <= upto < |run|
    requires Reached(run[from].primary, source, seqn) && PromotionsReached(run, steps, from, upto, source, seqn)
    ensures Reached(run[upto].primary, source, seqn)
    ensures CommitsOf(run[upto].log, source, seqn) == CommitsOf(run[from].log, source, seqn)
  {
    if from < upto {
      assert PromotionsReached(run, steps, from, upto - 1, source, seqn);
      ExactlyOnce(run, steps, from, upto - 1, source, seqn);
      ReachedAt(run, steps, upto - 1, source, seqn);
    }
  }

  lemma BackupReachedAt(run: seq<State>, steps: seq<Step>, k: nat, source: uint32, seqn: uint32)
    requires IsRun(run, steps) && k < |steps| && !steps[k].Failover? && Reached(run[k].backup, source, seqn)
    ensures Reached(run[k + 1].backup, source, seqn)
  {
    RunInv(run, steps, k);
    assert Taken(run, steps, k);
    ReachedGrows(run[k].backup.history, Do(run[k], steps[k]).backup.history, source);
  }

  /**
   What a backup's applied snapshots have reached stays reached until it is promoted, however many
   later snapshots are lost.
   */
  lemma {:induction false} BackupKeepsReached(run: seq<State>, steps: seq<Step>, from: nat, upto: nat,
                                              source: uint32, seqn: uint32)
    requires IsRun(run, steps) && from <= upto < |run|
    requires Reached(run[from].backup, source, seqn)
    requires forall k | from <= k < upto :: !steps[k].Failover?
    ensures Reached(run[upto].backup, source, seqn)
  {
    if from < upto {
      BackupKeepsReached(run, steps, from, upto - 1, source, seqn);
      BackupReachedAt(run, steps, upto - 1, source, seqn);
    }
  }

  /** Committed at most once so far, and refused from now on if it was. */
  predicate Once(s: State, source: uint32, seqn: uint32) {
    || CommitsOf(s.log, source, seqn) == 0
    || (CommitsOf(s.log, source, seqn) == 1 && Reached(s.primary, source, seqn))
  }

  lemma OnceStep(s: State, a: Step, source: uint32, seqn: uint32)
    requires Inv(s) && Enabled(s, a) && 0 < seqn && Once(s, source, seqn)
    requires a.Failover? && CommitsOf(s.log, source, seqn) > 0 ==> Reached(s.backup, source, seqn)
    ensures Once(Do(s, a), source, seqn)
  {
    if a.Request? {
      StepLastReq(s.primary.ledger, a.op, source);
      CommitsOfSnoc(s.log, a.op, source, seqn);
    }
  }

  lemma OnceAt(run: seq<State>, steps: seq<Step>, k: nat, source: uint32, seqn: uint32)
    requires IsRun(run, steps) && k < |steps| && 0 < seqn && Once(run[k], source, seqn)
    requires steps[k].Failover? && CommitsOf(run[k].log, source, seqn) > 0 ==> Reached(run[k].backup, source, seqn)
    ensures Once(run[k + 1], source, seqn)
  {
    RunInv(run, steps, k);
    assert Taken(run, steps, k);
    OnceStep(run[k], steps[k], source, seqn);
  }

  /**
   Exactly once over the whole run, whatever the number of failovers: if every promoted backup had applied
   a snapshot covering this number in case it was committed before, it is committed at most once, and
   refused by the current primary once it has been.
   */
  lemma {:induction false} FailoversKeepOnce(run: seq<State>, steps: seq<Step>, upto: nat, source: uint32, seqn: uint32)
    requires IsRun(run, steps) && upto < |run| && 0 < seqn
    requires forall k | 0 <= k < upto && steps[k].Failover? && CommitsOf(run[k].log, source, seqn) > 0 ::
               Reached(run[k].backup, source, seqn)
    ensures CommitsOf(run[upto].log, source, seqn) <= 1
    ensures CommitsOf(run[upto].log, source, seqn) == 1 ==> Reached(run[upto].primary, source, seqn)
  {
    if upto > 0 {
      FailoversKeepOnce(run, steps, upto - 1, source, seqn);
      OnceAt(run, steps, upto - 1, source, seqn);
    }
  }

  /** What has been committed is covered by the latest snapshot, as long as failovers promote its owner. */
  lemma LatestStep(s: State, a: Step, source: uint32, seqn: uint32)
    requires Inv(s) && SentOk(s) && Enabled(s, a) && 0 < seqn && (a.Failover? ==> s.backup == s.sent)
    requires CommitsOf(s.log, source, seqn) > 0 ==> Reached(s.sent, source, seqn)
    ensures CommitsOf(Do(s, a).log, source, seqn) > 0 ==> Reached(Do(s, a).sent, source, seqn)
  {
    ReachedGrows(s.sent.history, s.primary.history, source);
    if a.Request? {
      StepLastReq(s.primary.ledger, a.op, source);
      CommitsOfSnoc(s.log, a.op, source, seqn);
    }
  }

  /**
   A line whose failovers promote backups that have applied the latest snapshot commits every number of
   every source at most once.
   */
  lemma {:induction false} LatestKeepsOnce(run: seq<State>, steps: seq<Step>, upto: nat, source: uint32, seqn: uint32)
    requires IsRun(run, steps) && upto < |run| && 0 < seqn
    requires forall k | 0 <= k < upto && steps[k].Failover? :: run[k].backup == run[k].sent
    ensures CommitsOf(run[upto].log, source, seqn) > 0 ==> Reached(run[upto].sent, source, seqn)
    ensures CommitsOf(run[upto].log, source, seqn) <= 1
  {
    if upto > 0 {
      LatestKeepsOnce(run, steps, upto - 1, source, seqn);
      RunInv(run, steps, upto - 1);
      RunSent(run, steps, upto - 1);
      assert Taken(run, steps, upto - 1);
      LatestStep(run[upto - 1], steps[upto - 1], source, seqn);
      forall k | 0 <= k < upto && steps[k].Failover? && CommitsOf(run[k].log, source, seqn) > 0
        ensures Reached(run[k].backup, source, seqn)
      {
        LatestKeepsOnce(run, steps, k, source, seqn);
      }
      FailoversKeepOnce(run, steps, upto, source, seqn);
    }
  }

  /**
   The failover itself: a backup that has applied the latest snapshot refuses, once promoted, every
   transfer its predecessor ever committed.
   */
  lemma RefusedAfterFailover(run: seq<State>, steps: seq<Step>, k: nat, i: nat)
    requires IsRun(run, steps) && k < |steps| && steps[k].Failover? && run[k].backup == run[k].sent
    requires i < |run[k].primary.history| && CommittedAt(run[k].primary.history, i)
    ensures OutcomeOf(run[k + 1].primary.ledger, run[k].primary.history[i]).Duplicate?
  {
    RunInv(run, steps, k);
    RunSent(run, steps, k);
    assert Taken(run, steps, k);
    var h, sent := run[k].primary.history, run[k].sent.history;
    if |sent| <= i {
      QuietAt(h, |sent|, i);
    }
    assert sent[..i] == h[..i];
    assert AcceptedAt(sent, i);
    RefusedExactlyWhenCovered(sent, h[i]);
  }

  /**
   A commit whose snapshot is lost: after the failover the client asks again, and the transfer is
   committed a second time exactly when the backup's table lists its destination already, or the client pays
   itself.
   */
  lemma LostCommitRepeats(run: seq<State>, steps: seq<Step>, k: nat, op: Op) returns (t: State)
    requires IsRun(run, steps) && k < |run| && run[k].backup == run[k].sent
    requires op.Transfer? && Commits(run[k].primary.ledger, op)
    ensures var s := run[k];
            var lost := Lose(|s.wire|);
            var s1 := Do(s, Request(op));
            && Enabled(s1, lost) && Enabled(Do(s1, lost), Failover(s.backup))
            && t == Do(Do(Do(s1, lost), Failover(s.backup)), Request(op))
            && CommitsOf(t.log, op.source, op.seqn) ==
               CommitsOf(s.log, op.source, op.seqn)
               + (if Known(s.backup.ledger, op.dest) || op.dest == op.source then 2 else 1)
  {
    var s := run[k];
    RunInv(run, steps, k);
    RunSent(run, steps, k);
    LagAlways(run, steps, k);
    LostCommitExactly(s.backup.ledger, s.primary.ledger, op);
    t := Do(Do(Do(Do(s, Request(op)), Lose(|s.wire|)), Failover(s.backup)), Request(op));
    CommitsOfSnoc(s.log, op, op.source, op.seqn);
    CommitsOfSnoc(s.log + [op], op, op.source, op.seqn);
  }

  /** No ledger of the line ever holds two commits, or any two acceptances, of the same number. */
  lemma OncePerLedger(run: seq<State>, steps: seq<Step>, k: nat, i: nat, j: nat)
    requires IsRun(run, steps) && k < |run|
    requires var h := run[k].primary.history;
             i < j < |h| && AcceptedAt(h, i) && AcceptedAt(h, j) && h[i].source == h[j].source
    ensures run[k].primary.history[i].seqn < run[k].primary.history[j].seqn
    ensures run[k].primary.ledger == Run(run[k].primary.history)
  {
    RunInv(run, steps, k);
    AcceptedIncrease(run[k].primary.history, i, j);
  }
}
