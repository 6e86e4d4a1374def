/**
 Any number of servers that start, crash and restart at will, over a network that loses, duplicates
 and reorders packets: a packet once sent can be delivered any number of times, or never.
 */
module Clusters {
  import opened Machine
  import opened Ledgers
  import opened Banks
  import opened Peers
  import opened Nodes
  import opened Threads

  datatype State = State(nodes: map<int, Node>, net: set<Packet>)

  datatype Step =
    | StartAlone(id: int)
    | StartAnswered(id: int, p: Packet)
    | Crash(id: int)
    | Ask(id: int, dst: int)                  // FIND_LEADER broadcast of a starting server
    | Client(id: int, body: Body)             // a client's packet; its sender is not a server and plays no part
    | Heartbeat(id: int, dst: int)
    | Deliver(id: int, p: Packet)
    | Wakeup(id: int, t: Thread)
    | Serve(id: int, i: nat)
    | Sweep(id: int, dead: set<int>)

  predicate Waiting(n: Node, t: Thread) {
    if t.Receiver? then n.recvWaiting else n.monWaiting
  }

  predicate Enabled(s: State, a: Step) {
    match a
    case StartAlone(id) => id !in s.nodes
    case StartAnswered(id, p) => id !in s.nodes && p in s.net && p.dst == id && p.body.Coordinator?
    case Crash(id) => id in s.nodes
    case Ask(id, dst) => id != dst
    case Client(id, body) => body.Desc? || (body.Req? && body.op.Transfer?)
    case Heartbeat(id, dst) => id in s.nodes && dst in s.nodes[id].list && dst != id
    case Deliver(id, p) => id in s.nodes && p in s.net && p.dst == id && !s.nodes[id].recvWaiting
    case Wakeup(id, t) => id in s.nodes && Waiting(s.nodes[id], t)
    case Serve(id, i) => id in s.nodes && i < |s.nodes[id].requests|
    case Sweep(id, dead) => id in s.nodes && id !in dead && !s.nodes[id].monWaiting
  }

  /** The server and packets a step leaves behind, for the steps that change a server. */
  function Effect(s: State, a: Step): (Node, seq<Packet>)
    requires Enabled(s, a) && !a.Crash? && !a.Ask? && !a.Client? && !a.Heartbeat?
  {
    match a
    case StartAlone(id) => (Alone(id), [])
    case StartAnswered(id, p) => Answered(id, p.src, p.body.leaderId, p.body.list)
    case Deliver(id, p) => Dispatch(s.nodes[id], p)
    case Wakeup(id, t) => Wake(s.nodes[id], t)
    case Serve(id, i) => RunRequest(s.nodes[id], i)
    case Sweep(id, dead) => AfterSweep(s.nodes[id], dead)
  }

  function ToSet(out: seq<Packet>): set<Packet> {
    set p | p in out
  }

  function Do(s: State, a: Step): State
    requires Enabled(s, a)
  {
    match a
    case Crash(id) => s.(nodes := s.nodes - {id})
    case Ask(id, dst) => s.(net := s.net + {Packet(id, dst, FindLeader)})
    case Client(id, body) => s.(net := s.net + {Packet(id, id, body)})
    case Heartbeat(id, dst) => s.(net := s.net + {Packet(id, dst, Ping(id))})
    case _ => var (n, out) := Effect(s, a); State(s.nodes[a.id := n], s.net + ToSet(out))
  }

  const START: State := State(map[], {})

  ghost predicate Next(s: State, s': State) {
    exists a :: Enabled(s, a) && s' == Do(s, a)
  }

  ghost predicate IsRun(run: seq<State>) {
    run != [] && run[0] == START && forall k | 0 < k < |run| :: Next(run[k - 1], run[k])
  }

  // ---------------------------------------------------------------------------------------------
  // The invariant
  // ---------------------------------------------------------------------------------------------

  /** The ledger some sequential history of discoveries and transfers produces from scratch. */
  ghost predicate Sequential(l: Ledger) {
    exists ops :: l == Run(ops)
  }

  /** What holds of a server whatever its role, leader and flags say. */
  ghost predicate NodeSafe(n: Node) {
    && ListOk(n.list)
    && Sequential(n.ledger)
    && (forall i | 0 <= i < |n.requests| :: n.requests[i].Transfer?)
  }

  ghost predicate NodeOk(n: Node) {
    NodeSafe(n) && n.id <= n.leader && (n.primary <==> n.leader == n.id)
  }

  ghost predicate PacketSafe(p: Packet) {
    match p.body
    case Coordinator(leaderId, list) => leaderId == p.src && ListOk(list)
    case RepUpdate(ledger) => Sequential(ledger)
    case Req(op) => op.Transfer?
    case _ => true
  }

  /** ELECTION climbs, ANSWER descends, COORDINATOR names its sender, snapshots are sequential ledgers. */
  ghost predicate PacketOk(p: Packet) {
    match p.body
    case Coordinator(leaderId, list) => leaderId == p.src && p.src != p.dst && ListOk(list)
    case Election(leaderId) => leaderId == p.src && p.src < p.dst
    case Answer(leaderId) => leaderId == p.src && p.dst < p.src
    case RepUpdate(ledger) => p.src != p.dst && Sequential(ledger)
    case Ping(leaderId) => leaderId == p.src && p.src != p.dst
    case Desc(_) => true
    case Req(op) => op.Transfer?
    case _ => p.src != p.dst
  }

  ghost predicate Inv(s: State) {
    && (forall id | id in s.nodes :: s.nodes[id].id == id && NodeOk(s.nodes[id]))
    && (forall p | p in s.net :: PacketOk(p))
  }

  ghost predicate ResultOk(id: int, r: (Node, seq<Packet>)) {
    r.0.id == id && NodeOk(r.0) && forall p | p in r.1 :: PacketOk(p)
  }

  lemma SequentialApply(l: Ledger, op: Op)
    requires Sequential(l)
    ensures Sequential(Apply(l, op))
  {
    var ops :| l == Run(ops);
    RunSnoc(EMPTY, ops, op);
    assert Apply(l, op) == Run(ops + [op]);
  }

  lemma PromoteOk(n: Node)
    requires NodeSafe(n)
    ensures ResultOk(n.id, Promote(n))
  {
    SendExact(n.id, n.list, Except(n.id), Coordinator(n.id, n.list));
    SendExact(n.id, n.list, Except(n.id), RepUpdate(n.ledger));
  }

  lemma StartElectionOk(n: Node, t: Thread)
    requires NodeOk(n)
    ensures ResultOk(n.id, StartElection(n, t))
  {
    SendExact(n.id, n.list, Above(n.id), Election(n.id));
    PromoteOk(n.(electing := true));
  }

  lemma FindLeaderOk(n: Node, sender: int)
    requires NodeOk(n) && sender != n.id
    ensures ResultOk(n.id, OnFindLeader(n, sender))
  {
    var list := AddPeer(n.list, n.id, sender);
    SendExact(n.id, list, ExceptBoth(n.id, sender), Coordinator(n.id, list));
  }

  lemma DispatchOk(n: Node, p: Packet)
    requires NodeOk(n) && PacketOk(p) && p.dst == n.id
    ensures ResultOk(n.id, Dispatch(n, p))
  {
    StartElectionOk(n, Receiver);
    match p.body {
      case FindLeader => FindLeaderOk(n, p.src);
      case Desc(ip) => SequentialApply(n.ledger, Discover(ip));
      case _ =>
    }
  }

  lemma EffectOk(s: State, a: Step)
    requires Inv(s) && Enabled(s, a) && !a.Crash? && !a.Ask? && !a.Client? && !a.Heartbeat?
    ensures ResultOk(a.id, Effect(s, a))
  {
    match a {
      case StartAlone(id) => assert EMPTY == Run([]);
      case StartAnswered(id, p) =>
        assert EMPTY == Run([]);
        AddAllOk([id], id, p.body.list);
        PromoteOk(Fresh(id, id, true, AddAll([id], id, p.body.list)));
      case Deliver(id, p) => DispatchOk(s.nodes[id], p);
      case Wakeup(id, t) => PromoteOk(SetWaiting(s.nodes[id], t, false));
      case Serve(id, i) =>
        var n := RunRequest(s.nodes[id], i).0;
        SequentialApply(s.nodes[id].ledger, s.nodes[id].requests[i]);
        SendExact(id, n.list, Except(id), RepUpdate(n.ledger));
      case Sweep(id, dead) =>
        WithoutOk(s.nodes[id].list, dead);
        StartElectionOk(s.nodes[id].(list := Without(s.nodes[id].list, dead)), Monitor);
    }
  }

  lemma StepKeepsInv(s: State, a: Step)
    requires Inv(s) && Enabled(s, a)
    ensures Inv(Do(s, a))
  {
    if !a.Crash? && !a.Ask? && !a.Client? && !a.Heartbeat? {
      EffectOk(s, a);
    }
  }

  lemma {:induction false} RunInv(run: seq<State>, k: nat)
    requires IsRun(run) && k < |run|
    ensures Inv(run[k])
  {
    if k > 0 {
      RunInv(run, k - 1);
      assert Next(run[k - 1], run[k]);
      var a :| Enabled(run[k - 1], a) && run[k] == Do(run[k - 1], a);
      StepKeepsInv(run[k - 1], a);
    }
  }

  // ---------------------------------------------------------------------------------------------
  // What every run guarantees
  // ---------------------------------------------------------------------------------------------

  /** The ledger is the work of one sequential history, and every balance is explained by it. */
  ghost predicate Accounted(l: Ledger) {
    exists ops :: l == Run(ops) && forall i | 0 <= i < |l.clients| :: Balanced(l.clients[i], ops)
  }

  ghost predicate Balanced(c: Client, ops: seq<Op>) {
    c.balance == INITIAL_BALANCE + Flow(Journal(ops), Into(c.ip)) - Flow(Journal(ops), OutOf(c.ip))
  }

  lemma SequentialAccounted(l: Ledger)
    requires Sequential(l)
    ensures Valid(l) && Accounted(l)
  {
    var ops :| l == Run(ops);
    RunIsValid(ops);
    forall i | 0 <= i < |l.clients| ensures Balanced(l.clients[i], ops) {
      LedgerExplained(ops, i);
    }
  }

  /** What handlers that overlap at a server may leave in the variables they write without a lock. */
  ghost predicate Disturbed(s: State, t: State) {
    && t.net == s.net && t.nodes.Keys == s.nodes.Keys
    && forall id | id in s.nodes :: SameButRoles(s.nodes[id], t.nodes[id])
  }

  predicate SameButRoles(n: Node, n': Node) {
    n' == n.(leader := n'.leader, primary := n'.primary, electing := n'.electing,
             recvWaiting := n'.recvWaiting, monWaiting := n'.monWaiting)
  }

  /** A step, after which role, leader, flag and sleeping threads of every server may be anything. */
  ghost predicate LooseNext(s: State, s': State) {
    exists a :: Enabled(s, a) && Disturbed(Do(s, a), s')
  }

  ghost predicate IsLooseRun(run: seq<State>) {
    run != [] && run[0] == START && forall k | 0 < k < |run| :: LooseNext(run[k - 1], run[k])
  }

  lemma RunIsLoose(run: seq<State>)
    requires IsRun(run)
    ensures IsLooseRun(run)
  {
    forall k | 0 < k < |run| ensures LooseNext(run[k - 1], run[k]) {
      assert Next(run[k - 1], run[k]);
      var a :| Enabled(run[k - 1], a) && run[k] == Do(run[k - 1], a);
      assert Disturbed(Do(run[k - 1], a), run[k]);
    }
  }

  ghost predicate Safe(s: State) {
    && (forall id | id in s.nodes :: s.nodes[id].id == id && NodeSafe(s.nodes[id]))
    && (forall p | p in s.net :: PacketSafe(p))
  }

  ghost predicate ResultSafe(id: int, r: (Node, seq<Packet>)) {
    r.0.id == id && NodeSafe(r.0) && forall p | p in r.1 :: PacketSafe(p)
  }

  lemma PromoteSafe(n: Node)
    requires NodeSafe(n)
    ensures ResultSafe(n.id, Promote(n))
  {
    SendExact(n.id, n.list, Except(n.id), Coordinator(n.id, n.list));
    SendExact(n.id, n.list, Except(n.id), RepUpdate(n.ledger));
  }

  lemma StartElectionSafe(n: Node, t: Thread)
    requires NodeSafe(n)
    ensures ResultSafe(n.id, StartElection(n, t))
  {
    SendExact(n.id, n.list, Above(n.id), Election(n.id));
    PromoteSafe(n.(electing := true));
  }

  lemma FindLeaderSafe(n: Node, sender: int)
    requires NodeSafe(n)
    ensures ResultSafe(n.id, OnFindLeader(n, sender))
  {
    var list := AddPeer(n.list, n.id, sender);
    SendExact(n.id, list, ExceptBoth(n.id, sender), Coordinator(n.id, list));
  }

  lemma DispatchSafe(n: Node, p: Packet)
    requires NodeSafe(n) && PacketSafe(p)
    ensures ResultSafe(n.id, Dispatch(n, p))
  {
    match p.body {
      case FindLeader => FindLeaderSafe(n, p.src);
      case Desc(ip) => SequentialApply(n.ledger, Discover(ip));
      case Election(_) => StartElectionSafe(n, Receiver);
      case Coordinator(_, _) => StartElectionSafe(n, Receiver);
      case _ =>
    }
  }

  lemma EffectSafe(s: State, a: Step)
    requires Safe(s) && Enabled(s, a) && !a.Crash? && !a.Ask? && !a.Client? && !a.Heartbeat?
    ensures ResultSafe(a.id, Effect(s, a))
  {
    match a {
      case StartAlone(id) => assert EMPTY == Run([]);
      case StartAnswered(id, p) =>
        assert EMPTY == Run([]);
        AddAllOk([id], id, p.body.list);
        PromoteSafe(Fresh(id, id, true, AddAll([id], id, p.body.list)));
      case Deliver(id, p) => DispatchSafe(s.nodes[id], p);
      case Wakeup(id, t) => PromoteSafe(SetWaiting(s.nodes[id], t, false));
      case Serve(id, i) =>
        var n := RunRequest(s.nodes[id], i).0;
        SequentialApply(s.nodes[id].ledger, s.nodes[id].requests[i]);
        SendExact(id, n.list, Except(id), RepUpdate(n.ledger));
      case Sweep(id, dead) =>
        WithoutOk(s.nodes[id].list, dead);
        StartElectionSafe(s.nodes[id].(list := Without(s.nodes[id].list, dead)), Monitor);
    }
  }

  lemma StepKeepsSafe(s: State, a: Step, s': State)
    requires Safe(s) && Enabled(s, a) && Disturbed(Do(s, a), s')
    ensures Safe(s')
  {
    if !a.Crash? && !a.Ask? && !a.Client? && !a.Heartbeat? {
      EffectSafe(s, a);
    }
    assert Safe(Do(s, a));
    forall id | id in s'.nodes ensures s'.nodes[id].id == id && NodeSafe(s'.nodes[id]) {
      assert SameButRoles(Do(s, a).nodes[id], s'.nodes[id]);
    }
  }

  lemma {:induction false} LooseRunSafe(run: seq<State>, k: nat)
    requires IsLooseRun(run) && k < |run|
    ensures Safe(run[k])
  {
    if k > 0 {
      LooseRunSafe(run, k - 1);
      assert LooseNext(run[k - 1], run[k]);
      var a :| Enabled(run[k - 1], a) && Disturbed(Do(run[k - 1], a), run[k]);
      StepKeepsSafe(run[k - 1], a, run[k]);
    }
  }

  /**
   Ledger safety under split brain: in every reachable state every server's ledger, and every snapshot
   in flight, is valid and accounted for, however many servers believe to be primary and whatever handlers
   that overlap make of a server's role, leader and flag.
   */
  lemma LedgerSafety(run: seq<State>, k: nat)
    requires IsLooseRun(run) && k < |run|
    ensures forall id | id in run[k].nodes :: Valid(run[k].nodes[id].ledger) && Accounted(run[k].nodes[id].ledger)
    ensures forall p | p in run[k].net && p.body.RepUpdate? :: Valid(p.body.ledger) && Accounted(p.body.ledger)
  {
    LooseRunSafe(run, k);
    forall id | id in run[k].nodes
      ensures Valid(run[k].nodes[id].ledger) && Accounted(run[k].nodes[id].ledger)
    {
      SequentialAccounted(run[k].nodes[id].ledger);
    }
    forall p | p in run[k].net && p.body.RepUpdate? ensures Valid(p.body.ledger) && Accounted(p.body.ledger) {
      assert PacketSafe(p);
      SequentialAccounted(p.body.ledger);
    }
  }

  /**
   No server follows a lower id and roles match leadership, so the leader-id guards of the switch and
   the role guards of the handlers agree: a server takes requests exactly when it is primary and
   overwrites its ledger with a snapshot exactly when it is not.
   */
  lemma RolesMatchLeaders(run: seq<State>, k: nat, id: int, src: int, op: Op, snapshot: Ledger)
    requires IsRun(run) && k < |run| && id in run[k].nodes
    ensures var n := run[k].nodes[id];
            && id <= n.leader && (n.primary <==> n.leader == id)
            && Dispatch(n, Packet(src, id, Req(op))).0.requests == n.requests + (if n.primary then [op] else [])
            && Dispatch(n, Packet(src, id, RepUpdate(snapshot))).0.ledger == (if n.primary then n.ledger else snapshot)
  {
    RunInv(run, k);
  }

  /**
   A candidacy ends only by an ANSWER from a higher server, by following a higher server, or by the
   server's own promotion.
   */
  lemma CandidacyEnds(run: seq<State>, k: nat, a: Step, id: int)
    requires IsRun(run) && k < |run| && Enabled(run[k], a)
    requires id in run[k].nodes && id in Do(run[k], a).nodes
    requires run[k].nodes[id].electing && !Do(run[k], a).nodes[id].electing
    ensures var n' := Do(run[k], a).nodes[id];
            || (a.Deliver? && a.id == id && a.p.body.Answer? && id < a.p.src)
            || (a.Deliver? && a.id == id && a.p.body.Coordinator? && id < a.p.src == n'.leader && !n'.primary)
            || (a.id == id && n'.primary && n'.leader == id)
  {
    RunInv(run, k);
    assert a.Deliver? ==> PacketOk(a.p);
  }

  /** Every list a server holds or announces has distinct ids and fits the table, with overlapping handlers too. */
  lemma MembershipWellFormed(run: seq<State>, k: nat)
    requires IsLooseRun(run) && k < |run|
    ensures forall id | id in run[k].nodes :: ListOk(run[k].nodes[id].list)
    ensures forall p | p in run[k].net && p.body.Coordinator? :: ListOk(p.body.list) && p.body.leaderId == p.src
  {
    LooseRunSafe(run, k);
    assert forall p | p in run[k].net :: PacketSafe(p);
  }

  // ---------------------------------------------------------------------------------------------
  // Split brain, exactly
  // ---------------------------------------------------------------------------------------------

  ghost predicate AtMostOne(s: State) {
    forall i, j | i in s.nodes && j in s.nodes && s.nodes[i].primary && s.nodes[j].primary :: i == j
  }

  /**
   The guards of the branches that promote: no answer at startup or a lower leader found there, a sleep that
   ends with the flag still up, and the three ways into an election that finds nobody higher listed.
   */
  predicate Promotes(s: State, a: Step)
    requires Enabled(s, a)
  {
    match a
    case StartAlone(_) => true
    case StartAnswered(id, p) => p.body.leaderId < id
    case Wakeup(id, _) => s.nodes[id].electing
    case Deliver(id, p) =>
      && NobodyAbove(id, s.nodes[id].list)
      && ((p.body.Election? && !s.nodes[id].electing) || (p.body.Coordinator? && p.body.leaderId < id))
    case Sweep(id, dead) => MonitorPromotes(s.nodes[id], dead)
    case _ => false
  }

  lemma ElectionPromotes(n: Node, t: Thread)
    ensures StartElection(n, t).0.primary <==> n.primary || NobodyAbove(n.id, n.list)
  {
    CandidateChallengesHigher(n, t, Packet(0, 0, FindLeader));
  }

  /** Apart from the promoting branches no step makes a server primary. */
  lemma PromotesExactly(s: State, a: Step)
    requires Inv(s) && Enabled(s, a) && !a.Crash? && !a.Ask? && !a.Client? && !a.Heartbeat?
    ensures Promotes(s, a) ==> Effect(s, a).0.primary
    ensures Effect(s, a).0.primary ==> Promotes(s, a) || (a.id in s.nodes && s.nodes[a.id].primary)
  {
    match a {
      case Deliver(id, p) =>
        assert PacketOk(p);
        ElectionPromotes(s.nodes[id], Receiver);
      case Sweep(id, dead) =>
        ElectionPromotes(s.nodes[id].(list := Without(s.nodes[id].list, dead)), Monitor);
      case _ =>
    }
  }

  /** A step that promotes a server while another one is primary. */
  ghost predicate Splits(s: State, a: Step) {
    Enabled(s, a) && Promotes(s, a) && exists j :: j in s.nodes && j != a.id && s.nodes[j].primary
  }

  /** When one server changes or appears, two primaries arise only if it is one of them. */
  lemma OneChanges(s: State, s': State, id: int)
    requires AtMostOne(s) && id in s'.nodes
    requires forall j | j != id :: (j in s'.nodes <==> j in s.nodes) && (j in s.nodes ==> s'.nodes[j] == s.nodes[j])
    ensures !AtMostOne(s') <==> s'.nodes[id].primary && exists j :: j in s.nodes && j != id && s.nodes[j].primary
  {
    if j :| s'.nodes[id].primary && j in s.nodes && j != id && s.nodes[j].primary {
      assert s'.nodes[j].primary;
    }
  }

  /** Two primaries arise by exactly the splitting steps. */
  lemma SplitsExactly(s: State, a: Step)
    requires Inv(s) && Enabled(s, a) && AtMostOne(s)
    ensures !AtMostOne(Do(s, a)) <==> Splits(s, a)
  {
    if !a.Crash? && !a.Ask? && !a.Client? && !a.Heartbeat? {
      PromotesExactly(s, a);
      OneChanges(s, Do(s, a), a.id);
    }
  }

  /** A run with the steps it took. */
  ghost predicate Labelled(run: seq<State>, steps: seq<Step>) {
    && |run| == |steps| + 1 && run[0] == START
    && forall k | 0 <= k < |steps| :: Taken(run, steps, k)
  }

  ghost predicate Taken(run: seq<State>, steps: seq<Step>, k: nat)
    requires |run| == |steps| + 1 && k < |steps|
  {
    Enabled(run[k], steps[k]) && run[k + 1] == Do(run[k], steps[k])
  }

  lemma LabelledIsRun(run: seq<State>, steps: seq<Step>)
    requires Labelled(run, steps)
    ensures IsRun(run)
  {
    forall k | 0 < k < |run| ensures Next(run[k - 1], run[k]) {
      assert Taken(run, steps, k - 1);
    }
  }

  lemma SplitAt(run: seq<State>, steps: seq<Step>, k: nat)
    requires Labelled(run, steps) && k < |steps|
    ensures AtMostOne(run[k]) ==> (!AtMostOne(run[k + 1]) <==> Splits(run[k], steps[k]))
    ensures Splits(run[k], steps[k]) ==> !AtMostOne(run[k]) || !AtMostOne(run[k + 1])
  {
    LabelledIsRun(run, steps);
    RunInv(run, k);
    assert Taken(run, steps, k);
    if AtMostOne(run[k]) {
      SplitsExactly(run[k], steps[k]);
    }
  }

  ghost predicate HasSplit(run: seq<State>, k: nat)
    requires k < |run|
  {
    exists j | 0 <= j <= k :: !AtMostOne(run[j])
  }

  lemma HasSplitNext(run: seq<State>, k: nat)
    requires 0 < k < |run|
    ensures HasSplit(run, k) <==> HasSplit(run, k - 1) || !AtMostOne(run[k])
  {
  }

  /**
   Split brain, exactly: by a certain moment of a run two servers have been primary at once if and only if
   a server has taken a promoting branch while another one was primary.
   */
  lemma {:induction false} SplitBrainExactly(run: seq<State>, steps: seq<Step>, k: nat)
    requires Labelled(run, steps) && k < |run|
    ensures HasSplit(run, k) <==> exists j | 0 <= j < k :: Splits(run[j], steps[j])
  {
    if k > 0 {
      SplitBrainExactly(run, steps, k - 1);
      HasSplitNext(run, k);
      SplitAt(run, steps, k - 1);
      assert !AtMostOne(run[k - 1]) ==> HasSplit(run, k - 1);
    }
  }

  /** Two primaries at once are reachable: a server that hears nobody at startup promotes itself. */
  lemma SplitBrain(a: int, b: int) returns (run: seq<State>)
    requires a != b
    ensures IsRun(run) && |run| == 3
    ensures a in run[2].nodes && run[2].nodes[a].primary && b in run[2].nodes && run[2].nodes[b].primary
  {
    var s1 := Do(START, StartAlone(a));
    var s2 := Do(s1, StartAlone(b));
    assert Enabled(START, StartAlone(a)) && Enabled(s1, StartAlone(b));
    run := [START, s1, s2];
  }

  // ---------------------------------------------------------------------------------------------
  // A takeover erases committed transfers
  // ---------------------------------------------------------------------------------------------

  function Last(run: seq<State>): State
    requires run != []
  {
    run[|run| - 1]
  }

  lemma Extend(run: seq<State>, a: Step) returns (run': seq<State>)
    requires IsRun(run) && Enabled(Last(run), a)
    ensures IsRun(run') && run < run' && Last(run') == Do(Last(run), a)
  {
    run' := run + [Do(Last(run), a)];
    assert Next(Last(run), Last(run'));
  }

  /** A newcomer asks a primary that knows nobody else, and is answered. */
  lemma Answers(run: seq<State>, low: int, high: int) returns (run': seq<State>)
    requires IsRun(run) && low != high && 1 < MAX_SERVERS && low in Last(run).nodes
    requires var n := Last(run).nodes[low];
             n.id == low && n.leader == low && !n.recvWaiting && n.list == [low]
    ensures IsRun(run') && run < run'
    ensures Last(run').nodes == Last(run).nodes[low := Last(run).nodes[low].(list := [low, high])]
    ensures Last(run).net <= Last(run').net && Packet(low, high, Coordinator(low, [low, high])) in Last(run').net
    ensures Packet(low, high, RepUpdate(Last(run).nodes[low].ledger)) in Last(run').net
  {
    var n, ask := Last(run).nodes[low], Packet(high, low, FindLeader);
    run' := Extend(run, Ask(high, low));
    assert AddPeer(n.list, low, high) == [low, high];
    assert Packet(low, high, Coordinator(low, [low, high])) == OnFindLeader(n, high).1[0];
    assert Packet(low, high, RepUpdate(n.ledger)) == OnFindLeader(n, high).1[1];
    run' := Extend(run', Deliver(low, ask));
  }

  /** The newcomer finds a lower leader, takes over and says so, with an empty ledger. */
  lemma TakesOver(run: seq<State>, low: int, high: int) returns (run': seq<State>)
    requires IsRun(run) && low < high && 1 < MAX_SERVERS && high !in Last(run).nodes
    requires Packet(low, high, Coordinator(low, [low, high])) in Last(run).net
    ensures IsRun(run') && run < run'
    ensures Last(run').nodes == Last(run).nodes[high := Fresh(high, high, true, [high, low])]
    ensures Packet(high, low, Coordinator(high, [high, low])) in Last(run').net
    ensures Packet(high, low, RepUpdate(EMPTY)) in Last(run').net
  {
    var n := Fresh(high, high, true, [high, low]);
    assert [low, high][..1] == [low];
    assert AddAll([high], high, [low]) == [high, low];
    assert AddAll([high], high, [low, high]) == [high, low];
    PromotionTellsAll(n, Packet(high, low, Coordinator(high, [high, low])));
    PromotionTellsAll(n, Packet(high, low, RepUpdate(EMPTY)));
    run' := Extend(run, StartAnswered(high, Packet(low, high, Coordinator(low, [low, high]))));
  }

  /** The old primary follows it and takes over its ledger. */
  lemma Forgets(run: seq<State>, low: int, high: int, list: seq<int>) returns (run': seq<State>)
    requires IsRun(run) && low < high && low in Last(run).nodes
    requires Last(run).nodes[low].id == low && !Last(run).nodes[low].recvWaiting
    requires Packet(high, low, Coordinator(high, list)) in Last(run).net
    requires Packet(high, low, RepUpdate(EMPTY)) in Last(run).net
    ensures IsRun(run') && run < run' && Last(run').nodes.Keys == Last(run).nodes.Keys
    ensures forall id | id in Last(run).nodes && id != low :: Last(run').nodes[id] == Last(run).nodes[id]
    ensures Last(run').nodes[low].ledger == EMPTY && Last(run').nodes[low].leader == high
    ensures Last(run').nodes[low].requests == Last(run).nodes[low].requests
  {
    run' := Extend(run, Deliver(low, Packet(high, low, Coordinator(high, list))));
    run' := Extend(run', Deliver(low, Packet(high, low, RepUpdate(EMPTY))));
  }

  /**
   From any reachable state with one primary that knows nobody else, a server of higher id that starts up,
   asks for the leader and is answered leaves every ledger of the system empty.
   */
  lemma TakeoverErases(run: seq<State>, low: int, high: int) returns (run': seq<State>)
    requires IsRun(run) && low < high && 1 < MAX_SERVERS && Last(run).nodes.Keys == {low}
    requires var n := Last(run).nodes[low]; n.primary && !n.recvWaiting && n.list == [low]
    ensures IsRun(run') && run < run' && Last(run').nodes.Keys == {low, high}
    ensures Last(run').nodes[high].primary && Last(run').nodes[low].leader == high
    ensures Last(run').nodes[low].ledger == Last(run').nodes[high].ledger == EMPTY
    ensures Last(run').nodes[low].requests == Last(run).nodes[low].requests && Last(run').nodes[high].requests == []
  {
    RunInv(run, |run| - 1);
    run' := Answers(run, low, high);
    run' := TakesOver(run', low, high);
    run' := Forgets(run', low, high, [high, low]);
  }

  /** A lone primary serves one more packet of a client. */
  lemma ServesOne(run: seq<State>, low: int, op: Op) returns (run': seq<State>)
    requires IsRun(run) && low in Last(run).nodes
    requires Last(run).nodes[low] == Alone(low).(ledger := Last(run).nodes[low].ledger)
    ensures IsRun(run') && run < run' && Last(run').nodes.Keys == Last(run).nodes.Keys
    ensures Last(run').nodes[low] == Alone(low).(ledger := Apply(Last(run).nodes[low].ledger, op))
  {
    var body := if op.Discover? then Desc(op.ip) else Req(op);
    run' := Extend(run, Step.Client(low, body));
    run' := Extend(run', Deliver(low, Packet(low, low, body)));
    if op.Transfer? {
      assert Last(run').nodes[low].requests == [op];
      run' := Extend(run', Serve(low, 0));
    }
  }

  /** A server that started alone can have served any history. */
  lemma {:induction false} ServesAll(low: int, ops: seq<Op>) returns (run: seq<State>)
    ensures IsRun(run) && Last(run).nodes.Keys == {low}
    ensures Last(run).nodes[low] == Alone(low).(ledger := Run(ops))
  {
    if ops == [] {
      run := Extend([START], StartAlone(low));
    } else {
      run := ServesAll(low, ops[..|ops| - 1]);
      run := ServesOne(run, low, ops[|ops| - 1]);
    }
  }

  /**
   Committed transfers do not survive a higher server joining. Whatever history a primary on its own has
   served, there is a run in which it has served it and in which afterwards no ledger, and no thread still to
   run, knows anything of it.
   */
  lemma HistoryForgotten(low: int, high: int, ops: seq<Op>) returns (run: seq<State>, k: nat)
    requires low < high && 1 < MAX_SERVERS
    ensures IsRun(run) && k < |run| && low in run[k].nodes && run[k].nodes[low].ledger == Run(ops)
    ensures Last(run).nodes.Keys == {low, high}
    ensures forall id | id in Last(run).nodes ::
              Last(run).nodes[id].ledger == EMPTY && Last(run).nodes[id].requests == []
  {
    run := ServesAll(low, ops);
    k := |run| - 1;
    ghost var s := run[k];
    run := TakeoverErases(run, low, high);
    assert run[k] == s;
  }

  // ---------------------------------------------------------------------------------------------
  // A late snapshot
  // ---------------------------------------------------------------------------------------------

  /** A server joins a primary, whose snapshot for it stays in flight. */
  lemma JoinsLate(backup: int, gone: int, ops: seq<Op>) returns (run: seq<State>)
    requires backup < gone && 1 < MAX_SERVERS
    ensures IsRun(run) && Last(run).nodes.Keys == {backup, gone}
    ensures Last(run).nodes[backup] == Fresh(backup, gone, false, [gone, backup])
    ensures Last(run).nodes[gone] == Alone(gone).(ledger := Run(ops), list := [gone, backup])
    ensures Packet(gone, backup, RepUpdate(Run(ops))) in Last(run).net
  {
    run := ServesAll(gone, ops);
    run := Answers(run, gone, backup);
    run := Extend(run, StartAnswered(backup, Packet(gone, backup, Coordinator(gone, [gone, backup]))));
  }

  /** The old primary is gone, and the server follows a new one that has never seen it. */
  lemma FollowsNew(backup: int, gone: int, next: int, ops: seq<Op>) returns (run: seq<State>)
    requires backup < gone < next && 1 < MAX_SERVERS
    ensures IsRun(run) && Last(run).nodes.Keys == {backup, next}
    ensures Last(run).nodes[next].primary && Last(run).nodes[next].ledger == EMPTY
    ensures var n := Last(run).nodes[backup]; n.id == backup && n.leader == next && !n.primary && !n.recvWaiting
    ensures Packet(gone, backup, RepUpdate(Run(ops))) in Last(run).net
  {
    run := JoinsLate(backup, gone, ops);
    run := Extend(run, Crash(gone));
    run := Extend(run, StartAlone(next));
    run := Answers(run, next, backup);
    run := Extend(run, Deliver(backup, Packet(next, backup, Coordinator(next, [next, backup]))));
  }

  /**
   A backup takes any snapshot from anybody: for every history there is a run that ends with one primary, one
   backup following it, and the backup holding the ledger of a primary that is gone, of which the one it
   follows knows nothing.
   */
  lemma LateSnapshot(backup: int, gone: int, next: int, ops: seq<Op>) returns (run: seq<State>)
    requires backup < gone < next && 1 < MAX_SERVERS
    ensures IsRun(run) && Last(run).nodes.Keys == {backup, next}
    ensures Last(run).nodes[next].primary && Last(run).nodes[backup].leader == next && !Last(run).nodes[backup].primary
    ensures Last(run).nodes[next].ledger == EMPTY && Last(run).nodes[backup].ledger == Run(ops)
  {
    run := FollowsNew(backup, gone, next, ops);
    run := Extend(run, Deliver(backup, Packet(gone, backup, RepUpdate(Run(ops)))));
  }

  // ---------------------------------------------------------------------------------------------
  // Two backups of a primary that has crashed
  // ---------------------------------------------------------------------------------------------

  /** A second backup joins; the first one learns of it with the list the primary sends around. */
  lemma SecondJoins(low: int, high: int, dead: int) returns (run: seq<State>)
    requires low < high < dead && 2 < MAX_SERVERS
    ensures IsRun(run) && Last(run).nodes.Keys == {low, high, dead}
    ensures Last(run).nodes[low] == Fresh(low, dead, false, [dead, low])
    ensures Last(run).nodes[high] == Fresh(high, dead, false, [dead, low, high])
    ensures Packet(dead, low, Coordinator(dead, [dead, low, high])) in Last(run).net
  {
    run := JoinsLate(low, dead, []);
    var announce := Coordinator(dead, [dead, low, high]);
    run := Extend(run, Ask(high, dead));
    var n := Last(run).nodes[dead];
    NewcomerIsTold(n, high, Packet(dead, high, announce));
    NewcomerIsTold(n, high, Packet(dead, low, announce));
    run := Extend(run, Deliver(dead, Packet(high, dead, FindLeader)));
    run := Extend(run, StartAnswered(high, Packet(dead, high, announce)));
  }

  /** Both backups know each other and the primary, which is gone. */
  lemma LeaderGone(low: int, high: int, dead: int) returns (run: seq<State>)
    requires low < high < dead && 2 < MAX_SERVERS
    ensures IsRun(run) && Last(run).nodes.Keys == {low, high}
    ensures forall id | id in {low, high} :: Last(run).nodes[id] == Fresh(id, dead, false, [dead, low, high])
  {
    run := SecondJoins(low, high, dead);
    run := Extend(run, Deliver(low, Packet(dead, low, Coordinator(dead, [dead, low, high]))));
    run := Extend(run, Crash(dead));
  }

  // ---------------------------------------------------------------------------------------------
  // Joining
  // ---------------------------------------------------------------------------------------------

  lemma {:induction false} NetGrows(run: seq<State>, steps: seq<Step>, j: nat, k: nat)
    requires Labelled(run, steps) && j <= k < |run|
    ensures run[j].net <= run[k].net
  {
    if j < k {
      NetGrows(run, steps, j, k - 1);
      assert Taken(run, steps, k - 1);
    }
  }

  /** A server takes over a leader above itself, at startup or later. */
  predicate Obeys(a: Step, id: int, p: Packet) {
    (a == Deliver(id, p) || a == StartAnswered(id, p)) && p.body.Coordinator? && id < p.body.leaderId
  }

  lemma ObeyingJoins(s: State, a: Step, id: int, p: Packet)
    requires Inv(s) && Enabled(s, a) && Obeys(a, id, p)
    ensures p.src != id && Packet(id, p.src, ServerJoin) in Do(s, a).net
    ensures id in Do(s, a).nodes && Do(s, a).nodes[id].leader == p.src && !Do(s, a).nodes[id].primary
  {
    assert PacketOk(p);
    assert Packet(id, p.src, ServerJoin) in Effect(s, a).1;
  }

  /**
   Joining closes the loop: from the moment a server obeys a leader on, whatever happens in between, its
   SERVER_JOIN can be delivered to that leader whenever it leads and is listening, and then the leader lists
   the server, or its table is full of others.
   */
  lemma JoinCloses(run: seq<State>, steps: seq<Step>, j: nat, k: nat, id: int, p: Packet)
    requires Labelled(run, steps) && j < k < |run| && Obeys(steps[j], id, p)
    requires p.src in run[k].nodes && run[k].nodes[p.src].leader == p.src && !run[k].nodes[p.src].recvWaiting
    ensures var join := Deliver(p.src, Packet(id, p.src, ServerJoin));
            && Enabled(run[k], join)
            && var list := Do(run[k], join).nodes[p.src].list;
            id in list || |list| == MAX_SERVERS
  {
    LabelledIsRun(run, steps);
    RunInv(run, j);
    RunInv(run, k);
    assert Taken(run, steps, j);
    ObeyingJoins(run[j], steps[j], id, p);
    NetGrows(run, steps, j + 1, k);
    assert NodeOk(run[k].nodes[p.src]);
    JoinIsListed(run[k].nodes[p.src], id);
  }
}
