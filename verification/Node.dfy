/** One server: its globals, and what each packet, timeout and detected failure does to them. */
module Nodes {
  import opened Machine
  import opened Ledgers
  import opened Peers
  import opened Threads

  datatype Body =
    | FindLeader
    | ServerJoin
    | Coordinator(leaderId: int, list: seq<int>)
    | RepUpdate(ledger: Ledger)
    | RepConfirm
    | Election(leaderId: int)
    | Answer(leaderId: int)
    | Ping(leaderId: int)
    | Desc(ip: uint32)
    | Req(op: Op)

  datatype Packet = Packet(src: int, dst: int, body: Body)

  /**
   electing is election_in_progress; the two waiting flags say which threads sleep inside start_election;
   requests are the transfers whose threads have been spawned and have not run yet.
   */
  datatype Node = Node(id: int, leader: int, primary: bool, electing: bool, list: seq<int>, ledger: Ledger,
                       requests: seq<Op>, recvWaiting: bool, monWaiting: bool)

  function Fresh(id: int, leader: int, primary: bool, list: seq<int>): Node {
    Node(id, leader, primary, false, list, EMPTY, [], false, false)
  }

  /** One copy of the body for every listed id that passes the filter. */
  function Send(me: int, list: seq<int>, keep: int -> bool, body: Body): seq<Packet> {
    if list == [] then []
    else
      var last := list[|list| - 1];
      Send(me, list[..|list| - 1], keep, body) + (if keep(last) then [Packet(me, last, body)] else [])
  }

  function Except(me: int): int -> bool {
    (id: int) => id != me
  }

  function Above(me: int): int -> bool {
    (id: int) => me < id
  }

  function ExceptBoth(me: int, other: int): int -> bool {
    (id: int) => id != me && id != other
  }

  /** propagate_state_to_backups: only a primary sends snapshots. */
  function Propagate(n: Node): seq<Packet> {
    if n.primary then Send(n.id, n.list, Except(n.id), RepUpdate(n.ledger)) else []
  }

  function Promote(n: Node): (Node, seq<Packet>) {
    var n' := n.(primary := true, leader := n.id, electing := false);
    (n', Send(n.id, n.list, Except(n.id), Coordinator(n.id, n.list)) + Propagate(n'))
  }

  function SetWaiting(n: Node, t: Thread, waiting: bool): Node {
    if t.Receiver? then n.(recvWaiting := waiting) else n.(monWaiting := waiting)
  }

  /** start_election up to the sleep, or to the promotion when nobody higher is listed. */
  function StartElection(n: Node, t: Thread): (Node, seq<Packet>) {
    var out := Send(n.id, n.list, Above(n.id), Election(n.id));
    if out == [] then Promote(n.(electing := true))
    else (SetWaiting(n.(electing := true), t, true), out)
  }

  /** The end of the sleep. */
  function Wake(n: Node, t: Thread): (Node, seq<Packet>) {
    var n' := SetWaiting(n, t, false);
    if n.electing then Promote(n') else (n', [])
  }

  function OnElection(n: Node, sender: int): (Node, seq<Packet>) {
    var (n', out) := if n.electing then (n, []) else StartElection(n, Receiver);
    (n', [Packet(n.id, sender, Answer(n.id))] + out)
  }

  function OnCoordinator(n: Node, sender: int, leaderId: int, list: seq<int>): (Node, seq<Packet>) {
    if leaderId < n.id then StartElection(n, Receiver)
    else
      var n' := n.(leader := leaderId, electing := false, primary := leaderId == n.id,
                   list := if list == [] then n.list else list);
      (n', if n'.primary then [] else [Packet(n.id, sender, ServerJoin)])
  }

  function OnFindLeader(n: Node, sender: int): (Node, seq<Packet>) {
    if n.leader != n.id then (n, [])
    else
      var n' := n.(list := AddPeer(n.list, n.id, sender));
      var announce := Coordinator(n.id, n'.list);
      (n', [Packet(n.id, sender, announce), Packet(n.id, sender, RepUpdate(n.ledger))]
           + Send(n.id, n'.list, ExceptBoth(n.id, sender), announce))
  }

  function OnRepUpdate(n: Node, sender: int, ledger: Ledger): (Node, seq<Packet>) {
    if n.leader == n.id then (n, [])
    else (if n.primary then n else n.(ledger := ledger), [Packet(n.id, sender, RepConfirm)])
  }

  /** The receive loop's switch. */
  function Dispatch(n: Node, p: Packet): (Node, seq<Packet>) {
    match p.body
    case FindLeader => OnFindLeader(n, p.src)
    case ServerJoin => (if n.leader == n.id then n.(list := AddPeer(n.list, n.id, p.src)) else n, [])
    case Coordinator(leaderId, list) => OnCoordinator(n, p.src, leaderId, list)
    case RepUpdate(ledger) => OnRepUpdate(n, p.src, ledger)
    case RepConfirm => (n, [])
    case Election(_) => OnElection(n, p.src)
    case Answer(_) => (n.(electing := false), [])
    case Ping(_) => (n, [])
    case Desc(ip) => (if n.leader == n.id then n.(ledger := Register(n.ledger, ip)) else n, [])
    case Req(op) => (if n.leader == n.id then n.(requests := n.requests + [op]) else n, [])
  }

  /** A spawned request thread gets the mutex; the server may have been demoted in the meantime. */
  function RunRequest(n: Node, i: nat): (Node, seq<Packet>)
    requires i < |n.requests|
  {
    var op := n.requests[i];
    var n' := n.(requests := n.requests[..i] + n.requests[i + 1..], ledger := Apply(n.ledger, op));
    (n', if OutcomeOf(n.ledger, op).Committed? then Propagate(n') else [])
  }

  /** The monitor after a sweep that evicted exactly these ids. */
  function AfterSweep(n: Node, dead: set<int>): (Node, seq<Packet>) {
    var n' := n.(list := Without(n.list, dead));
    if n.leader in dead && n.leader in n.list && !n.electing && n.leader != n.id then StartElection(n', Monitor)
    else (n', [])
  }

  /** Startup without an answer, and startup answered by the COORDINATOR of some other server. */
  function Alone(id: int): Node {
    Fresh(id, id, true, [id])
  }

  function Answered(id: int, sender: int, leaderId: int, list: seq<int>): (Node, seq<Packet>) {
    if leaderId < id then Promote(Fresh(id, id, true, AddAll([id], id, list)))
    else (Fresh(id, leaderId, false, list), if leaderId != id then [Packet(id, sender, ServerJoin)] else [])
  }

  predicate NobodyAbove(id: int, list: seq<int>) {
    forall other | other in list :: other <= id
  }

  /** The packets that reset the health timers: a leader that is obeyed, and whatever promotes the server. */
  predicate Resets(n: Node, p: Packet) {
    match p.body
    case Coordinator(leaderId, _) => n.id <= leaderId || NobodyAbove(n.id, n.list)
    case Election(_) => !n.electing && NobodyAbove(n.id, n.list)
    case _ => false
  }

  /** The monitor starts an election, and wins it at once. */
  predicate MonitorPromotes(n: Node, dead: set<int>) {
    && n.leader in dead && n.leader in n.list && !n.electing && n.leader != n.id
    && NobodyAbove(n.id, Without(n.list, dead))
  }

  // ---------------------------------------------------------------------------------------------
  // Who is told what
  // ---------------------------------------------------------------------------------------------

  lemma ChallengeEmpty(n: Node)
    ensures Send(n.id, n.list, Above(n.id), Election(n.id)) == [] <==> NobodyAbove(n.id, n.list)
  {
    var out := Send(n.id, n.list, Above(n.id), Election(n.id));
    SendExact(n.id, n.list, Above(n.id), Election(n.id));
    assert out != [] ==> out[0] in out;
    if id :| id in n.list && n.id < id {
      assert Packet(n.id, id, Election(n.id)) in out;
    }
  }

  lemma {:induction false} SendExact(me: int, list: seq<int>, keep: int -> bool, body: Body)
    ensures forall p: Packet :: p in Send(me, list, keep, body) <==>
              p.src == me && p.body == body && p.dst in list && keep(p.dst)
  {
    if list != [] {
      SendExact(me, list[..|list| - 1], keep, body);
    }
  }

  /** A new primary announces its list and its ledger to exactly the other listed servers. */
  lemma PromotionTellsAll(n: Node, p: Packet)
    ensures p in Promote(n).1 <==>
              p.src == n.id && p.dst in n.list && p.dst != n.id &&
              (p.body == Coordinator(n.id, n.list) || p.body == RepUpdate(n.ledger))
  {
    SendExact(n.id, n.list, Except(n.id), Coordinator(n.id, n.list));
    SendExact(n.id, n.list, Except(n.id), RepUpdate(n.ledger));
  }

  /**
   A candidate challenges exactly the higher servers it lists and waits; with none of them listed it
   is primary at once, whatever it was before.
   */
  lemma CandidateChallengesHigher(n: Node, t: Thread, p: Packet)
    ensures var alone := forall id | id in n.list :: id <= n.id;
            var (n', out) := StartElection(n, t);
            && (alone ==> n'.primary && n'.leader == n.id && !n'.electing)
            && (!alone ==> n' == SetWaiting(n.(electing := true), t, true))
            && (!alone ==> (p in out <==> p.src == n.id && p.dst in n.list && n.id < p.dst && p.body == Election(n.id)))
  {
    SendExact(n.id, n.list, Above(n.id), Election(n.id));
    var out := Send(n.id, n.list, Above(n.id), Election(n.id));
    assert out != [] ==> out[0] in out;
    if id :| id in n.list && n.id < id {
      assert Packet(n.id, id, Election(n.id)) in out;
    }
  }

  /**
   A server that asks a primary is listed if there is room, receives list and ledger, and every other
   listed server receives the same list; nobody else is told, and a backup tells nobody.
   */
  lemma NewcomerIsTold(n: Node, sender: int, p: Packet)
    requires sender != n.id
    ensures var (n', out) := OnFindLeader(n, sender);
            && (n.leader != n.id ==> n' == n && out == [])
            && (n.leader == n.id ==>
                  && n.list <= n'.list
                  && (forall id :: id in n'.list <==> id in n.list || (id == sender && |n.list| < MAX_SERVERS))
                  && (p in out <==>
                        p.src == n.id &&
                        ((p.dst == sender && p.body == RepUpdate(n.ledger)) ||
                         ((p.dst == sender || (p.dst in n'.list && p.dst != n.id)) &&
                          p.body == Coordinator(n.id, n'.list)))))
  {
    var list := AddPeer(n.list, n.id, sender);
    SendExact(n.id, list, ExceptBoth(n.id, sender), Coordinator(n.id, list));
  }

  /**
   A request thread that commits on a primary sends the new ledger to exactly the other listed servers;
   one that does not commit, or whose server was demoted meanwhile, sends nothing.
   */
  lemma CommitIsPropagated(n: Node, i: nat, p: Packet)
    requires i < |n.requests|
    ensures var (n', out) := RunRequest(n, i);
            p in out <==>
              && OutcomeOf(n.ledger, n.requests[i]).Committed? && n.primary
              && p.src == n.id && p.dst in n.list && p.dst != n.id && p.body == RepUpdate(n'.ledger)
  {
    SendExact(n.id, n.list, Except(n.id), RepUpdate(RunRequest(n, i).0.ledger));
  }

  /** An idle backup becomes candidate or primary in a monitor round exactly when it loses its leader. */
  lemma MonitorReacts(n: Node, dead: set<int>)
    requires !n.electing && !n.primary && n.leader != n.id
    ensures var n' := AfterSweep(n, dead).0;
            n'.electing || n'.primary <==> n.leader in dead && n.leader in n.list
  {
    CandidateChallengesHigher(n.(list := Without(n.list, dead)), Monitor, Packet(0, 0, FindLeader));
  }

  /**
   A starting server takes over with an empty ledger and hands it to the servers it was told about exactly
   when the leader it finds has a lower id; a backup that follows it then forgets everything.
   */
  lemma TakeoverForgets(id: int, sender: int, leaderId: int, list: seq<int>, n: Node)
    requires n.id < id && !n.recvWaiting
    ensures var out := Answered(id, sender, leaderId, list).1;
            Packet(id, n.id, RepUpdate(EMPTY)) in out <==> leaderId < id && n.id in AddAll([id], id, list)
    ensures var following := Dispatch(n, Packet(id, n.id, Coordinator(id, list))).0;
            Dispatch(following, Packet(id, n.id, RepUpdate(EMPTY))).0.ledger == EMPTY
  {
    if leaderId < id {
      var n0 := Fresh(id, id, true, AddAll([id], id, list));
      PromotionTellsAll(n0, Packet(id, n.id, RepUpdate(EMPTY)));
    }
  }

  // ---------------------------------------------------------------------------------------------
  // What each packet does
  // ---------------------------------------------------------------------------------------------

  /** To distinct servers nothing is sent twice. */
  lemma {:induction false} SendOnce(me: int, list: seq<int>, keep: int -> bool, body: Body)
    requires forall i, j | 0 <= i < j < |list| :: list[i] != list[j]
    ensures var out := Send(me, list, keep, body);
            forall i, j | 0 <= i < j < |out| :: out[i].dst != out[j].dst
  {
    if list != [] {
      var before := list[..|list| - 1];
      SendOnce(me, before, keep, body);
      SendExact(me, before, keep, body);
      assert forall p | p in Send(me, before, keep, body) :: p.dst in before && p.dst != list[|list| - 1];
    }
  }

  /** A primary lists a server that joins, if there is room, and does nothing else; a backup does nothing. */
  lemma JoinIsListed(n: Node, sender: int)
    requires sender != n.id
    ensures var (n', out) := Dispatch(n, Packet(sender, n.id, ServerJoin));
            && out == [] && n' == n.(list := n'.list) && n.list <= n'.list
            && (n.leader != n.id ==> n' == n)
            && (n.leader == n.id ==>
                  forall id :: id in n'.list <==> id in n.list || (id == sender && |n.list| < MAX_SERVERS))
  {
  }

  /**
   An ELECTION is always answered. A server that is no candidate yet becomes one: it challenges exactly the
   higher servers it lists, or is primary at once.
   */
  lemma ElectionIsAnswered(n: Node, sender: int, p: Packet)
    ensures var (n', out) := Dispatch(n, Packet(sender, n.id, Election(sender)));
            var challenge := p.src == n.id && p.dst in n.list && n.id < p.dst && p.body == Election(n.id);
            && Packet(n.id, sender, Answer(n.id)) in out
            && (n.electing ==> n' == n && out == [Packet(n.id, sender, Answer(n.id))])
            && (!n.electing && NobodyAbove(n.id, n.list) ==> n'.primary && n'.leader == n.id)
            && (!n.electing && !NobodyAbove(n.id, n.list) ==>
                  && n' == n.(electing := true, recvWaiting := true)
                  && (p in out <==> challenge || p == Packet(n.id, sender, Answer(n.id))))
  {
    CandidateChallengesHigher(n, Receiver, p);
  }

  /** An ANSWER calls the candidacy off: the sleeping thread does not promote the server when it wakes. */
  lemma AnswerCancels(n: Node, sender: int, t: Thread)
    ensures var (n', out) := Dispatch(n, Packet(sender, n.id, Answer(sender)));
            && n' == n.(electing := false) && out == []
            && (Wake(n', t).0.primary <==> n.primary) && Wake(n', t).0.leader == n.leader && Wake(n', t).1 == []
  {
  }

  /**
   A higher leader is obeyed: its list is taken over unless it is empty, the ledger stays for the snapshot
   that follows, and exactly one packet is sent, the SERVER_JOIN to whoever announced it.
   */
  lemma HigherIsObeyed(n: Node, sender: int, leaderId: int, list: seq<int>)
    requires n.id < leaderId
    ensures var (n', out) := Dispatch(n, Packet(sender, n.id, Coordinator(leaderId, list)));
            && n'.leader == leaderId && !n'.primary && !n'.electing
            && n'.list == (if list == [] then n.list else list)
            && n' == n.(leader := n'.leader, primary := n'.primary, electing := n'.electing, list := n'.list)
            && out == [Packet(n.id, sender, ServerJoin)]
  {
  }

  /** A lower leader is challenged, also by a server that is a candidate already, and not followed. */
  lemma LowerIsChallenged(n: Node, sender: int, leaderId: int, list: seq<int>, p: Packet)
    requires leaderId < n.id
    ensures var (n', out) := Dispatch(n, Packet(sender, n.id, Coordinator(leaderId, list)));
            && (NobodyAbove(n.id, n.list) ==> n'.primary && n'.leader == n.id && n'.list == n.list)
            && (!NobodyAbove(n.id, n.list) ==>
                  && n' == n.(electing := true, recvWaiting := true)
                  && (p in out <==> p.src == n.id && p.dst in n.list && n.id < p.dst && p.body == Election(n.id)))
  {
    CandidateChallengesHigher(n, Receiver, p);
  }

  /** A snapshot reaches the ledger of a backup only, and is confirmed by everyone who does not lead. */
  lemma SnapshotIsConfirmed(n: Node, sender: int, snapshot: Ledger)
    ensures var (n', out) := Dispatch(n, Packet(sender, n.id, RepUpdate(snapshot)));
            && n' == n.(ledger := if n.leader != n.id && !n.primary then snapshot else n.ledger)
            && (n.leader == n.id ==> out == [])
            && (n.leader != n.id ==> out == [Packet(n.id, sender, RepConfirm)])
  {
  }

  /** A client that looks for the bank is registered by the leader, and ignored by everyone else. */
  lemma DiscoveryAtLeader(n: Node, src: int, ip: uint32)
    ensures var (n', out) := Dispatch(n, Packet(src, n.id, Desc(ip)));
            && out == [] && n' == n.(ledger := n'.ledger)
            && (n.leader != n.id ==> n' == n)
            && (n.leader == n.id ==> n'.ledger == Apply(n.ledger, Discover(ip)) &&
                                     (Known(n'.ledger, ip) || |n.ledger.clients| >= MAX_CLIENTS))
  {
    if !Known(n.ledger, ip) && |n.ledger.clients| < MAX_CLIENTS {
      assert Register(n.ledger, ip).clients[|n.ledger.clients|].ip == ip;
    }
  }

  /** A request becomes a thread at the leader, and is ignored by everyone else. */
  lemma RequestAtLeader(n: Node, src: int, op: Op)
    ensures var (n', out) := Dispatch(n, Packet(src, n.id, Req(op)));
            && out == []
            && (n.leader != n.id ==> n' == n)
            && (n.leader == n.id ==>
                  && n' == n.(requests := n'.requests) && multiset(n'.requests) == multiset(n.requests) + multiset{op})
  {
  }

  lemma OthersAreQuiet(n: Node, src: int, leaderId: int)
    ensures Dispatch(n, Packet(src, n.id, Ping(leaderId))) == (n, [])
    ensures Dispatch(n, Packet(src, n.id, RepConfirm)) == (n, [])
  {
  }

  /**
   A request thread serves its own request and no other, and it does so whatever has become of its server:
   leader or not, primary or not, its request reaches the ledger, and everybody else's is still to be served.
   */
  lemma ThreadServesItsRequest(n: Node, i: nat)
    requires i < |n.requests|
    ensures var n' := RunRequest(n, i).0;
            && n' == n.(ledger := Apply(n.ledger, n.requests[i]), requests := n'.requests)
            && multiset(n'.requests) + multiset{n.requests[i]} == multiset(n.requests)
            && |n'.requests| == |n.requests| - 1
            && forall j | 0 <= j < |n'.requests| :: n'.requests[j] == n.requests[if j < i then j else j + 1]
  {
    assert n.requests == n.requests[..i] + [n.requests[i]] + n.requests[i + 1..];
  }

  predicate SameBank(n: Node, n': Node) {
    n'.id == n.id && n'.ledger == n.ledger && n'.requests == n.requests
  }

  /** Elections touch neither ledger nor requests nor list. */
  lemma ElectionsKeepLedgers(n: Node, t: Thread)
    ensures SameBank(n, Promote(n).0) && Promote(n).0.list == n.list
    ensures SameBank(n, StartElection(n, t).0) && StartElection(n, t).0.list == n.list
    ensures SameBank(n, Wake(n, t).0) && Wake(n, t).0.list == n.list
  {
  }

  /** A monitor round takes exactly the dead off the list, and leaves the bank alone. */
  lemma MonitorKeepsLedgers(n: Node, dead: set<int>)
    ensures SameBank(n, AfterSweep(n, dead).0)
    ensures forall id :: id in AfterSweep(n, dead).0.list <==> id in n.list && id !in dead
  {
    WithoutOk(n.list, dead);
    ElectionsKeepLedgers(n.(list := Without(n.list, dead)), Monitor);
    assert AfterSweep(n, dead).0.list == Without(n.list, dead);
  }

  /** A monitor round without reaction only evicts. */
  lemma MonitorOnlyEvicts(n: Node, dead: set<int>)
    requires n.electing || n.leader == n.id || n.leader !in dead || n.leader !in n.list
    ensures var (n', out) := AfterSweep(n, dead);
            out == [] && n' == n.(list := n'.list)
  {
  }

  /**
   Startup answered by another server. A higher leader is followed, its list taken over, and it is sent
   exactly a SERVER_JOIN; a lower one is replaced, by a primary that lists itself first and then everybody it
   was told about, as far as there is room. Either way the ledger is empty.
   */
  lemma StartupExactly(id: int, sender: int, leaderId: int, list: seq<int>)
    requires leaderId != id
    ensures var (n, out) := Answered(id, sender, leaderId, list);
            && n.id == id && n.ledger == EMPTY && n.requests == [] && !n.electing && !n.recvWaiting && !n.monWaiting
            && (id < leaderId ==> n.leader == leaderId && !n.primary && n.list == list
                                  && out == [Packet(id, sender, ServerJoin)])
            && (leaderId < id ==> n.leader == id && n.primary && [id] <= n.list
                                  && (forall k | k in n.list :: k == id || k in list)
                                  && (|n.list| < MAX_SERVERS ==> forall k | k in list :: k in n.list))
  {
    AddAllOk([id], id, list);
    if leaderId < id {
      assert AddAll([id], id, list)[0] == id;
    }
  }
}
