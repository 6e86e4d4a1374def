/**
 The two views of the election agree: a thread of the fine-grained model that runs without interference
 does what the handler of a node does in one step, and says the same to the same servers.
 */
module Granularity {
  import opened Elections
  import opened Threads
  import Nodes
  import Peers

  function Listed(list: seq<int>): set<int> {
    set id | id in list
  }

  /** A node and a process in the same situation, with no thread in the middle of a handler. */
  ghost predicate Matches(n: Nodes.Node, p: Proc) {
    && n.leader == p.leader && n.primary == p.primary && n.electing == p.electing
    && Listed(n.list) == p.known
    && (p.recv == if n.recvWaiting then Waiting else Idle)
    && (p.mon == if n.monWaiting then Waiting else Idle)
  }

  /** The election messages among some packets, with their destinations. */
  ghost function Told(out: seq<Nodes.Packet>): set<(int, Msg)> {
    (set p | p in out && p.body.Election? :: (p.dst, ElectionMsg(p.body.leaderId)))
    + (set p | p in out && p.body.Answer? :: (p.dst, AnswerMsg(p.body.leaderId)))
    + (set p | p in out && p.body.Coordinator? :: (p.dst, CoordinatorMsg(p.body.leaderId, Listed(p.body.list))))
  }

  function Copies(dests: set<int>, m: Msg): set<(int, Msg)> {
    set d | d in dests :: (d, m)
  }

  function Left(pc: Pc): nat {
    match pc
    case Idle => 0
    case Waiting => 0
    case Checking => 7
    case Starting => 6
    case Sending => 5
    case Promoting => 4
    case Claiming => 3
    case Clearing => 2
    case Announcing => 1
    case Adopting(_, _) => 2
    case Demoting(_, _) => 1
  }

  /** Thread t running alone until it sleeps or is done: the process it leaves and what it has said. */
  function Solo(p: Proc, i: int, t: Thread): (Proc, set<(int, Msg)>)
    decreases Left(p.At(t))
  {
    if p.At(t).Idle? || p.At(t).Waiting? then (p, {})
    else
      var e := Work(p, i, t);
      var (q, said) := Solo(e.p, i, t);
      (q, Copies(e.dests, e.m) + said)
  }

  lemma SoloQuiet(p: Proc, i: int, t: Thread)
    requires !p.At(t).Idle? && !p.At(t).Waiting? && Work(p, i, t).dests == {}
    ensures Solo(p, i, t) == Solo(Work(p, i, t).p, i, t)
  {
    assert Copies({}, Work(p, i, t).m) == {};
    assert {} + Solo(Work(p, i, t).p, i, t).1 == Solo(Work(p, i, t).p, i, t).1;
  }

  lemma SoloLast(p: Proc, i: int, t: Thread)
    requires !p.At(t).Idle? && !p.At(t).Waiting?
    requires Work(p, i, t).p.At(t).Idle? || Work(p, i, t).p.At(t).Waiting?
    ensures Solo(p, i, t) == (Work(p, i, t).p, Copies(Work(p, i, t).dests, Work(p, i, t).m))
  {
    var said := Copies(Work(p, i, t).dests, Work(p, i, t).m);
    assert said + {} == said;
  }

  lemma SoloPromotes(p: Proc, i: int, t: Thread)
    requires p.At(t) == Promoting
    ensures Solo(p, i, t) == (p.(primary := true, leader := i, electing := false).Go(t, Idle),
                              Copies(p.known - {i}, CoordinatorMsg(i, p.known)))
  {
    var p1 := Work(p, i, t).p;
    var p2 := Work(p1, i, t).p;
    SoloQuiet(p, i, t);
    SoloQuiet(p1, i, t);
    SoloQuiet(p2, i, t);
    SoloLast(Work(p2, i, t).p, i, t);
  }

  lemma SoloStarts(p: Proc, i: int, t: Thread)
    requires p.At(t) == Starting
    ensures var started := p.(electing := true);
            Solo(p, i, t) == if Higher(p, i) == {} then Solo(started.Go(t, Promoting), i, t)
                             else (started.Go(t, Waiting), Copies(Higher(p, i), ElectionMsg(i)))
  {
    var p1 := Work(p, i, t).p;
    SoloQuiet(p, i, t);
    assert Higher(p1, i) == Higher(p, i);
    if Higher(p, i) == {} {
      SoloQuiet(p1, i, t);
    } else {
      SoloLast(p1, i, t);
    }
  }

  lemma ToldPromotion(n: Nodes.Node)
    ensures Told(Nodes.Promote(n).1) == Copies(Listed(n.list) - {n.id}, CoordinatorMsg(n.id, Listed(n.list)))
  {
    var out, coordinator := Nodes.Promote(n).1, Nodes.Coordinator(n.id, n.list);
    forall p | p in out
      ensures (p.body == coordinator && p.dst in Listed(n.list) - {n.id}) || p.body == Nodes.RepUpdate(n.ledger)
    {
      Nodes.PromotionTellsAll(n, p);
    }
    forall d | d in Listed(n.list) - {n.id} ensures (d, CoordinatorMsg(n.id, Listed(n.list))) in Told(out) {
      Nodes.PromotionTellsAll(n, Nodes.Packet(n.id, d, coordinator));
      assert Nodes.Packet(n.id, d, coordinator) in out;
    }
  }

  /** Promotion as one step and as four accesses. */
  lemma PromotionAgrees(n: Nodes.Node, p: Proc, i: int, t: Thread)
    requires n.id == i && Matches(n, p) && p.At(t) == Idle
    ensures var (q, said) := Solo(p.Go(t, Promoting), i, t);
            Matches(Nodes.Promote(n).0, q) && said == Told(Nodes.Promote(n).1)
  {
    SoloPromotes(p.Go(t, Promoting), i, t);
    ToldPromotion(n);
  }

  lemma ToldChallenge(i: int, list: seq<int>)
    ensures var out := Nodes.Send(i, list, Nodes.Above(i), Nodes.Election(i));
            var higher := set id | id in list && i < id;
            && Told(out) == Copies(higher, ElectionMsg(i))
            && (out == [] <==> higher == {})
  {
    var out := Nodes.Send(i, list, Nodes.Above(i), Nodes.Election(i));
    var higher := set id | id in list && i < id;
    Nodes.SendExact(i, list, Nodes.Above(i), Nodes.Election(i));
    assert out != [] ==> out[0].dst in higher;
    forall d | d in higher ensures (d, ElectionMsg(i)) in Told(out) && out != [] {
      assert Nodes.Packet(i, d, Nodes.Election(i)) in out;
    }
    assert higher == {} || exists d :: d in higher by {
      assert (forall d :: d !in higher) ==> higher == {};
    }
  }

  /** start_election as one step and as its accesses, with and without higher servers. */
  lemma ElectionAgrees(n: Nodes.Node, p: Proc, i: int, t: Thread)
    requires n.id == i && Matches(n, p) && p.At(t) == Idle
    ensures var (q, said) := Solo(p.Go(t, Starting), i, t);
            Matches(Nodes.StartElection(n, t).0, q) && said == Told(Nodes.StartElection(n, t).1)
  {
    SoloStarts(p.Go(t, Starting), i, t);
    ToldChallenge(i, n.list);
    assert Higher(p, i) == set id | id in n.list && i < id;
    assert Higher(p.Go(t, Starting), i) == Higher(p, i);
    if Higher(p, i) == {} {
      PromotionAgrees(n.(electing := true), p.(electing := true), i, t);
      assert p.(electing := true).Go(t, Promoting) == p.Go(t, Starting).(electing := true).Go(t, Promoting);
    }
  }

  /** The end of the sleep as one step and as its accesses. */
  lemma WakeAgrees(n: Nodes.Node, p: Proc, i: int, t: Thread)
    requires n.id == i && Matches(n, p) && p.At(t) == Waiting
    ensures var (q, said) := Solo(Work(p, i, t).p, i, t);
            Matches(Nodes.Wake(n, t).0, q) && said == Told(Nodes.Wake(n, t).1)
  {
    if p.electing {
      PromotionAgrees(Nodes.SetWaiting(n, t, false), p.Go(t, Idle), i, t);
    }
  }

  /** A COORDINATOR as one step and as its accesses: a challenge to a lower one, obedience to a higher one. */
  lemma CoordinatorAgrees(n: Nodes.Node, p: Proc, i: int, sender: int, leader: int, list: seq<int>)
    requires n.id == i && Matches(n, p) && p.recv == Idle && leader != i
    requires p.inbox != [] && p.inbox[0] == CoordinatorMsg(leader, Listed(list))
    ensures var (q, said) := Solo(React(p, i).p, i, Receiver);
            && Matches(Nodes.OnCoordinator(n, sender, leader, list).0, q)
            && said == Told(Nodes.OnCoordinator(n, sender, leader, list).1)
  {
    var q := React(p, i).p;
    if leader < i {
      ElectionAgrees(n, p.(inbox := p.inbox[1..]), i, Receiver);
    } else {
      SoloQuiet(q, i, Receiver);
      SoloQuiet(Work(q, i, Receiver).p, i, Receiver);
      assert list == [] <==> Listed(list) == {} by {
        assert list != [] ==> list[0] in Listed(list);
      }
    }
  }

  /** An ELECTION as one step and as its accesses: always answered, and a candidacy of its own at most once. */
  lemma ElectionMessageAgrees(n: Nodes.Node, p: Proc, i: int, src: int)
    requires n.id == i && Matches(n, p) && p.recv == Idle
    requires p.inbox != [] && p.inbox[0] == ElectionMsg(src)
    ensures var e := React(p, i);
            var (q, said) := Solo(e.p, i, Receiver);
            && Matches(Nodes.OnElection(n, src).0, q)
            && Copies(e.dests, e.m) + said == Told(Nodes.OnElection(n, src).1)
  {
    var q := p.(inbox := p.inbox[1..]);
    var answer := Nodes.Packet(i, src, Nodes.Answer(i));
    SoloQuiet(React(p, i).p, i, Receiver);
    var more := if n.electing then [] else Nodes.StartElection(n, Receiver).1;
    if !n.electing {
      ElectionAgrees(n, q, i, Receiver);
    }
    ToldAppend([answer], more);
    assert Told([answer]) == Copies({src}, AnswerMsg(i)) by {
      assert answer in [answer];
    }
  }

  lemma ToldAppend(a: seq<Nodes.Packet>, b: seq<Nodes.Packet>)
    ensures Told(a + b) == Told(a) + Told(b)
  {
  }

  /** An ANSWER as one step and as its access: the candidacy is called off and nothing is said. */
  lemma AnswerAgrees(n: Nodes.Node, p: Proc, i: int, src: int)
    requires n.id == i && Matches(n, p) && p.recv == Idle
    requires p.inbox != [] && p.inbox[0] == AnswerMsg(src)
    ensures var (n', out) := Nodes.Dispatch(n, Nodes.Packet(src, i, Nodes.Answer(src)));
            var e := React(p, i);
            var (q, said) := Solo(e.p, i, Receiver);
            Matches(n', q) && Copies(e.dests, e.m) + said == Told(out)
  {
  }

  lemma ListedWithout(list: seq<int>, dead: set<int>)
    ensures Listed(Peers.Without(list, dead)) == Listed(list) - dead
  {
    var rest := Peers.Without(list, dead);
    Peers.WithoutOk(list, dead);
    assert forall id :: id in rest <==> id in list && id !in dead;
    assert forall id :: id in Listed(rest) <==> id in rest;
    assert forall id :: id in Listed(rest) <==> id in Listed(list) - dead;
  }

  lemma SoloChecks(p: Proc, i: int)
    requires p.mon == Checking
    ensures Solo(p, i, Monitor) == if p.electing || p.leader == i then (p.(mon := Idle), {})
                                   else Solo(p.(mon := Starting), i, Monitor)
  {
    SoloQuiet(p, i, Monitor);
  }

  /** A monitor round as one step and as its accesses: the eviction, the check of the flag, the election. */
  lemma MonitorAgrees(n: Nodes.Node, p: Proc, i: int, dead: set<int>)
    requires n.id == i && Matches(n, p) && p.mon == Idle
    ensures var (n', out) := Nodes.AfterSweep(n, dead);
            var (q, said) := Solo(Evict(p, i, dead).p, i, Monitor);
            Matches(n', q) && said == Told(out)
  {
    var n1, p1 := n.(list := Peers.Without(n.list, dead)), p.(known := p.known - dead);
    ListedWithout(n.list, dead);
    if p.leader in dead * p.known {
      SoloChecks(Evict(p, i, dead).p, i);
      if !p.electing && p.leader != i {
        ElectionAgrees(n1, p1, i, Monitor);
        assert Evict(p, i, dead).p.(mon := Starting) == p1.Go(Monitor, Starting);
      }
    }
  }
}
