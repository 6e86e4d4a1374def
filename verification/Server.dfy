/** The server process: globals updated in place by its handlers, against the step functions of a node. */
module Servers {
  import opened Machine
  import opened Ledgers
  import opened ClientTables
  import opened Options
  import opened Peers
  import opened PeerTables
  import opened Nodes
  import opened Threads

  /** The COORDINATOR a starting server may receive. */
  datatype Reply = Reply(sender: int, leaderId: int, list: seq<int>)

  class Server {
    const id: int
    const peers: PeerTable
    const clients: ClientTable
    var leader: int
    var primary: bool
    var electing: bool
    var requests: seq<Op>
    var recvWaiting: bool
    var monWaiting: bool

    ghost const repr: set<object> := {this, peers, peers.ids, peers.health, clients, clients.slots}

    ghost predicate Valid()
      reads repr
    {
      peers.Valid() && clients.Valid()
    }

    ghost function View(): Node
      reads repr
      requires Valid()
    {
      Node(id, leader, primary, electing, peers.ids[..peers.count], clients.View(), requests, recvWaiting, monWaiting)
    }

    constructor (id: int)
      ensures Valid() && fresh(repr) && this.id == id
      ensures View() == Fresh(id, -1, false, [])
    {
      this.id := id;
      peers := new PeerTable();
      clients := new ClientTable();
      leader, primary, electing, requests, recvWaiting, monWaiting := -1, false, false, [], false, false;
    }

    /** The send loops: one copy of the body for every listed id that passes the filter. */
    method Multicast(keep: int -> bool, body: Body) returns (out: seq<Packet>)
      requires Valid()
      ensures out == Send(id, View().list, keep, body)
    {
      out := [];
      for i := 0 to peers.count
        invariant out == Send(id, View().list[..i], keep, body)
      {
        assert View().list[..i + 1][..i] == View().list[..i];
        if keep(peers.ids[i]) {
          out := out + [Packet(id, peers.ids[i], body)];
        }
      }
      assert View().list[..peers.count] == View().list;
    }

    method PropagateStateToBackups() returns (out: seq<Packet>)
      requires Valid()
      ensures out == Propagate(View())
    {
      if !primary {
        return [];
      }
      var m := clients.Snapshot();
      out := Multicast(Except(id), RepUpdate(m.View()));
    }

    method PromoteToPrimary(now: int) returns (out: seq<Packet>)
      requires Valid()
      modifies repr
      ensures Valid() && (View(), out) == Promote(old(View()))
      ensures peers.AllAlive(now)
    {
      primary := true;
      leader := id;
      electing := false;
      peers.ResetHealth(now);
      var announcements := Multicast(Except(id), Coordinator(id, peers.ids[..peers.count]));
      var updates := PropagateStateToBackups();
      out := announcements + updates;
    }

    method StartElection(t: Thread, now: int) returns (out: seq<Packet>)
      requires Valid()
      modifies repr
      ensures Valid() && (View(), out) == Nodes.StartElection(old(View()), t)
      ensures NobodyAbove(id, old(View()).list) ==> peers.AllAlive(now)
      ensures !NobodyAbove(id, old(View()).list) ==>
                peers.health[..] == old(peers.health[..]) && peers.View() == old(peers.View())
    {
      ChallengeEmpty(View());
      electing := true;
      out := Multicast(Above(id), Election(id));
      if |out| == 0 {
        out := PromoteToPrimary(now);
      } else if t.Receiver? {
        recvWaiting := true;
      } else {
        monWaiting := true;
      }
    }

    method Wake(t: Thread, now: int) returns (out: seq<Packet>)
      requires Valid()
      modifies repr
      ensures Valid() && (View(), out) == Nodes.Wake(old(View()), t)
      ensures if old(electing) then peers.AllAlive(now) else peers.health[..] == old(peers.health[..])
    {
      if t.Receiver? {
        recvWaiting := false;
      } else {
        monWaiting := false;
      }
      out := [];
      if electing {
        out := PromoteToPrimary(now);
      }
    }

    method HandleElectionMessage(sender: int, now: int) returns (out: seq<Packet>)
      requires Valid()
      modifies repr
      ensures Valid() && (View(), out) == OnElection(old(View()), sender)
      ensures if !old(electing) && NobodyAbove(id, old(View()).list) then peers.AllAlive(now)
              else peers.health[..] == old(peers.health[..])
    {
      var more: seq<Packet> := [];
      if !electing {
        more := StartElection(Receiver, now);
      }
      out := [Packet(id, sender, Answer(id))] + more;
    }

    method HandleAnswerMessage()
      requires Valid()
      modifies `electing
      ensures Valid() && View() == old(View()).(electing := false)
    {
      electing := false;
    }

    method HandleCoordinatorMessage(sender: int, leaderId: int, list: seq<int>, now: int) returns (out: seq<Packet>)
      requires Valid() && |list| <= MAX_SERVERS
      modifies repr
      ensures Valid() && (View(), out) == OnCoordinator(old(View()), sender, leaderId, list)
      ensures if id <= leaderId || NobodyAbove(id, old(View()).list) then peers.AllAlive(now)
              else peers.health[..] == old(peers.health[..])
    {
      if id > leaderId {
        out := StartElection(Receiver, now);
        return;
      }
      leader := leaderId;
      electing := false;
      primary := id == leaderId;
      peers.Adopt(list);
      peers.ResetHealth(now);
      out := if primary then [] else [Packet(id, sender, ServerJoin)];
    }

    method HandleFindLeader(sender: int) returns (out: seq<Packet>)
      requires Valid()
      modifies repr
      ensures Valid() && (View(), out) == OnFindLeader(old(View()), sender)
      ensures peers.health[..] == old(peers.health[..])
    {
      if leader != id {
        return [];
      }
      peers.AddPeer(id, sender);
      var announce := Coordinator(id, peers.ids[..peers.count]);
      var m := clients.Snapshot();
      var others := Multicast(ExceptBoth(id, sender), announce);
      out := [Packet(id, sender, announce), Packet(id, sender, RepUpdate(m.View()))] + others;
    }

    method HandleReplicationUpdate(sender: int, m: Message) returns (out: seq<Packet>)
      requires Valid() && m.WellFormed()
      modifies repr
      ensures Valid() && (View(), out) == OnRepUpdate(old(View()), sender, m.View())
      ensures peers.health[..] == old(peers.health[..])
    {
      if leader == id {
        return [];
      }
      if !primary {
        clients.ApplyStateUpdate(m);
      }
      out := [Packet(id, sender, RepConfirm)];
    }

    /** The request thread number i runs; requests is the bag of threads that were spawned. */
    method RunRequestThread(i: nat) returns (out: seq<Packet>)
      requires Valid() && i < |requests| && requests[i].Transfer?
      modifies repr
      ensures Valid() && (View(), out) == RunRequest(old(View()), i)
      ensures peers.health[..] == old(peers.health[..])
    {
      var op := requests[i];
      requests := requests[..i] + requests[i + 1..];
      var outcome, _ := clients.HandleRequest(op);
      out := [];
      if outcome.Committed? {
        out := PropagateStateToBackups();
      }
    }

    /** The sweep of a monitor round, and whether it takes the leader. */
    method SweepDead(now: int) returns (leaderFailed: bool, ghost dead: set<int>)
      requires Valid() && ListOk(View().list)
      modifies repr
      ensures Valid() && View() == old(View()).(list := Without(old(View()).list, dead))
      ensures peers.View() == Survivors(old(peers.View()), id, now)
      ensures dead == ExpiredIds(old(peers.View()), id, now) && id !in dead
      ensures leaderFailed <==> leader in dead && leader in old(View()).list
    {
      ghost var before := peers.View();
      dead := ExpiredIds(before, id, now);
      ExpiredIdsExact(before, id, now);
      SweepEvicts(before, id, now, dead);
      var lost, _ := peers.SweepFailed(id, now, leader);
      leaderFailed := lost;
      assert peers.ids[..peers.count] == Ids(peers.View());
    }

    /** One round of the monitor: the sweep, and an election if the leader was swept away. */
    method MonitorRound(now: int) returns (out: seq<Packet>, ghost dead: set<int>)
      requires Valid() && ListOk(View().list)
      modifies repr
      ensures Valid() && id !in dead && (View(), out) == AfterSweep(old(View()), dead)
      ensures dead == ExpiredIds(old(peers.View()), id, now)
      ensures if MonitorPromotes(old(View()), dead) then peers.AllAlive(now)
              else peers.View() == Survivors(old(peers.View()), id, now)
    {
      var leaderFailed;
      leaderFailed, dead := SweepDead(now);
      out := [];
      if leaderFailed && !electing && leader != id {
        out := StartElection(Monitor, now);
      }
    }

    /** The three outcomes of startup. */
    method StartUp(reply: Option<Reply>, now: int) returns (out: seq<Packet>)
      requires Valid() && View() == Fresh(id, -1, false, [])
      requires reply.Some? ==> |reply.value.list| <= MAX_SERVERS
      modifies repr
      ensures Valid()
      ensures reply.None? ==> View() == Alone(id) && out == []
      ensures reply.Some? ==> (View(), out) == Answered(id, reply.value.sender, reply.value.leaderId, reply.value.list)
      ensures if reply.Some? && reply.value.leaderId < id then peers.AllAlive(now)
              else peers.health[..] == old(peers.health[..])
    {
      out := [];
      match reply
      case None =>
        leader, primary := id, true;
        peers.TakeOver(id, []);
      case Some(Reply(sender, leaderId, list)) =>
        if leaderId < id {
          leader, primary := id, true;
          peers.TakeOver(id, list);
          out := PromoteToPrimary(now);
        } else {
          leader := leaderId;
          peers.Adopt(list);
          if leaderId != id {
            out := [Packet(id, sender, ServerJoin)];
          }
        }
    }

    /** The receive loop's switch. A snapshot arrives in the shape ClientTable.Snapshot gives it. */
    method Receive(p: Packet, m: Message, now: int) returns (out: seq<Packet>)
      requires Valid() && p.dst == id
      requires p.body.Coordinator? ==> |p.body.list| <= MAX_SERVERS
      requires p.body.RepUpdate? ==> m.WellFormed() && m.View() == p.body.ledger
      modifies repr
      ensures Valid() && (View(), out) == Dispatch(old(View()), p)
      ensures Resets(old(View()), p) ==> peers.AllAlive(now)
      ensures p.body.Ping? ==> peers.View() == Pinged(old(peers.View()), p.body.leaderId, now)
      ensures !Resets(old(View()), p) && !p.body.Ping? ==> peers.health[..] == old(peers.health[..])
    {
      out := [];
      match p.body
      case FindLeader => out := HandleFindLeader(p.src);
      case ServerJoin =>
        if leader == id {
          peers.AddPeer(id, p.src);
        }
      case Coordinator(leaderId, list) => out := HandleCoordinatorMessage(p.src, leaderId, list, now);
      case RepUpdate(_) => out := HandleReplicationUpdate(p.src, m);
      case RepConfirm =>
      case Election(_) => out := HandleElectionMessage(p.src, now);
      case Answer(_) => HandleAnswerMessage();
      case Ping(sender) => peers.HandlePing(sender, now);
      case Desc(ip) =>
        if leader == id {
          var _ := clients.FindOrAddClient(ip);
        }
      case Req(op) =>
        if leader == id {
          requests := requests + [op];
        }
    }

    /**
     A ping received and the monitor's next round: whoever is listed and was heard stays exactly as long as
     that ping is within the timeout.
     */
    method PingThenMonitor(s: int, at: int, now: int)
      requires Valid() && ListOk(View().list) && s in View().list && s != id && at != 0
      modifies repr
      ensures Valid() && (s in View().list <==> now - at <= PING_TIMEOUT)
    {
      PingedSurvives(peers.View(), id, s, at, now);
      PingIsPersonal(peers.View(), s, at);
      var _ := Receive(Packet(s, id, Ping(s)), Message(0, 0, 0, 0, []), at);
      var _, _ := RoundEvicts(now);
    }

    /** A monitor round, seen through what the sweep leaves. */
    method RoundEvicts(now: int) returns (out: seq<Packet>, ghost dead: set<int>)
      requires Valid() && ListOk(View().list)
      modifies repr
      ensures Valid() && View().list == Ids(Survivors(old(peers.View()), id, now))
    {
      ghost var before, n := peers.View(), View();
      out, dead := MonitorRound(now);
      ExpiredIdsExact(before, id, now);
      SweepEvicts(before, id, now, dead);
      ElectionsKeepLedgers(n.(list := Without(n.list, dead)), Monitor);
    }

    /**
     A promotion or an obeyed leader at t0 and the monitor's next round: everybody listed by then stays as
     long as that is within the timeout, however long ago it was heard.
     */
    method ResetThenMonitor(p: Packet, m: Message, t0: int, now: int) returns (ghost listed: seq<int>)
      requires Valid() && ListOk(View().list) && p.dst == id && Resets(View(), p)
      requires p.body.Coordinator? ==> ListOk(p.body.list)
      modifies repr
      ensures Valid() && listed == Dispatch(old(View()), p).0.list
      ensures forall s | s in listed :: s in View().list <==> s == id || t0 == 0 || now - t0 <= PING_TIMEOUT
    {
      var _ := Receive(p, m, t0);
      listed := View().list;
      ghost var after := peers.View();
      forall s | s in listed
        ensures s in Ids(Survivors(after, id, now)) <==> s == id || t0 == 0 || now - t0 <= PING_TIMEOUT
      {
        ResetSurvive(after, id, t0, now, s);
      }
      var _, _ := RoundEvicts(now);
    }
  }
}
