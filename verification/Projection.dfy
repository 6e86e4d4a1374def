/**
 The two models of the election over whole runs: a run of the fine-grained one in which no two handlers of
 one server overlap is, seen through its handlers, a run of the servers of the cluster model.
 */
module Projection {
  import opened Elections
  import opened Granularity
  import opened Threads
  import Clusters
  import Nodes
  import opened Machine

  /** Outside every handler, or asleep in start_election. */
  predicate AtRest(pc: Pc) {
    pc.Idle? || pc.Waiting?
  }

  function Other(t: Thread): Thread {
    if t.Receiver? then Monitor else Receiver
  }

  /** An action whose thread has its server to itself: the other one is not inside a handler. */
  predicate Orderly(s: Sys, a: Action)
    requires a.i in s.procs
  {
    var p := s.procs[a.i];
    match a
    case Receive(_) => AtRest(p.mon)
    case Sweep(_, _) => AtRest(p.recv)
    case Advance(_, t) => AtRest(p.At(Other(t)))
  }

  /** What a server will be, and will have said, when the handler it is in is over. */
  function Rest(p: Proc, i: int): (Proc, set<(int, Msg)>) {
    Solo(p, i, if AtRest(p.recv) then Monitor else Receiver)
  }

  /** The packet is this message. */
  ghost predicate Is(q: Nodes.Packet, d: int, m: Msg) {
    && q.dst == d && q.src == m.src
    && match m
       case ElectionMsg(src) => q.body == Nodes.Election(src)
       case AnswerMsg(src) => q.body == Nodes.Answer(src)
       case CoordinatorMsg(src, known) =>
         q.body.Coordinator? && q.body.leaderId == src && Listed(q.body.list) == known
  }

  ghost predicate Carries(net: set<Nodes.Packet>, d: int, m: Msg) {
    exists q | q in net :: Is(q, d, m)
  }

  ghost predicate CarriesAll(net: set<Nodes.Packet>, said: set<(int, Msg)>) {
    forall d, m | (d, m) in said :: Carries(net, d, m)
  }

  /** A server of the cluster, with the packets about, against a process of the election. */
  ghost predicate ShadowsAt(p: Proc, i: int, n: Nodes.Node, net: set<Nodes.Packet>) {
    && n.id == i && Matches(n, Rest(p, i).0)
    && (forall x | 0 <= x < |p.inbox| :: Carries(net, i, p.inbox[x]))
    && CarriesAll(net, Rest(p, i).1)
  }

  /** Every handler under way counts as done, and everything queued or still to be said is in the network. */
  ghost predicate Shadows(s: Sys, c: Clusters.State) {
    && c.nodes.Keys == s.procs.Keys
    && forall i | i in s.procs :: ShadowsAt(s.procs[i], i, c.nodes[i], c.net)
  }

  // ---------------------------------------------------------------------------------------------
  // Handlers under way
  // ---------------------------------------------------------------------------------------------

  lemma RestOf(p: Proc, i: int, t: Thread)
    requires AtRest(p.At(Other(t)))
    ensures Rest(p, i) == Solo(p, i, t)
  {
  }

  lemma WorkInbox(p: Proc, i: int, t: Thread, m: Msg)
    ensures Deliver(p, m).At(t) == p.At(t)
    ensures var e := Work(p, i, t); Work(Deliver(p, m), i, t) == Effect(Deliver(e.p, m), e.dests, e.m)
  {
    assert Higher(Deliver(p, m), i) == Higher(p, i);
  }

  /** A message that arrives meanwhile changes nothing but the inbox. */
  lemma {:induction false} SoloInbox(p: Proc, i: int, t: Thread, m: Msg)
    ensures Solo(Deliver(p, m), i, t) == (Deliver(Solo(p, i, t).0, m), Solo(p, i, t).1)
    decreases Left(p.At(t))
  {
    WorkInbox(p, i, t, m);
    if !AtRest(p.At(t)) {
      SoloInbox(Work(p, i, t).p, i, t, m);
    }
  }

  lemma CarriesMore(net: set<Nodes.Packet>, net': set<Nodes.Packet>, said: set<(int, Msg)>)
    requires net <= net' && CarriesAll(net, said)
    ensures CarriesAll(net', said)
  {
    forall d, m | (d, m) in said ensures Carries(net', d, m) {
      var q :| q in net && Is(q, d, m);
    }
  }

  lemma InboxMore(net: set<Nodes.Packet>, net': set<Nodes.Packet>, i: int, m: Msg)
    requires net <= net' && Carries(net, i, m)
    ensures Carries(net', i, m)
  {
    var q :| q in net && Is(q, i, m);
  }

  /** What a handler tells is in the network once its packets are. */
  lemma ToldCarried(out: seq<Nodes.Packet>, net: set<Nodes.Packet>)
    requires forall q | q in out :: q in net && Clusters.PacketOk(q)
    ensures CarriesAll(net, Told(out))
  {
    forall d, m | (d, m) in Told(out) ensures Carries(net, d, m) {
      var q :| q in out && Is(q, d, m);
    }
  }

  /** A server that does not act sees more packets, and perhaps one more message in its inbox. */
  lemma BystanderShadows(p: Proc, i: int, n: Nodes.Node, net: set<Nodes.Packet>, net': set<Nodes.Packet>)
    requires ShadowsAt(p, i, n, net) && net <= net'
    ensures ShadowsAt(p, i, n, net')
  {
    CarriesMore(net, net', Rest(p, i).1);
    forall x | 0 <= x < |p.inbox| ensures Carries(net', i, p.inbox[x]) {
      InboxMore(net, net', i, p.inbox[x]);
    }
  }

  lemma RecipientShadows(p: Proc, i: int, n: Nodes.Node, net: set<Nodes.Packet>, m: Msg)
    requires ShadowsAt(p, i, n, net) && Carries(net, i, m)
    ensures ShadowsAt(Deliver(p, m), i, n, net)
  {
    SoloInbox(p, i, if AtRest(p.recv) then Monitor else Receiver, m);
  }

  // ---------------------------------------------------------------------------------------------
  // The acting server
  // ---------------------------------------------------------------------------------------------

  /** What an action leaves to be said altogether. */
  function Says(e: Effect, i: int): set<(int, Msg)> {
    Copies(e.dests, e.m) + Rest(e.p, i).1
  }

  /** In the middle of a handler nothing new is announced. */
  lemma Continues(p: Proc, i: int, t: Thread)
    requires !AtRest(p.At(t)) && AtRest(p.At(Other(t)))
    ensures var e := Work(p, i, t);
            Rest(e.p, i).0 == Rest(p, i).0 && Says(e, i) == Rest(p, i).1 && e.p.inbox == p.inbox
  {
    var e := Work(p, i, t);
    RestOf(p, i, t);
    assert e.p.At(Other(t)) == p.At(Other(t)) && e.p.inbox == p.inbox;
    RestOf(e.p, i, t);
  }

  /** A server before an action that starts a handler, and what that handler amounts to in the cluster. */
  ghost predicate StartsAs(p: Proc, i: int, e: Effect, n': Nodes.Node, out: seq<Nodes.Packet>) {
    Matches(n', Rest(e.p, i).0) && Says(e, i) == Told(out)
  }

  lemma Resting(p: Proc, i: int, n: Nodes.Node)
    requires AtRest(p.recv) && AtRest(p.mon) && Matches(n, Rest(p, i).0)
    ensures Matches(n, p)
  {
  }

  lemma WakeStarts(p: Proc, i: int, t: Thread, n: Nodes.Node)
    requires n.id == i && Matches(n, p) && p.At(t).Waiting? && AtRest(p.At(Other(t)))
    ensures StartsAs(p, i, Work(p, i, t), Nodes.Wake(n, t).0, Nodes.Wake(n, t).1)
  {
    var e := Work(p, i, t);
    WakeAgrees(n, p, i, t);
    assert e.p.At(Other(t)) == p.At(Other(t));
    RestOf(e.p, i, t);
    assert Copies({}, e.m) == {};
  }

  lemma SweepStarts(p: Proc, i: int, dead: set<int>, n: Nodes.Node)
    requires n.id == i && Matches(n, p) && p.mon.Idle? && AtRest(p.recv)
    ensures StartsAs(p, i, Evict(p, i, dead), Nodes.AfterSweep(n, dead).0, Nodes.AfterSweep(n, dead).1)
  {
    var e := Evict(p, i, dead);
    MonitorAgrees(n, p, i, dead);
    RestOf(e.p, i, Monitor);
    assert Copies({}, e.m) == {};
  }

  lemma ReceiveStarts(live: set<int>, p: Proc, i: int, n: Nodes.Node, q: Nodes.Packet)
    requires n.id == i && Matches(n, p) && p.recv.Idle? && AtRest(p.mon)
    requires p.inbox != [] && MsgOk(live, i, p.inbox[0]) && Is(q, i, p.inbox[0])
    ensures StartsAs(p, i, React(p, i), Nodes.Dispatch(n, q).0, Nodes.Dispatch(n, q).1)
  {
    var e := React(p, i);
    assert e.p.mon == p.mon;
    RestOf(e.p, i, Receiver);
    match p.inbox[0] {
      case ElectionMsg(src) => ElectionMessageAgrees(n, p, i, src);
      case AnswerMsg(src) => AnswerAgrees(n, p, i, src);
      case CoordinatorMsg(src, known) =>
        CoordinatorAgrees(n, p, i, src, src, q.body.list);
        assert Copies({}, e.m) == {};
    }
  }

  // ---------------------------------------------------------------------------------------------
  // One action
  // ---------------------------------------------------------------------------------------------

  lemma ActorShadows(p: Proc, i: int, n: Nodes.Node, net: set<Nodes.Packet>, e: Effect, n': Nodes.Node,
                     out: seq<Nodes.Packet>, net': set<Nodes.Packet>)
    requires ShadowsAt(p, i, n, net) && net <= net' && n'.id == i && StartsAs(p, i, e, n', out)
    requires e.p.inbox == p.inbox || (p.inbox != [] && e.p.inbox == p.inbox[1..])
    requires forall q | q in out :: q in net' && Clusters.PacketOk(q)
    ensures ShadowsAt(e.p, i, n', net') && CarriesAll(net', Copies(e.dests, e.m))
  {
    ToldCarried(out, net');
    forall d, m | (d, m) in Says(e, i) ensures Carries(net', d, m) {
      assert (d, m) in Told(out);
    }
    forall x | 0 <= x < |e.p.inbox| ensures Carries(net', i, e.p.inbox[x]) {
      InboxMore(net, net', i, e.p.inbox[x]);
    }
  }

  /** Putting one server's step together with the others, who at most receive. */
  lemma AllShadow(s: Sys, a: Action, c: Clusters.State, c': Clusters.State)
    requires ProcsOk(s.procs) && Elections.Enabled(s, a) && Shadows(s, c) && c.net <= c'.net
    requires c'.nodes.Keys == c.nodes.Keys && forall k | k in c.nodes && k != a.i :: c'.nodes[k] == c.nodes[k]
    requires var e := EffectOf(s.procs[a.i], a);
             ShadowsAt(e.p, a.i, c'.nodes[a.i], c'.net) && CarriesAll(c'.net, Copies(e.dests, e.m))
    ensures Shadows(Elections.Do(s, a), c')
  {
    var e, procs' := EffectOf(s.procs[a.i], a), Elections.Do(s, a).procs;
    EffectOk(s.procs.Keys, s.procs[a.i], a);
    forall k | k in procs' ensures ShadowsAt(procs'[k], k, c'.nodes[k], c'.net) {
      if k != a.i {
        BystanderShadows(s.procs[k], k, c.nodes[k], c.net, c'.net);
        if k in e.dests {
          assert (k, e.m) in Copies(e.dests, e.m);
          RecipientShadows(s.procs[k], k, c'.nodes[k], c'.net, e.m);
        }
      }
    }
  }

  lemma ContinuesShadow(s: Sys, a: Action, c: Clusters.State)
    requires ProcsOk(s.procs) && Elections.Enabled(s, a) && Orderly(s, a) && Shadows(s, c)
    requires a.Advance? && !AtRest(s.procs[a.i].At(a.t))
    ensures Shadows(Elections.Do(s, a), c)
  {
    var p := s.procs[a.i];
    Continues(p, a.i, a.t);
    assert ShadowsAt(p, a.i, c.nodes[a.i], c.net);
    AllShadow(s, a, c, c);
  }

  /** The step of the cluster an action that starts a handler stands for. */
  ghost function StepOf(s: Sys, a: Action, c: Clusters.State): Clusters.Step
    requires Elections.Enabled(s, a) && Shadows(s, c)
  {
    match a
    case Receive(i) =>
      assert ShadowsAt(s.procs[i], i, c.nodes[i], c.net);
      assert Carries(c.net, i, s.procs[i].inbox[0]);
      var q :| q in c.net && Is(q, i, s.procs[i].inbox[0]);
      Clusters.Deliver(i, q)
    case Sweep(i, dead) => Clusters.Sweep(i, dead)
    case Advance(i, t) => Clusters.Wakeup(i, t)
  }

  predicate Starts(s: Sys, a: Action)
    requires a.i in s.procs
  {
    a.Advance? ==> s.procs[a.i].At(a.t).Waiting?
  }

  lemma StepStarts(s: Sys, a: Action, c: Clusters.State)
    requires ProcsOk(s.procs) && Elections.Enabled(s, a) && Orderly(s, a) && Starts(s, a) && Shadows(s, c)
    ensures var b := StepOf(s, a, c);
            && Clusters.Enabled(c, b) && (b.Deliver? || b.Sweep? || b.Wakeup?) && b.id == a.i
            && var (n', out) := Clusters.Effect(c, b);
            StartsAs(s.procs[a.i], a.i, EffectOf(s.procs[a.i], a), n', out)
  {
    var p, n := s.procs[a.i], c.nodes[a.i];
    assert ShadowsAt(p, a.i, n, c.net);
    Resting(p, a.i, n);
    match a {
      case Receive(i) => ReceiveStarts(s.procs.Keys, p, i, n, StepOf(s, a, c).p);
      case Sweep(i, dead) => SweepStarts(p, i, dead, n);
      case Advance(i, t) => WakeStarts(p, i, t, n);
    }
  }

  /** What such a step leaves: one server changed, and its packets added. */
  lemma StepLeaves(c: Clusters.State, b: Clusters.Step)
    requires Clusters.Inv(c) && Clusters.Enabled(c, b) && (b.Deliver? || b.Sweep? || b.Wakeup?)
    ensures var c' := Clusters.Do(c, b);
            var (n', out) := Clusters.Effect(c, b);
            && c.net <= c'.net && c'.nodes == c.nodes[b.id := n'] && b.id in c.nodes
            && n'.id == b.id && (forall q | q in out :: q in c'.net && Clusters.PacketOk(q))
  {
    Clusters.EffectOk(c, b);
  }

  lemma ActorAt(s: Sys, c: Clusters.State, i: int)
    requires Shadows(s, c) && i in s.procs
    ensures i in c.nodes && ShadowsAt(s.procs[i], i, c.nodes[i], c.net)
  {
  }

  lemma InboxShrinks(p: Proc, a: Action)
    requires a.Receive? ==> p.inbox != []
    ensures var e := EffectOf(p, a);
            e.p.inbox == p.inbox || (p.inbox != [] && e.p.inbox == p.inbox[1..])
  {
  }

  lemma StartShadows(s: Sys, a: Action, c: Clusters.State, b: Clusters.Step, c': Clusters.State)
    requires ProcsOk(s.procs) && Elections.Enabled(s, a) && Shadows(s, c) && Clusters.Inv(c)
    requires Clusters.Enabled(c, b) && (b.Deliver? || b.Sweep? || b.Wakeup?) && b.id == a.i
    requires var (n', out) := Clusters.Effect(c, b);
             StartsAs(s.procs[a.i], a.i, EffectOf(s.procs[a.i], a), n', out)
    requires c' == Clusters.Do(c, b)
    ensures var e := EffectOf(s.procs[a.i], a);
            && c.net <= c'.net && c'.nodes.Keys == c.nodes.Keys && a.i in c'.nodes
            && (forall k | k in c.nodes && k != a.i :: c'.nodes[k] == c.nodes[k])
            && ShadowsAt(e.p, a.i, c'.nodes[a.i], c'.net) && CarriesAll(c'.net, Copies(e.dests, e.m))
  {
    var (n', out) := Clusters.Effect(c, b);
    StepLeaves(c, b);
    ActorAt(s, c, a.i);
    InboxShrinks(s.procs[a.i], a);
    ActorShadows(s.procs[a.i], a.i, c.nodes[a.i], c.net, EffectOf(s.procs[a.i], a), n', out, c'.net);
  }

  /**
   One action of an orderly run is a step of the cluster, when it starts a handler, or nothing new, when it
   goes on with one.
   */
  lemma Simulates(s: Sys, a: Action, c: Clusters.State) returns (c': Clusters.State)
    requires ProcsOk(s.procs) && Elections.Enabled(s, a) && Orderly(s, a) && Shadows(s, c) && Clusters.Inv(c)
    ensures Shadows(Elections.Do(s, a), c')
    ensures c' == c || Clusters.Next(c, c')
  {
    if Starts(s, a) {
      var b := StepOf(s, a, c);
      StepStarts(s, a, c);
      c' := Clusters.Do(c, b);
      StartShadows(s, a, c, b, c');
      AllShadow(s, a, c, c');
    } else {
      ContinuesShadow(s, a, c);
      c' := c;
    }
  }

  // ---------------------------------------------------------------------------------------------
  // Runs
  // ---------------------------------------------------------------------------------------------

  /** A run of the cluster that has got to a shadow of s. */
  ghost predicate Reaches(past: seq<Clusters.State>, s: Sys) {
    Clusters.IsRun(past) && Shadows(s, Clusters.Last(past))
  }

  lemma ExtendShadow(all: seq<Clusters.State>, s: Sys, a: Action) returns (all': seq<Clusters.State>)
    requires ProcsOk(s.procs) && Elections.Enabled(s, a) && Orderly(s, a) && Reaches(all, s)
    ensures Reaches(all', Elections.Do(s, a)) && all <= all'
  {
    Clusters.RunInv(all, |all| - 1);
    var c' := Simulates(s, a, Clusters.Last(all));
    all' := if c' == Clusters.Last(all) then all else all + [c'];
  }

  lemma ActionAt(run: seq<Sys>, acts: seq<Action>, k: nat, m: int)
    requires Elections.Labelled(run, acts) && 0 < k < |run| && IsTop(run[0].procs.Keys, m)
    ensures ProcsOk(run[k - 1].procs) && Elections.Enabled(run[k - 1], acts[k - 1])
    ensures run[k] == Elections.Do(run[k - 1], acts[k - 1])
  {
    Elections.LabelledIsRun(run, acts);
    Elections.RunInv(run, k - 1, m);
  }

  ghost predicate OrderlyRun(run: seq<Sys>, acts: seq<Action>, k: nat)
    requires k <= |acts| <= |run|
  {
    forall j | 0 <= j < k :: acts[j].i in run[j].procs && Orderly(run[j], acts[j])
  }

  /**
   Every run of the election in which no two handlers of one server overlap projects to a run of the cluster:
   whenever the cluster can get to a state that the first one shadows, it can go on from there and end in a
   state that shadows the last one.
   */
  lemma {:induction false} OrderlyRunsProject(run: seq<Sys>, acts: seq<Action>, k: nat, m: int,
                                              past: seq<Clusters.State>)
    returns (all: seq<Clusters.State>)
    requires Elections.Labelled(run, acts) && k < |run| && IsTop(run[0].procs.Keys, m)
    requires OrderlyRun(run, acts, k) && Reaches(past, run[0])
    ensures Reaches(all, run[k]) && past <= all
  {
    if k == 0 {
      all := past;
    } else {
      all := OrderlyRunsProject(run, acts, k - 1, m, past);
      ActionAt(run, acts, k, m);
      all := ExtendShadow(all, run[k - 1], acts[k - 1]);
    }
  }

  /**
   What holds of every cluster therefore holds of such a run: a server between handlers follows no lower id
   and is primary exactly when it follows itself.
   */
  lemma OrderlyRoles(run: seq<Sys>, acts: seq<Action>, k: nat, i: int, m: int, past: seq<Clusters.State>)
    requires Elections.Labelled(run, acts) && k < |run| && IsTop(run[0].procs.Keys, m)
    requires OrderlyRun(run, acts, k) && Reaches(past, run[0])
    requires i in run[k].procs && AtRest(run[k].procs[i].recv) && AtRest(run[k].procs[i].mon)
    ensures i <= run[k].procs[i].leader && (run[k].procs[i].primary <==> run[k].procs[i].leader == i)
  {
    var all := OrderlyRunsProject(run, acts, k, m, past);
    var c := Clusters.Last(all);
    Clusters.RunInv(all, |all| - 1);
    assert ShadowsAt(run[k].procs[i], i, c.nodes[i], c.net);
    Resting(run[k].procs[i], i, c.nodes[i]);
  }

  // ---------------------------------------------------------------------------------------------
  // Where such runs begin
  // ---------------------------------------------------------------------------------------------

  /** Two backups of a primary that has crashed: a state of the cluster that an election can start from. */
  lemma BackupsReached(low: int, high: int, dead: int) returns (past: seq<Clusters.State>, s: Sys)
    requires low < high < dead && 2 < MAX_SERVERS
    ensures Reaches(past, s) && Init(s) && s.procs.Keys == {low, high}
  {
    past := Clusters.LeaderGone(low, high, dead);
    var p := Follower(dead, {dead, low, high}, []);
    s := Pair(low, high, p, p, false);
    var c := Clusters.Last(past);
    assert low in s.procs && high in s.procs;
    assert s.procs.Keys == {low, high};
    forall i | i in s.procs ensures ShadowsAt(s.procs[i], i, c.nodes[i], c.net) {
      assert c.nodes[i] == Nodes.Fresh(i, dead, false, [dead, low, high]);
      assert Listed([dead, low, high]) == {dead, low, high};
    }
  }
}
