/**
 The bully election at the granularity of shared-variable accesses: every server has a receive loop and
 a monitor, and both can be inside start_election at once.
 */
module Elections {
  import opened Options
  import opened Threads

  datatype Msg =
    | ElectionMsg(src: int)
    | AnswerMsg(src: int)
    | CoordinatorMsg(src: int, known: set<int>)

  /** Where a thread stands; each value names the next access it makes. */
  datatype Pc =
    | Idle
    | Checking                                   // read the flag, then maybe start an election
    | Starting                                   // set the flag
    | Sending                                    // send ELECTION to every higher id
    | Waiting                                    // wake up and read the flag
    | Promoting                                  // write the role
    | Claiming                                   // write the leader
    | Clearing                                   // clear the flag
    | Announcing                                 // send COORDINATOR to all others
    | Adopting(leader: int, known: set<int>)     // leader written; clear the flag
    | Demoting(leader: int, known: set<int>)     // write the role and the list

  datatype Proc = Proc(leader: int, primary: bool, electing: bool, known: set<int>, inbox: seq<Msg>, recv: Pc, mon: Pc)
  {
    function At(t: Thread): Pc {
      if t.Receiver? then recv else mon
    }

    function Go(t: Thread, pc: Pc): Proc {
      if t.Receiver? then this.(recv := pc) else this.(mon := pc)
    }
  }

  /** The live servers. Messages to anyone else are lost. */
  type Procs = map<int, Proc>

  datatype Sys = Sys(procs: Procs, begun: bool)

  datatype Action =
    | Receive(i: int)
    | Sweep(i: int, dead: set<int>)
    | Advance(i: int, t: Thread)

  /** What one action does: the acting server's new state and one atomic multicast. */
  datatype Effect = Effect(p: Proc, dests: set<int>, m: Msg)

  function Quietly(p: Proc, i: int): Effect {
    Effect(p, {}, AnswerMsg(i))
  }

  function Higher(p: Proc, i: int): set<int> {
    set k | k in p.known && i < k
  }

  function React(p: Proc, i: int): Effect
    requires p.inbox != []
  {
    var q := p.(inbox := p.inbox[1..]);
    match p.inbox[0]
    case ElectionMsg(src) => Effect(q.(recv := Checking), {src}, AnswerMsg(i))
    case AnswerMsg(_) => Quietly(q.(electing := false), i)
    case CoordinatorMsg(src, known) =>
      Quietly(if src < i then q.(recv := Starting) else q.(leader := src, recv := Adopting(src, known)), i)
  }

  /** The monitor evicts servers that stopped sending pings and reacts if its leader is one of them. */
  function Evict(p: Proc, i: int, dead: set<int>): Effect {
    Quietly(p.(known := p.known - dead, mon := if p.leader in dead * p.known then Checking else Idle), i)
  }

  function Work(p: Proc, i: int, t: Thread): Effect {
    match p.At(t)
    case Idle => Quietly(p, i)
    case Checking => Quietly(p.Go(t, if p.electing || (t.Monitor? && p.leader == i) then Idle else Starting), i)
    case Starting => Quietly(p.(electing := true).Go(t, Sending), i)
    case Sending => Effect(p.Go(t, if Higher(p, i) == {} then Promoting else Waiting), Higher(p, i), ElectionMsg(i))
    case Waiting => Quietly(p.Go(t, if p.electing then Promoting else Idle), i)
    case Promoting => Quietly(p.(primary := true).Go(t, Claiming), i)
    case Claiming => Quietly(p.(leader := i).Go(t, Clearing), i)
    case Clearing => Quietly(p.(electing := false).Go(t, Announcing), i)
    case Announcing => Effect(p.Go(t, Idle), p.known - {i}, CoordinatorMsg(i, p.known))
    case Adopting(leader, known) => Quietly(p.(electing := false).Go(t, Demoting(leader, known)), i)
    case Demoting(leader, known) =>
      Quietly(p.(primary := leader == i, known := if known == {} then p.known else known).Go(t, Idle), i)
  }

  predicate Enabled(s: Sys, a: Action) {
    && a.i in s.procs
    && match a
       case Receive(i) => s.procs[i].recv == Idle && s.procs[i].inbox != []
       case Sweep(i, dead) => s.procs[i].mon == Idle && dead !! s.procs.Keys
       case Advance(i, t) => s.procs[i].At(t) != Idle
  }

  function EffectOf(p: Proc, a: Action): Effect
    requires a.Receive? ==> p.inbox != []
  {
    match a
    case Receive(i) => React(p, i)
    case Sweep(i, dead) => Evict(p, i, dead)
    case Advance(i, t) => Work(p, i, t)
  }

  function Deliver(p: Proc, m: Msg): Proc {
    p.(inbox := p.inbox + [m])
  }

  function Commit(procs: Procs, i: int, e: Effect): Procs {
    map k | k in procs ::
      var p := if k == i then e.p else procs[k];
      if k in e.dests then Deliver(p, e.m) else p
  }

  function Do(s: Sys, a: Action): Sys
    requires Enabled(s, a)
  {
    Sys(Commit(s.procs, a.i, EffectOf(s.procs[a.i], a)),
        s.begun || (a.Advance? && s.procs[a.i].At(a.t) == Starting))
  }

  /** Nothing in flight, every live server listed everywhere; the recorded leaders may be long dead. */
  ghost predicate Init(s: Sys) {
    && s.procs != map[] && !s.begun
    && forall i | i in s.procs ::
         var p := s.procs[i];
         && p.inbox == [] && p.recv == Idle && p.mon == Idle && !p.electing
         && s.procs.Keys <= p.known && (p.primary <==> p.leader == i)
  }

  ghost predicate Next(s: Sys, s': Sys) {
    exists a :: Enabled(s, a) && s' == Do(s, a)
  }

  ghost predicate IsRun(run: seq<Sys>) {
    run != [] && Init(run[0]) && forall k | 0 < k < |run| :: Next(run[k - 1], run[k])
  }

  predicate Quiescent(s: Sys) {
    forall i | i in s.procs :: s.procs[i].inbox == [] && s.procs[i].recv == Idle && s.procs[i].mon == Idle
  }

  predicate IsTop(live: set<int>, m: int) {
    m in live && forall k | k in live :: k <= m
  }

  // ---------------------------------------------------------------------------------------------
  // What holds of every server and every queued message
  // ---------------------------------------------------------------------------------------------

  /** ELECTION climbs, ANSWER descends, COORDINATOR names its sender and a complete list. */
  predicate MsgOk(live: set<int>, k: int, m: Msg) {
    && m.src in live
    && match m
       case ElectionMsg(src) => src < k
       case AnswerMsg(src) => k < src
       case CoordinatorMsg(src, known) => src != k && live <= known
  }

  predicate PcOk(live: set<int>, i: int, t: Thread, pc: Pc) {
    pc.Adopting? || pc.Demoting? ==> t.Receiver? && pc.leader in live && i < pc.leader && live <= pc.known
  }

  predicate ProcOk(live: set<int>, i: int, p: Proc) {
    && live <= p.known
    && (forall x | 0 <= x < |p.inbox| :: MsgOk(live, i, p.inbox[x]))
    && PcOk(live, i, Receiver, p.recv) && PcOk(live, i, Monitor, p.mon)
  }

  ghost predicate ProcsOk(procs: Procs) {
    forall i | i in procs :: ProcOk(procs.Keys, i, procs[i])
  }

  lemma ReactOk(live: set<int>, p: Proc, i: int)
    requires i in live && ProcOk(live, i, p) && p.inbox != []
    ensures var e := React(p, i);
            ProcOk(live, i, e.p) && i !in e.dests && forall k | k in e.dests * live :: MsgOk(live, k, e.m)
  {
    assert MsgOk(live, i, p.inbox[0]);
  }

  lemma WorkOk(live: set<int>, p: Proc, i: int, t: Thread)
    requires i in live && ProcOk(live, i, p)
    ensures var e := Work(p, i, t);
            ProcOk(live, i, e.p) && i !in e.dests && forall k | k in e.dests * live :: MsgOk(live, k, e.m)
  {
  }

  lemma EffectOk(live: set<int>, p: Proc, a: Action)
    requires a.i in live && ProcOk(live, a.i, p) && (a.Receive? ==> p.inbox != []) && (a.Sweep? ==> a.dead !! live)
    ensures var e := EffectOf(p, a);
            ProcOk(live, a.i, e.p) && a.i !in e.dests && forall k | k in e.dests * live :: MsgOk(live, k, e.m)
  {
    match a {
      case Receive(i) => ReactOk(live, p, i);
      case Sweep(_, _) =>
      case Advance(i, t) => WorkOk(live, p, i, t);
    }
  }

  lemma StepOk(s: Sys, a: Action)
    requires ProcsOk(s.procs) && Enabled(s, a)
    ensures ProcsOk(Do(s, a).procs) && Do(s, a).procs.Keys == s.procs.Keys
  {
    EffectOk(s.procs.Keys, s.procs[a.i], a);
    assert Do(s, a).procs.Keys == s.procs.Keys;
  }

  // ---------------------------------------------------------------------------------------------
  // The inductive invariant of convergence
  // ---------------------------------------------------------------------------------------------

  /** The last queued COORDINATOR that server i will follow. */
  function Pending(i: int, inbox: seq<Msg>): Option<int> {
    if inbox == [] then None
    else
      var m := inbox[|inbox| - 1];
      if m.CoordinatorMsg? && i <= m.src then Some(m.src) else Pending(i, inbox[..|inbox| - 1])
  }

  lemma PendingSnoc(i: int, inbox: seq<Msg>, m: Msg)
    ensures Pending(i, inbox + [m]) == if m.CoordinatorMsg? && i <= m.src then Some(m.src) else Pending(i, inbox)
  {
    assert (inbox + [m])[..|inbox|] == inbox;
  }

  /** Taking the oldest message off the queue leaves the last pending leader, unless it was the only one. */
  lemma {:induction false} PendingTail(i: int, inbox: seq<Msg>)
    requires inbox != []
    ensures Pending(i, inbox) ==
            if Pending(i, inbox[1..]) == None && inbox[0].CoordinatorMsg? && i <= inbox[0].src then Some(inbox[0].src)
            else Pending(i, inbox[1..])
  {
    var n := |inbox| - 1;
    if n > 0 {
      assert inbox[1..][|inbox[1..]| - 1] == inbox[n];
      assert inbox[1..][..n - 1] == inbox[..n][1..];
      PendingTail(i, inbox[..n]);
    }
  }

  /** A thread that will certainly promote its server, provided nothing clears the flag meanwhile. */
  predicate Driven(pc: Pc, electing: bool) {
    || pc.Starting? || pc.Promoting? || pc.Claiming? || pc.Clearing? || pc.Announcing?
    || ((pc.Sending? || pc.Waiting?) && electing)
  }

  /** The highest server is going to announce itself: a trigger is queued or a thread is on its way. */
  predicate Promise(p: Proc) {
    p.inbox != [] || p.recv.Checking? || Driven(p.recv, p.electing) || Driven(p.mon, p.electing)
  }

  predicate OwesPc(pc: Pc) {
    pc.Sending? || pc.Promoting? || pc.Claiming? || pc.Clearing? || pc.Announcing?
  }

  /** A lower server is going to send a message that triggers the highest one. */
  predicate Owes(p: Proc) {
    OwesPc(p.recv) || OwesPc(p.mon)
  }

  /** Server i follows m, or will once it has read its inbox. */
  predicate Settled(i: int, p: Proc, m: int) {
    if i == m then p.leader == m && p.primary
    else
      match Pending(i, p.inbox)
      case Some(leader) => leader == m
      case None => p.leader == m && if p.recv.Adopting? || p.recv.Demoting? then p.recv.leader == m else !p.primary
  }

  /** At the highest server the flag is only up while a thread stands behind it, and claims stick. */
  predicate TopOk(p: Proc, m: int) {
    && (p.electing ==> Standing(p.recv) || Standing(p.mon))
    && (Claimed(p.recv) || Claimed(p.mon) ==> p.primary)
    && (p.recv.Clearing? || p.recv.Announcing? || p.mon.Clearing? || p.mon.Announcing? ==> p.leader == m)
  }

  predicate Standing(pc: Pc) {
    pc.Sending? || pc.Waiting? || pc.Promoting? || pc.Claiming? || pc.Clearing?
  }

  predicate Claimed(pc: Pc) {
    pc.Claiming? || pc.Clearing? || pc.Announcing?
  }

  ghost predicate AllSettled(procs: Procs, m: int) {
    forall i | i in procs :: Settled(i, procs[i], m)
  }

  ghost predicate SomeoneOwes(procs: Procs, m: int) {
    exists i | i in procs :: i != m && Owes(procs[i])
  }

  ghost predicate Inv(s: Sys, m: int) {
    && IsTop(s.procs.Keys, m)
    && ProcsOk(s.procs)
    && TopOk(s.procs[m], m)
    && (s.begun ==> AllSettled(s.procs, m) || Promise(s.procs[m]) || SomeoneOwes(s.procs, m))
  }

  ghost predicate CanAct(live: set<int>, p: Proc, a: Action) {
    && a.i in live && ProcOk(live, a.i, p)
    && match a
       case Receive(_) => p.recv == Idle && p.inbox != []
       case Sweep(_, dead) => p.mon == Idle && dead !! live
       case Advance(_, t) => p.At(t) != Idle
  }

  /** What the highest server guarantees whenever it acts. */
  ghost predicate TopKeeps(live: set<int>, m: int, p: Proc, e: Effect) {
    && TopOk(e.p, m)
    && (e.m.CoordinatorMsg? ==> e.m.src == m)
    && (Promise(p) ==> Promise(e.p) || (e.m.CoordinatorMsg? && live - {m} <= e.dests && Settled(m, e.p, m)))
    && (Settled(m, p, m) ==> Settled(m, e.p, m))
  }

  lemma TopWorks(live: set<int>, m: int, p: Proc, t: Thread)
    requires IsTop(live, m) && ProcOk(live, m, p) && TopOk(p, m) && p.At(t) != Idle
    ensures TopKeeps(live, m, p, Work(p, m, t))
    ensures p.At(t) == Starting ==> Promise(Work(p, m, t).p)
  {
  }

  /** The highest server keeps its promise until it announces itself to everyone. */
  lemma TopActs(live: set<int>, m: int, p: Proc, a: Action)
    requires IsTop(live, m) && CanAct(live, p, a) && TopOk(p, m) && a.i == m
    ensures TopKeeps(live, m, p, EffectOf(p, a))
    ensures a.Advance? && p.At(a.t) == Starting ==> Promise(EffectOf(p, a).p)
  {
    match a {
      case Receive(_) => assert MsgOk(live, m, p.inbox[0]);
      case Sweep(_, _) =>
      case Advance(_, t) => TopWorks(live, m, p, t);
    }
  }

  /** A lower server stays settled unless it comes to owe the highest one a message, and pays it. */
  lemma LowerActs(live: set<int>, m: int, p: Proc, a: Action)
    requires IsTop(live, m) && CanAct(live, p, a) && a.i != m
    ensures var e := EffectOf(p, a);
            && (Owes(p) ==> Owes(e.p) || m in e.dests)
            && (Settled(a.i, p, m) ==> Settled(a.i, e.p, m) || Owes(e.p) || m in e.dests)
            && (e.m.CoordinatorMsg? ==> m in e.dests)
            && (a.Advance? && p.At(a.t) == Starting ==> Owes(e.p))
  {
    if a.Receive? {
      assert MsgOk(live, a.i, p.inbox[0]);
      PendingTail(a.i, p.inbox);
    }
  }

  /** A message from below that is not a COORDINATOR, or one from m itself, disturbs nobody. */
  lemma DeliveredSettled(i: int, p: Proc, m: int, msg: Msg)
    requires i <= m
    requires msg.CoordinatorMsg? ==> msg.src == m
    ensures Settled(i, p, m) ==> Settled(i, Deliver(p, msg), m)
    ensures i < m && msg.CoordinatorMsg? ==> Settled(i, Deliver(p, msg), m)
  {
    PendingSnoc(i, p.inbox, msg);
  }

  lemma TopStep(s: Sys, a: Action, m: int)
    requires Inv(s, m) && Enabled(s, a) && a.i == m
    ensures Inv(Do(s, a), m)
  {
    var p, e, procs' := s.procs[m], EffectOf(s.procs[m], a), Do(s, a).procs;
    StepOk(s, a);
    EffectOk(s.procs.Keys, p, a);
    TopActs(s.procs.Keys, m, p, a);
    forall i | i in procs' && i in e.dests
      ensures Settled(i, s.procs[i], m) || e.m.CoordinatorMsg? ==> Settled(i, procs'[i], m)
    {
      DeliveredSettled(i, s.procs[i], m, e.m);
    }
    if SomeoneOwes(s.procs, m) {
      var i :| i in s.procs && i != m && Owes(s.procs[i]);
      assert Owes(procs'[i]);
    }
  }

  lemma LowerStep(s: Sys, a: Action, m: int)
    requires Inv(s, m) && Enabled(s, a) && a.i != m
    ensures Inv(Do(s, a), m)
  {
    var p, e, procs' := s.procs[a.i], EffectOf(s.procs[a.i], a), Do(s, a).procs;
    StepOk(s, a);
    EffectOk(s.procs.Keys, p, a);
    LowerActs(s.procs.Keys, m, p, a);
    if m in e.dests {
      assert Promise(procs'[m]);
    } else {
      assert procs'[m] == s.procs[m];
      assert Owes(e.p) ==> Owes(procs'[a.i]);
      forall i | i in procs' && i != a.i ensures Settled(i, s.procs[i], m) ==> Settled(i, procs'[i], m) {
        DeliveredSettled(i, s.procs[i], m, e.m);
      }
      if SomeoneOwes(s.procs, m) {
        var i :| i in s.procs && i != m && Owes(s.procs[i]);
        assert i != a.i ==> Owes(procs'[i]);
      }
    }
  }

  lemma {:induction false} RunInv(run: seq<Sys>, k: nat, m: int)
    requires IsRun(run) && k < |run| && IsTop(run[0].procs.Keys, m)
    ensures Inv(run[k], m) && run[k].procs.Keys == run[0].procs.Keys
  {
    if k > 0 {
      RunInv(run, k - 1, m);
      var s := run[k - 1];
      assert Next(s, run[k]);
      var a :| Enabled(s, a) && run[k] == Do(s, a);
      StepOk(s, a);
      if a.i == m {
        TopStep(s, a, m);
      } else {
        LowerStep(s, a, m);
      }
    }
  }

  /** A run with the actions it took. */
  ghost predicate Labelled(run: seq<Sys>, acts: seq<Action>) {
    && |run| == |acts| + 1 && Init(run[0])
    && forall k | 0 <= k < |acts| :: Enabled(run[k], acts[k]) && run[k + 1] == Do(run[k], acts[k])
  }

  lemma LabelledIsRun(run: seq<Sys>, acts: seq<Action>)
    requires Labelled(run, acts)
    ensures IsRun(run)
  {
    forall k | 0 < k < |run| ensures Next(run[k - 1], run[k]) {
      assert Enabled(run[k - 1], acts[k - 1]);
    }
  }

  /**
   Convergence: in every run in which some election has begun, any state with empty inboxes and no
   election under way has every live server following the highest live id, which alone is primary.
   */
  lemma Convergence(run: seq<Sys>, k: nat, m: int)
    requires IsRun(run) && k < |run| && IsTop(run[0].procs.Keys, m)
    requires run[k].begun && Quiescent(run[k])
    ensures forall i | i in run[k].procs ::
              run[k].procs[i].leader == m && (run[k].procs[i].primary <==> i == m)
  {
    RunInv(run, k, m);
    assert !Promise(run[k].procs[m]);
    forall i | i in run[k].procs
      ensures run[k].procs[i].leader == m && (run[k].procs[i].primary <==> i == m)
    {
      assert Settled(i, run[k].procs[i], m);
    }
  }

  /**
   A flag goes down only at its own server, and only because a higher server answered, because a higher
   server is being followed, or because the server is completing its own promotion.
   */
  lemma CandidacyEnds(s: Sys, a: Action, i: int)
    requires ProcsOk(s.procs) && Enabled(s, a) && i in s.procs
    requires s.procs[i].electing && !Do(s, a).procs[i].electing
    ensures a.i == i
    ensures var p := s.procs[i];
            || (a.Receive? && p.inbox[0].AnswerMsg? && i < p.inbox[0].src)
            || (a.Advance? && p.At(a.t).Adopting? && i < p.At(a.t).leader)
            || (a.Advance? && p.At(a.t).Clearing?)
  {
    assert a.Receive? && a.i == i ==> MsgOk(s.procs.Keys, i, s.procs[i].inbox[0]);
  }

  // ---------------------------------------------------------------------------------------------
  // Role against leadership: two threads write both, without a lock
  // ---------------------------------------------------------------------------------------------

  /** The server names itself leader, so it takes requests, but is not primary, so it tells nobody. */
  predicate Orphaned(i: int, p: Proc) {
    p.leader == i && !p.primary
  }

  /** A thread stands between its two writes. */
  predicate Writing(pc: Pc) {
    pc.Claiming? || pc.Adopting? || pc.Demoting?
  }

  /** A primary follows itself, unless one of its threads is about to write the other variable. */
  predicate PrimaryLeads(i: int, p: Proc) {
    p.primary ==> p.leader == i || Writing(p.recv) || Writing(p.mon)
  }

  /** The write that completes a promotion or a demotion which the other thread has undercut meanwhile. */
  predicate Races(p: Proc, i: int, a: Action) {
    && a.Advance? && a.i == i
    && ((p.At(a.t).Claiming? && !p.primary) || (p.At(a.t).Demoting? && p.leader == i))
  }

  lemma RoleStep(s: Sys, a: Action, i: int)
    requires ProcsOk(s.procs) && Enabled(s, a) && i in s.procs && PrimaryLeads(i, s.procs[i])
    ensures i in Do(s, a).procs && PrimaryLeads(i, Do(s, a).procs[i])
  {
    assert a.Receive? && a.i == i ==> MsgOk(s.procs.Keys, i, s.procs[i].inbox[0]);
  }

  lemma OrphanedEffect(live: set<int>, p: Proc, a: Action)
    requires CanAct(live, p, a) && !Orphaned(a.i, p)
    ensures Orphaned(a.i, EffectOf(p, a).p) <==> Races(p, a.i, a)
  {
    assert a.Receive? ==> MsgOk(live, a.i, p.inbox[0]);
  }

  /** A server becomes an orphan by exactly the racing writes. */
  lemma OrphanedExactly(s: Sys, a: Action, i: int)
    requires ProcsOk(s.procs) && Enabled(s, a) && i in s.procs && !Orphaned(i, s.procs[i])
    ensures i in Do(s, a).procs
    ensures Orphaned(i, Do(s, a).procs[i]) <==> Races(s.procs[i], i, a)
  {
    if a.i == i {
      OrphanedEffect(s.procs.Keys, s.procs[i], a);
    }
  }

  predicate OrphanedAt(s: Sys, i: int) {
    i in s.procs && Orphaned(i, s.procs[i])
  }

  predicate RaceAt(s: Sys, i: int, a: Action) {
    i in s.procs && Races(s.procs[i], i, a)
  }

  lemma RolesAt(run: seq<Sys>, acts: seq<Action>, k: nat, i: int, m: int)
    requires Labelled(run, acts) && k < |acts| && IsTop(run[0].procs.Keys, m)
    requires i in run[k].procs && PrimaryLeads(i, run[k].procs[i])
    ensures i in run[k + 1].procs && PrimaryLeads(i, run[k + 1].procs[i])
    ensures !OrphanedAt(run[k], i) ==> (OrphanedAt(run[k + 1], i) <==> RaceAt(run[k], i, acts[k]))
  {
    LabelledIsRun(run, acts);
    RunInv(run, k, m);
    assert Enabled(run[k], acts[k]) && run[k + 1] == Do(run[k], acts[k]);
    RoleStep(run[k], acts[k], i);
    if !OrphanedAt(run[k], i) {
      OrphanedExactly(run[k], acts[k], i);
    }
  }

  /** In every run a server that is primary follows itself whenever none of its threads stands between writes. */
  lemma {:induction false} PrimaryLeadsAlways(run: seq<Sys>, acts: seq<Action>, k: nat, i: int, m: int)
    requires Labelled(run, acts) && k < |run| && i in run[0].procs && IsTop(run[0].procs.Keys, m)
    ensures i in run[k].procs && PrimaryLeads(i, run[k].procs[i])
  {
    if k > 0 {
      PrimaryLeadsAlways(run, acts, k - 1, i, m);
      RolesAt(run, acts, k - 1, i, m);
    }
  }

  /** A server has been an orphan by a certain moment of a run exactly when a racing write came before. */
  lemma {:induction false} OrphanedByRace(run: seq<Sys>, acts: seq<Action>, k: nat, i: int, m: int)
    requires Labelled(run, acts) && k < |run| && i in run[0].procs && IsTop(run[0].procs.Keys, m)
    ensures (exists j | 0 <= j <= k :: OrphanedAt(run[j], i)) <==> (exists j | 0 <= j < k :: RaceAt(run[j], i, acts[j]))
  {
    if k > 0 {
      OrphanedByRace(run, acts, k - 1, i, m);
      PrimaryLeadsAlways(run, acts, k - 1, i, m);
      RolesAt(run, acts, k - 1, i, m);
    }
  }

  /**
   When roles match leadership although nothing orders the writes: at a server between handlers, primary
   means following itself in every run, and following itself means primary as long as no racing write has
   happened at it.
   */
  lemma RolesMatchLeaders(run: seq<Sys>, acts: seq<Action>, k: nat, i: int, m: int)
    requires Labelled(run, acts) && k < |run| && i in run[0].procs && IsTop(run[0].procs.Keys, m)
    requires i in run[k].procs && !Writing(run[k].procs[i].recv) && !Writing(run[k].procs[i].mon)
    ensures run[k].procs[i].primary ==> run[k].procs[i].leader == i
    ensures (forall j | 0 <= j < k :: !RaceAt(run[j], i, acts[j])) ==>
              (run[k].procs[i].primary <==> run[k].procs[i].leader == i)
  {
    PrimaryLeadsAlways(run, acts, k, i, m);
    OrphanedByRace(run, acts, k, i, m);
    assert !(exists j | 0 <= j < k :: RaceAt(run[j], i, acts[j])) ==> !OrphanedAt(run[k], i);
  }

  // ---------------------------------------------------------------------------------------------
  // The race happens
  // ---------------------------------------------------------------------------------------------

  ghost predicate Reachable(s: Sys) {
    exists run, acts :: Labelled(run, acts) && run[|acts|] == s
  }

  lemma Reaches(s: Sys, a: Action)
    requires Reachable(s) && Enabled(s, a)
    ensures Reachable(Do(s, a))
  {
    var run, acts :| Labelled(run, acts) && run[|acts|] == s;
    assert Labelled(run + [Do(s, a)], acts + [a]);
  }

  function Pair(low: int, high: int, p: Proc, q: Proc, begun: bool): Sys {
    Sys(map[low := p, high := q], begun)
  }

  lemma LowMoves(low: int, high: int, p: Proc, q: Proc, begun: bool, a: Action) returns (p': Proc, q': Proc)
    requires low < high && a.i == low && Reachable(Pair(low, high, p, q, begun))
    requires Enabled(Pair(low, high, p, q, begun), a) && low !in EffectOf(p, a).dests
    ensures p' == EffectOf(p, a).p && q' == if high in EffectOf(p, a).dests then Deliver(q, EffectOf(p, a).m) else q
    ensures Reachable(Pair(low, high, p', q', begun || (a.Advance? && p.At(a.t) == Starting)))
  {
    var s, e := Pair(low, high, p, q, begun), EffectOf(p, a);
    p', q' := e.p, if high in e.dests then Deliver(q, e.m) else q;
    Reaches(s, a);
    assert Do(s, a).procs == map[low := p', high := q'];
  }

  lemma HighMoves(low: int, high: int, p: Proc, q: Proc, begun: bool, a: Action) returns (p': Proc, q': Proc)
    requires low < high && a.i == high && Reachable(Pair(low, high, p, q, begun))
    requires Enabled(Pair(low, high, p, q, begun), a) && high !in EffectOf(q, a).dests
    ensures q' == EffectOf(q, a).p && p' == if low in EffectOf(q, a).dests then Deliver(p, EffectOf(q, a).m) else p
    ensures Reachable(Pair(low, high, p', q', begun || (a.Advance? && q.At(a.t) == Starting)))
  {
    var s, e := Pair(low, high, p, q, begun), EffectOf(q, a);
    p', q' := if low in e.dests then Deliver(p, e.m) else p, e.p;
    Reaches(s, a);
    assert Do(s, a).procs == map[low := p', high := q'];
  }

  /** A backup of a leader that has died, with a certain inbox. */
  function Follower(dead: int, known: set<int>, inbox: seq<Msg>): Proc {
    Proc(dead, false, false, known, inbox, Idle, Idle)
  }

  /** Two backups of a dead leader; the lower one has noticed and is about to challenge the other. */
  lemma LowNotices(low: int, high: int, dead: int) returns (p: Proc)
    requires low < high && dead != low && dead != high
    ensures p == Proc(dead, false, true, {low, high}, [], Idle, Sending)
    ensures Reachable(Pair(low, high, p, Follower(dead, {low, high, dead}, []), true))
  {
    p := Follower(dead, {low, high, dead}, []);
    var q := p;
    var s := Pair(low, high, p, q, false);
    var none: seq<Action> := [];
    assert low in s.procs;
    assert Labelled([s], none) && [s][|none|] == s;
    p, q := LowMoves(low, high, p, q, false, Sweep(low, {dead}));
    assert p.known == {low, high};
    p, q := LowMoves(low, high, p, q, false, Advance(low, Monitor));
    p, q := LowMoves(low, high, p, q, false, Advance(low, Monitor));
  }

  /** It hears nothing within its timeout and has written its role, not yet its leader. */
  lemma LowClaims(low: int, high: int, dead: int) returns (p: Proc)
    requires low < high && dead != low && dead != high
    ensures p == Proc(dead, true, true, {low, high}, [], Idle, Claiming)
    ensures Reachable(Pair(low, high, p, Follower(dead, {low, high, dead}, [ElectionMsg(low)]), true))
  {
    p := LowNotices(low, high, dead);
    var q := Follower(dead, {low, high, dead}, []);
    assert Higher(p, low) == {high};
    p, q := LowMoves(low, high, p, q, true, Advance(low, Monitor));
    assert q.inbox == [ElectionMsg(low)];
    p, q := LowMoves(low, high, p, q, true, Advance(low, Monitor));
    p, q := LowMoves(low, high, p, q, true, Advance(low, Monitor));
  }

  /** The higher server notices the death as well, and has nobody above itself to challenge. */
  lemma HighNotices(low: int, high: int, dead: int) returns (q: Proc)
    requires low < high && dead != low && dead != high
    ensures q == Proc(dead, false, true, {low, high}, [ElectionMsg(low)], Idle, Sending)
    ensures Reachable(Pair(low, high, Proc(dead, true, true, {low, high}, [], Idle, Claiming), q, true))
  {
    var p := LowClaims(low, high, dead);
    q := Follower(dead, {low, high, dead}, [ElectionMsg(low)]);
    p, q := HighMoves(low, high, p, q, true, Sweep(high, {dead}));
    assert q.known == {low, high};
    p, q := HighMoves(low, high, p, q, true, Advance(high, Monitor));
    assert q == Proc(dead, false, false, {low, high}, [ElectionMsg(low)], Idle, Starting);
    p, q := HighMoves(low, high, p, q, true, Advance(high, Monitor));
  }

  /** It starts its promotion. */
  lemma HighClaims(low: int, high: int, dead: int) returns (q: Proc)
    requires low < high && dead != low && dead != high
    ensures q == Proc(dead, true, true, {low, high}, [ElectionMsg(low)], Idle, Claiming)
    ensures Reachable(Pair(low, high, Proc(dead, true, true, {low, high}, [], Idle, Claiming), q, true))
  {
    var p := Proc(dead, true, true, {low, high}, [], Idle, Claiming);
    q := HighNotices(low, high, dead);
    assert Higher(q, high) == {};
    p, q := HighMoves(low, high, p, q, true, Advance(high, Monitor));
    assert q == Proc(dead, false, true, {low, high}, [ElectionMsg(low)], Idle, Promoting);
    p, q := HighMoves(low, high, p, q, true, Advance(high, Monitor));
  }

  /** It completes the promotion and says so. */
  lemma HighAnnounces(low: int, high: int, dead: int) returns (p: Proc, q: Proc)
    requires low < high && dead != low && dead != high
    ensures p == Proc(dead, true, true, {low, high}, [CoordinatorMsg(high, {low, high})], Idle, Claiming)
    ensures Reachable(Pair(low, high, p, q, true))
  {
    p := Proc(dead, true, true, {low, high}, [], Idle, Claiming);
    q := HighClaims(low, high, dead);
    p, q := HighMoves(low, high, p, q, true, Advance(high, Monitor));
    p, q := HighMoves(low, high, p, q, true, Advance(high, Monitor));
    p, q := HighMoves(low, high, p, q, true, Advance(high, Monitor));
  }

  /** The lower server handles that announcement between the two writes of its own promotion. */
  lemma LowDemoted(low: int, high: int, dead: int) returns (p: Proc, q: Proc)
    requires low < high && dead != low && dead != high
    ensures p == Proc(high, false, false, {low, high}, [], Idle, Claiming)
    ensures Reachable(Pair(low, high, p, q, true))
  {
    p, q := HighAnnounces(low, high, dead);
    var known := {low, high};
    p, q := LowMoves(low, high, p, q, true, Receive(low));
    assert p == Proc(high, true, true, known, [], Adopting(high, known), Claiming);
    p, q := LowMoves(low, high, p, q, true, Advance(low, Receiver));
    assert p == Proc(high, true, false, known, [], Demoting(high, known), Claiming);
    p, q := LowMoves(low, high, p, q, true, Advance(low, Receiver));
  }

  /**
   The race is reachable with any two servers and a dead leader: the second write of a promotion that was
   undercut leaves the lower server an orphan.
   */
  lemma RoleRace(low: int, high: int, dead: int) returns (s: Sys)
    requires low < high && dead != low && dead != high
    ensures Reachable(s) && s.procs.Keys == {low, high} && Orphaned(low, s.procs[low])
  {
    var p, q := LowDemoted(low, high, dead);
    p, q := LowMoves(low, high, p, q, true, Advance(low, Monitor));
    s := Pair(low, high, p, q, true);
  }
}
