/** Elections die out: the servers take boundedly many steps, however often monitors sweep. */
module Termination {
  import opened Elections
  import opened Threads

  function Above(live: set<int>, i: int): set<int> {
    set k | k in live && i < k
  }

  /** n copies of a message of weight x. */
  function Scaled(n: nat, x: nat): nat {
    if n == 0 then 0 else x + Scaled(n - 1, x)
  }

  // Weights: each thread position and queued message is worth more than everything it can still cause,
  // among n servers, at one where an election started further up weighs at most b.

  function Climb(n: nat, b: nat): nat {
    7 + Scaled(n, 4 + b) + Scaled(n, 2 + n + b)
  }

  /** What an election weighs at the servers above one that has r live servers above it. */
  function Below(n: nat, r: nat): nat {
    if r == 0 then 0 else Climb(n, Below(n, r - 1))
  }

  function PcWeight(n: nat, b: nat, pc: Pc): nat {
    match pc
    case Idle => 0
    case Checking => Climb(n, b) + 1
    case Starting => Climb(n, b)
    case Sending => Climb(n, b) - 1
    case Waiting => 5 + Scaled(n, 4 + b)
    case Promoting => 4 + Scaled(n, 4 + b)
    case Claiming => 3 + Scaled(n, 4 + b)
    case Clearing => 2 + Scaled(n, 4 + b)
    case Announcing => 1 + Scaled(n, 4 + b)
    case Adopting(_, _) => 2
    case Demoting(_, _) => 1
  }

  function MsgWeight(n: nat, b: nat, i: int, m: Msg): nat {
    match m
    case ElectionMsg(_) => 2 + n + Climb(n, b)
    case AnswerMsg(_) => 1
    case CoordinatorMsg(src, _) => if src < i then 1 + Climb(n, b) else 3
  }

  function InboxWeight(n: nat, b: nat, i: int, inbox: seq<Msg>): nat {
    if inbox == [] then 0
    else MsgWeight(n, b, i, inbox[0]) + InboxWeight(n, b, i, inbox[1..])
  }

  function ProcWeight(n: nat, b: nat, i: int, p: Proc): nat {
    PcWeight(n, b, p.recv) + PcWeight(n, b, p.mon) + InboxWeight(n, b, i, p.inbox)
  }

  function Bound(live: set<int>, i: int): nat {
    Below(|live|, |Above(live, i)|)
  }

  function Weight(live: set<int>, i: int, p: Proc): nat {
    ProcWeight(|live|, Bound(live, i), i, p)
  }

  ghost function Pick(over: set<int>): (i: int)
    requires over != {}
    ensures i in over
  {
    assert (forall x :: x !in over) ==> over == {};
    var i :| i in over;
    i
  }

  ghost function Total(live: set<int>, procs: Procs, over: set<int>): nat
    requires over <= procs.Keys
  {
    if over == {} then 0
    else
      var i := Pick(over);
      Weight(live, i, procs[i]) + Total(live, procs, over - {i})
  }

  ghost function Measure(s: Sys): nat {
    Total(s.procs.Keys, s.procs, s.procs.Keys)
  }

  lemma {:induction false} TotalSplit(live: set<int>, procs: Procs, over: set<int>, i: int)
    requires over <= procs.Keys && i in over
    ensures Total(live, procs, over) == Weight(live, i, procs[i]) + Total(live, procs, over - {i})
  {
    var j := Pick(over);
    if j != i {
      TotalSplit(live, procs, over - {j}, i);
      TotalSplit(live, procs, over - {i}, j);
      assert over - {i} - {j} == over - {j} - {i};
    }
  }

  /** If nobody's weight grows by more than w, the total grows by at most w per server. */
  lemma {:induction false} TotalGrowth(live: set<int>, procs: Procs, procs': Procs, over: set<int>, w: nat)
    requires over <= procs.Keys && procs'.Keys == procs.Keys
    requires forall k | k in over :: Weight(live, k, procs'[k]) <= Weight(live, k, procs[k]) + w
    ensures Total(live, procs', over) <= Total(live, procs, over) + Scaled(|over|, w)
  {
    if over != {} {
      var i :| i in over;
      TotalSplit(live, procs, over, i);
      TotalSplit(live, procs', over, i);
      TotalGrowth(live, procs, procs', over - {i}, w);
      assert |over| == |over - {i}| + 1;
    }
  }

  lemma {:induction false} InboxSnoc(n: nat, b: nat, i: int, inbox: seq<Msg>, m: Msg)
    ensures InboxWeight(n, b, i, inbox + [m]) == InboxWeight(n, b, i, inbox) + MsgWeight(n, b, i, m)
  {
    if inbox != [] {
      assert (inbox + [m])[1..] == inbox[1..] + [m];
      InboxSnoc(n, b, i, inbox[1..], m);
    }
  }

  lemma {:induction false} Scaling(n: nat, x: nat, y: nat)
    requires x <= y
    ensures Scaled(n, x) <= Scaled(n, y)
  {
    if n > 0 {
      Scaling(n - 1, x, y);
    }
  }

  lemma {:induction false} Ones(n: nat)
    ensures Scaled(n, 1) == n && Scaled(n, 0) == 0
  {
    if n > 0 {
      Ones(n - 1);
    }
  }

  lemma ClimbMonotone(n: nat, b: nat, c: nat)
    requires b <= c
    ensures Climb(n, b) <= Climb(n, c)
  {
    Scaling(n, 4 + b, 4 + c);
    Scaling(n, 2 + n + b, 2 + n + c);
  }

  lemma {:induction false} BelowMonotone(n: nat, q: nat, r: nat)
    requires q <= r
    ensures Below(n, q) <= Below(n, r)
  {
    if 0 < q < r {
      BelowMonotone(n, q - 1, r - 1);
      ClimbMonotone(n, Below(n, q - 1), Below(n, r - 1));
    }
  }

  /** An election at a server above i weighs no more than i's bound. */
  lemma HigherWeighsLess(live: set<int>, i: int, k: int)
    requires k in live && i < k
    ensures Climb(|live|, Bound(live, k)) <= Bound(live, i)
  {
    var rest := Above(live, i) - Above(live, k);
    assert k in rest && Above(live, i) == Above(live, k) + rest;
    BelowMonotone(|live|, |Above(live, k)| + 1, |Above(live, i)|);
  }

  /** Upper bound for the weight of one copy of the message an action multicasts. */
  function CopyBound(n: nat, b: nat, m: Msg): nat {
    match m
    case ElectionMsg(_) => 2 + n + b
    case AnswerMsg(_) => 1
    case CoordinatorMsg(_, _) => 4 + b
  }

  function Copies(n: nat, b: nat, e: Effect): nat {
    if e.dests == {} then 0 else CopyBound(n, b, e.m)
  }

  lemma CopyBounded(live: set<int>, p: Proc, a: Action, k: int)
    requires CanAct(live, p, a) && k in live && k in EffectOf(p, a).dests
    ensures var m := EffectOf(p, a).m;
            MsgWeight(|live|, Bound(live, k), k, m) <= CopyBound(|live|, Bound(live, a.i), m)
  {
    if a.i < k {
      HigherWeighsLess(live, a.i, k);
    }
  }

  lemma ReceivePays(n: nat, b: nat, p: Proc, i: int)
    requires p.inbox != [] && p.recv == Idle
    ensures ProcWeight(n, b, i, React(p, i).p) + Scaled(n, Copies(n, b, React(p, i))) < ProcWeight(n, b, i, p)
  {
    Ones(n);
  }

  lemma WorkPays(n: nat, b: nat, p: Proc, i: int, t: Thread)
    requires p.At(t) != Idle
    ensures ProcWeight(n, b, i, Work(p, i, t).p) + Scaled(n, Copies(n, b, Work(p, i, t))) < ProcWeight(n, b, i, p)
  {
    Ones(n);
  }

  /** One server's weight changes as it likes, every other one's grows by at most w. */
  lemma TotalChange(live: set<int>, procs: Procs, procs': Procs, i: int, w: nat)
    requires live == procs.Keys == procs'.Keys && i in live
    requires forall k | k in live - {i} :: Weight(live, k, procs'[k]) <= Weight(live, k, procs[k]) + w
    ensures Total(live, procs', live) + Weight(live, i, procs[i]) <=
            Total(live, procs, live) + Weight(live, i, procs'[i]) + Scaled(|live|, w)
  {
    TotalSplit(live, procs, live, i);
    TotalSplit(live, procs', live, i);
    TotalGrowth(live, procs, procs', live - {i}, w);
    assert |live| == |live - {i}| + 1;
  }

  lemma Recipients(live: set<int>, procs: Procs, a: Action, k: int)
    requires live == procs.Keys && a.i in live && CanAct(live, procs[a.i], a) && k in live - {a.i}
    ensures var e := EffectOf(procs[a.i], a);
            Weight(live, k, Commit(procs, a.i, e)[k]) <= Weight(live, k, procs[k]) + Copies(|live|, Bound(live, a.i), e)
  {
    var e := EffectOf(procs[a.i], a);
    if k in e.dests {
      CopyBounded(live, procs[a.i], a, k);
      InboxSnoc(|live|, Bound(live, k), k, procs[k].inbox, e.m);
    }
  }

  lemma ActorPays(live: set<int>, p: Proc, a: Action)
    requires CanAct(live, p, a) && !a.Sweep?
    ensures var e := EffectOf(p, a);
            Weight(live, a.i, e.p) + Scaled(|live|, Copies(|live|, Bound(live, a.i), e)) < Weight(live, a.i, p)
  {
    if a.Receive? {
      ReceivePays(|live|, Bound(live, a.i), p, a.i);
    } else {
      WorkPays(|live|, Bound(live, a.i), p, a.i, a.t);
    }
  }

  /** Every receive and every step of a thread lowers the measure. */
  lemma WorkDescends(s: Sys, a: Action)
    requires ProcsOk(s.procs) && Enabled(s, a) && !a.Sweep?
    ensures Measure(Do(s, a)) < Measure(s)
  {
    var live, p := s.procs.Keys, s.procs[a.i];
    StepOk(s, a);
    EffectOk(live, p, a);
    ActorPays(live, p, a);
    forall k | k in live - {a.i} {
      Recipients(live, s.procs, a, k);
    }
    TotalChange(live, s.procs, Do(s, a).procs, a.i, Copies(|live|, Bound(live, a.i), EffectOf(p, a)));
  }

  // ---------------------------------------------------------------------------------------------
  // Runs
  // ---------------------------------------------------------------------------------------------

  /** A monitor evicting its dead leader: the only way an election starts by itself. */
  predicate Fires(s: Sys, a: Action) {
    a.Sweep? && a.i in s.procs && s.procs[a.i].leader in a.dead * s.procs[a.i].known
  }

  /** Receives and thread steps among acts[from..upto]. */
  function WorkCount(acts: seq<Action>, from: nat, upto: nat): nat
    requires from <= upto <= |acts|
  {
    if from == upto then 0
    else WorkCount(acts, from, upto - 1) + (if acts[upto - 1].Sweep? then 0 else 1)
  }

  lemma SweepWeighs(live: set<int>, p: Proc, a: Action)
    requires a.Sweep? && p.mon == Idle && p.leader !in a.dead * p.known
    ensures Weight(live, a.i, EffectOf(p, a).p) == Weight(live, a.i, p)
  {
  }

  lemma SweepKeeps(s: Sys, a: Action)
    requires ProcsOk(s.procs) && Enabled(s, a) && a.Sweep? && !Fires(s, a)
    ensures Measure(Do(s, a)) == Measure(s)
  {
    var live, procs' := s.procs.Keys, Do(s, a).procs;
    StepOk(s, a);
    SweepWeighs(live, s.procs[a.i], a);
    forall k | k in live ensures Weight(live, k, procs'[k]) == Weight(live, k, s.procs[k]) {
      assert k != a.i ==> procs'[k] == s.procs[k];
    }
    TotalGrowth(live, s.procs, procs', live, 0);
    TotalGrowth(live, procs', s.procs, live, 0);
    Ones(|live|);
  }

  // ---------------------------------------------------------------------------------------------
  // Detections
  // ---------------------------------------------------------------------------------------------

  function FireCount(run: seq<Sys>, acts: seq<Action>, from: nat, upto: nat): nat
    requires |run| == |acts| + 1 && from <= upto <= |acts|
  {
    if from == upto then 0
    else FireCount(run, acts, from, upto - 1) + (if Fires(run[upto - 1], acts[upto - 1]) then 1 else 0)
  }

  /** Server i follows a dead leader it still lists: its monitor may yet fire. */
  predicate Armed(live: set<int>, p: Proc) {
    p.leader !in live && p.leader in p.known
  }

  function ArmedSet(s: Sys): set<int> {
    set i | i in s.procs && Armed(s.procs.Keys, s.procs[i])
  }

  /** While the receive loop is taking over a COORDINATOR's list its server follows somebody alive. */
  ghost predicate Following(s: Sys) {
    forall i | i in s.procs && (s.procs[i].recv.Adopting? || s.procs[i].recv.Demoting?) ::
      s.procs[i].leader in s.procs.Keys
  }

  lemma ActsFollowing(live: set<int>, p: Proc, a: Action)
    requires CanAct(live, p, a)
    requires p.recv.Adopting? || p.recv.Demoting? ==> p.leader in live
    ensures var q := EffectOf(p, a).p;
            && (q.recv.Adopting? || q.recv.Demoting? ==> q.leader in live)
            && (Armed(live, q) ==> Armed(live, p))
            && (a.Sweep? && p.leader in a.dead * p.known ==> Armed(live, p) && !Armed(live, q))
  {
    if a.Receive? {
      assert MsgOk(live, a.i, p.inbox[0]);
    }
  }

  /** No server is armed again, and firing disarms: leaders are only ever replaced by live ones. */
  lemma ArmedShrinks(s: Sys, a: Action)
    requires ProcsOk(s.procs) && Following(s) && Enabled(s, a)
    ensures Following(Do(s, a))
    ensures ArmedSet(Do(s, a)) <= ArmedSet(s)
    ensures Fires(s, a) ==> a.i in ArmedSet(s) && a.i !in ArmedSet(Do(s, a))
  {
    var s' := Do(s, a);
    StepOk(s, a);
    ActsFollowing(s.procs.Keys, s.procs[a.i], a);
    forall k | k in s'.procs
      ensures s'.procs[k].leader == (if k == a.i then EffectOf(s.procs[k], a).p else s.procs[k]).leader
      ensures s'.procs[k].known == (if k == a.i then EffectOf(s.procs[k], a).p else s.procs[k]).known
      ensures s'.procs[k].recv == (if k == a.i then EffectOf(s.procs[k], a).p else s.procs[k]).recv
    {
    }
  }

  lemma ArmedCount(s: Sys, a: Action)
    requires ProcsOk(s.procs) && Following(s) && Enabled(s, a)
    ensures |ArmedSet(Do(s, a))| + (if Fires(s, a) then 1 else 0) <= |ArmedSet(s)|
  {
    ArmedShrinks(s, a);
    var rest := if Fires(s, a) then ArmedSet(s) - {a.i} else ArmedSet(s);
    Fewer(ArmedSet(Do(s, a)), rest);
  }

  lemma {:induction false} Fewer(a: set<int>, b: set<int>)
    requires a <= b
    ensures |a| <= |b|
  {
    if a != {} {
      var x := Pick(a);
      Fewer(a - {x}, b - {x});
    }
  }

  // ---------------------------------------------------------------------------------------------
  // The whole budget
  // ---------------------------------------------------------------------------------------------

  /** What one detection may still cost, wherever it happens. */
  function FireWeight(n: nat): nat {
    Climb(n, Below(n, n)) + 1
  }

  /** The measure, and in advance the cost of every detection that can still come. */
  ghost function Potential(s: Sys): nat {
    Measure(s) + Scaled(|ArmedSet(s)|, FireWeight(|s.procs|))
  }

  lemma {:induction false} ScaledAdds(n: nat, k: nat, x: nat)
    requires k <= n
    ensures Scaled(n, x) == Scaled(n - k, x) + Scaled(k, x)
  {
    if k > 0 {
      ScaledAdds(n - 1, k - 1, x);
    }
  }

  lemma FireWeighs(live: set<int>, p: Proc, a: Action)
    requires a.Sweep? && a.i in live && p.mon == Idle
    ensures Weight(live, a.i, EffectOf(p, a).p) <= Weight(live, a.i, p) + FireWeight(|live|)
  {
    var n, r := |live|, |Above(live, a.i)|;
    Fewer(Above(live, a.i), live);
    BelowMonotone(n, r, n);
    ClimbMonotone(n, Below(n, r), Below(n, n));
  }

  lemma FireCosts(s: Sys, a: Action)
    requires ProcsOk(s.procs) && Enabled(s, a) && Fires(s, a)
    ensures Measure(Do(s, a)) <= Measure(s) + FireWeight(|s.procs|)
  {
    var live, procs' := s.procs.Keys, Do(s, a).procs;
    StepOk(s, a);
    FireWeighs(live, s.procs[a.i], a);
    forall k | k in live - {a.i} ensures Weight(live, k, procs'[k]) <= Weight(live, k, s.procs[k]) {
      assert procs'[k] == s.procs[k];
    }
    TotalChange(live, s.procs, procs', a.i, 0);
    Ones(|live|);
    assert |live| == |s.procs|;
  }

  lemma ActionPays(s: Sys, a: Action)
    requires ProcsOk(s.procs) && Following(s) && Enabled(s, a)
    ensures Potential(Do(s, a)) + (if a.Sweep? then 0 else 1) <= Potential(s)
  {
    var s' := Do(s, a);
    StepOk(s, a);
    ArmedCount(s, a);
    assert |s'.procs| == |s.procs| by {
      assert s'.procs.Keys == s.procs.Keys;
    }
    var w := FireWeight(|s.procs|);
    ScaledAdds(|ArmedSet(s)|, |ArmedSet(s)| - |ArmedSet(s')|, w);
    if Fires(s, a) {
      FireCosts(s, a);
      ScaledAdds(|ArmedSet(s)| - |ArmedSet(s')|, 1, w);
    } else if a.Sweep? {
      SweepKeeps(s, a);
    } else {
      WorkDescends(s, a);
    }
  }

  lemma {:induction false} RunFollowing(run: seq<Sys>, acts: seq<Action>, k: nat, m: int)
    requires Labelled(run, acts) && k < |run| && IsTop(run[0].procs.Keys, m)
    ensures ProcsOk(run[k].procs) && Following(run[k])
  {
    LabelledIsRun(run, acts);
    RunInv(run, k, m);
    if k > 0 {
      RunFollowing(run, acts, k - 1, m);
      ArmedShrinks(run[k - 1], acts[k - 1]);
      assert run[k] == Do(run[k - 1], acts[k - 1]);
    }
  }

  lemma ActionAt(run: seq<Sys>, acts: seq<Action>, k: nat, m: int)
    requires Labelled(run, acts) && k < |acts| && IsTop(run[0].procs.Keys, m)
    ensures Potential(run[k + 1]) + (if acts[k].Sweep? then 0 else 1) <= Potential(run[k])
    ensures |ArmedSet(run[k + 1])| + (if Fires(run[k], acts[k]) then 1 else 0) <= |ArmedSet(run[k])|
  {
    RunFollowing(run, acts, k, m);
    assert run[k + 1] == Do(run[k], acts[k]);
    ArmedCount(run[k], acts[k]);
    ActionPays(run[k], acts[k]);
  }

  /** How often the monitor of server i fires. */
  function FireCountAt(run: seq<Sys>, acts: seq<Action>, i: int, from: nat, upto: nat): nat
    requires |run| == |acts| + 1 && from <= upto <= |acts|
  {
    if from == upto then 0
    else
      FireCountAt(run, acts, i, from, upto - 1)
      + (if acts[upto - 1].i == i && Fires(run[upto - 1], acts[upto - 1]) then 1 else 0)
  }

  lemma ArmedAt(run: seq<Sys>, acts: seq<Action>, i: int, k: nat, m: int)
    requires Labelled(run, acts) && k < |acts| && IsTop(run[0].procs.Keys, m)
    ensures i in ArmedSet(run[k + 1]) ==> i in ArmedSet(run[k])
    ensures acts[k].i == i && Fires(run[k], acts[k]) ==> i in ArmedSet(run[k]) && i !in ArmedSet(run[k + 1])
  {
    RunFollowing(run, acts, k, m);
    assert Enabled(run[k], acts[k]) && run[k + 1] == Do(run[k], acts[k]);
    ArmedShrinks(run[k], acts[k]);
  }

  /**
   No server's monitor fires twice in a run: it fires at most once from any moment on, only if it is armed
   then, and not at all if it is still armed in the end.
   */
  lemma {:induction false} FiresOnce(run: seq<Sys>, acts: seq<Action>, i: int, from: nat, upto: nat, m: int)
    requires Labelled(run, acts) && from <= upto <= |acts| && IsTop(run[0].procs.Keys, m)
    ensures FireCountAt(run, acts, i, from, upto) + (if i in ArmedSet(run[upto]) then 1 else 0)
            <= if i in ArmedSet(run[from]) then 1 else 0
  {
    if from < upto {
      FiresOnce(run, acts, i, from, upto - 1, m);
      ArmedAt(run, acts, i, upto - 1, m);
    }
  }

  /** In all there are never more detections than armed servers. */
  lemma {:induction false} FiresBounded(run: seq<Sys>, acts: seq<Action>, from: nat, upto: nat, m: int)
    requires Labelled(run, acts) && from <= upto <= |acts| && IsTop(run[0].procs.Keys, m)
    ensures FireCount(run, acts, from, upto) + |ArmedSet(run[upto])| <= |ArmedSet(run[from])|
  {
    if from < upto {
      FiresBounded(run, acts, from, upto - 1, m);
      ActionAt(run, acts, upto - 1, m);
    }
  }

  /**
   The potential of a state pays for every receive and every thread step still to come, those that later
   detections cause included.
   */
  lemma {:induction false} WorkBounded(run: seq<Sys>, acts: seq<Action>, from: nat, upto: nat, m: int)
    requires Labelled(run, acts) && from <= upto <= |acts| && IsTop(run[0].procs.Keys, m)
    ensures Potential(run[upto]) + WorkCount(acts, from, upto) <= Potential(run[from])
  {
    if from < upto {
      WorkBounded(run, acts, from, upto - 1, m);
      ActionAt(run, acts, upto - 1, m);
    }
  }

  // ---------------------------------------------------------------------------------------------
  // A detection begins an election
  // ---------------------------------------------------------------------------------------------

  /** Nothing has been set in motion except monitors that are about to start the first election. */
  predicate Untouched(live: set<int>, i: int, p: Proc) {
    && p.inbox == [] && p.recv == Idle && !p.electing
    && (p.mon == Idle || (p.mon == Checking && p.leader != i) || p.mon == Starting)
  }

  ghost predicate Dormant(s: Sys) {
    s.begun || forall i | i in s.procs :: Untouched(s.procs.Keys, i, s.procs[i])
  }

  /** Somebody has noticed: an election has begun, or a monitor is on its way to begin one. */
  ghost predicate Noticed(s: Sys) {
    s.begun || exists i | i in s.procs :: s.procs[i].mon != Idle
  }

  lemma DormantStep(s: Sys, a: Action)
    requires Dormant(s) && Enabled(s, a)
    ensures Dormant(Do(s, a))
    ensures Noticed(s) || Fires(s, a) ==> Noticed(Do(s, a))
  {
    var s' := Do(s, a);
    if !s'.begun {
      var q := EffectOf(s.procs[a.i], a);
      assert Untouched(s.procs.Keys, a.i, s.procs[a.i]);
      assert q.dests == {};
      forall k | k in s'.procs ensures s'.procs[k] == if k == a.i then q.p else s.procs[k] {
      }
      if Noticed(s) {
        var i :| i in s.procs && s.procs[i].mon != Idle;
        assert s'.procs[i].mon != Idle;
      } else if Fires(s, a) {
        assert s'.procs[a.i].mon != Idle;
      }
    }
  }

  lemma {:induction false} RunDormant(run: seq<Sys>, acts: seq<Action>, k: nat)
    requires Labelled(run, acts) && k < |run|
    ensures Dormant(run[k])
    ensures (exists j | 0 <= j < k :: Fires(run[j], acts[j])) ==> Noticed(run[k])
  {
    if k > 0 {
      RunDormant(run, acts, k - 1);
      assert run[k] == Do(run[k - 1], acts[k - 1]);
      DormantStep(run[k - 1], acts[k - 1]);
    }
  }

  predicate Converged(s: Sys, m: int) {
    forall i | i in s.procs :: s.procs[i].leader == m && (s.procs[i].primary <==> i == m)
  }

  lemma StuckIsQuiescent(s: Sys)
    requires forall a | Enabled(s, a) :: a.Sweep?
    ensures Quiescent(s)
  {
    forall i | i in s.procs ensures s.procs[i].inbox == [] && s.procs[i].recv == Idle && s.procs[i].mon == Idle {
      assert !Enabled(s, Receive(i));
      assert !Enabled(s, Advance(i, Receiver)) && !Enabled(s, Advance(i, Monitor));
    }
  }

  /** An election has begun, or some monitor has fired. */
  ghost predicate Started(run: seq<Sys>, acts: seq<Action>)
    requires |run| == |acts| + 1
  {
    run[|acts|].begun || exists k | 0 <= k < |acts| :: Fires(run[k], acts[k])
  }

  /**
   Elections terminate and agree, however many monitors notice the dead leader and whenever they do: from
   any moment of any run at most Potential many receives and thread steps remain, and once somebody has
   noticed, a state where none is possible has every live server following the highest, alone primary.
   */
  lemma ElectionsConverge(run: seq<Sys>, acts: seq<Action>, from: nat, m: int)
    requires Labelled(run, acts) && from <= |acts| && IsTop(run[0].procs.Keys, m)
    ensures WorkCount(acts, from, |acts|) <= Potential(run[from])
    ensures FireCount(run, acts, from, |acts|) <= |ArmedSet(run[from])|
    ensures Started(run, acts) && (forall a | Enabled(run[|acts|], a) :: a.Sweep?) ==> Converged(run[|acts|], m)
  {
    WorkBounded(run, acts, from, |acts|, m);
    FiresBounded(run, acts, from, |acts|, m);
    LabelledIsRun(run, acts);
    RunDormant(run, acts, |acts|);
    if Started(run, acts) && forall a | Enabled(run[|acts|], a) :: a.Sweep? {
      StuckIsQuiescent(run[|acts|]);
      Convergence(run, |acts|, m);
    }
  }
}
