/** Client and server agree on sequence numbers: the sender takes its next number from each ack. */
module Resync {
  import opened Machine
  import opened Ledgers
  import opened History
  import opened ClientTables
  import opened CommandQueues
  import opened Options

  const MAX_SEQN: uint32 := 0xFFFF_FFFF

  /** The number the sender will use next is one past the last one the server accepted from it. */
  predicate InSync(l: Ledger, ip: uint32, next: uint32) {
    Known(l, ip) && next == AddU32(LastReq(l, ip), 1)
  }

  function AsRequest(ip: uint32, c: Command, next: uint32): Op {
    Transfer(ip, c.dest, c.value, next)
  }

  lemma AnsweredIsKnown(l: Ledger, op: Op)
    requires op.Transfer?
    ensures !OutcomeOf(l, op).TableFull? ==> Known(Apply(l, op), op.source)
    ensures Known(l, op.source) ==> !OutcomeOf(l, op).TableFull?
  {
    RegisterLastReq(l, op.source, op.source);
    var r := Register(l, op.source);
    assert ExtendsIps(r.clients, Apply(l, op).clients) by {
      SameIps(r, op);
    }
    FindStable(r.clients, Apply(l, op).clients, op.source);
  }

  lemma SameIps(r: Ledger, op: Op)
    requires op.Transfer?
    ensures ExtendsIps(r.clients, Decide(r, op).clients)
  {
  }

  /** Other clients' traffic does not put it out of step. */
  lemma OthersKeepSync(l: Ledger, ip: uint32, next: uint32, op: Op)
    requires InSync(l, ip, next) && (op.Transfer? ==> op.source != ip)
    ensures InSync(Apply(l, op), ip, next) && LastReq(Apply(l, op), ip) == LastReq(l, ip)
  {
    StepLastReq(l, op, ip);
  }

  /**
   A sender in step is answered by a server that has a slot for it, and its command is taken for a
   duplicate exactly when the server's number stands at its maximum and the next one wraps to 0.
   */
  lemma DuplicateOnlyAtWrap(l: Ledger, ip: uint32, c: Command, next: uint32)
    requires InSync(l, ip, next)
    ensures !OutcomeOf(l, AsRequest(ip, c, next)).TableFull?
    ensures OutcomeOf(l, AsRequest(ip, c, next)).Duplicate? <==> LastReq(l, ip) == MAX_SEQN
  {
    AnsweredIsKnown(l, AsRequest(ip, c, next));
    DuplicateExactly(l, AsRequest(ip, c, next));
    RegisterLastReq(l, ip, ip);
  }

  /** A restarted sender begins at 1: its first command is lost exactly when the server knows it already. */
  lemma FirstAfterRestart(l: Ledger, ip: uint32, c: Command)
    ensures OutcomeOf(l, AsRequest(ip, c, 1)).Duplicate? <==> LastReq(l, ip) >= 1
  {
    DuplicateExactly(l, AsRequest(ip, c, 1));
    RegisterLastReq(l, ip, ip);
  }

  /** Once the number has wrapped, every later command is a duplicate and the sender stays at 0. */
  lemma StuckAfterWrap(l: Ledger, ip: uint32, c: Command)
    requires Known(l, ip) && LastReq(l, ip) == MAX_SEQN
    ensures OutcomeOf(l, AsRequest(ip, c, 0)).Duplicate?
    ensures Apply(l, AsRequest(ip, c, 0)) == l && InSync(l, ip, 0)
  {
    DuplicateOnlyAtWrap(l, ip, c, 0);
    RegisterLastReq(l, ip, ip);
  }

  // ---------------------------------------------------------------------------------------------
  // The sender loop
  // ---------------------------------------------------------------------------------------------

  /** What the other clients do between two requests of this one: their operations and nothing else. */
  method ServeOthers(server: ClientTable, others: seq<Op>)
    requires server.Valid()
    modifies server, server.slots
    ensures server.Valid() && server.View() == RunFrom(old(server.View()), others)
  {
    for i := 0 to |others|
      invariant server.Valid() && server.View() == RunFrom(old(server.View()), others[..i])
    {
      assert others[..i + 1][..i] == others[..i];
      match others[i]
      case Discover(other) =>
        var _ := server.FindOrAddClient(other);
      case Transfer(_, _, _, _) =>
        var _, _ := server.HandleRequest(others[i]);
    }
    assert others[..|others|] == others;
  }

  predicate Foreign(others: seq<Op>, ip: uint32) {
    forall i | 0 <= i < |others| :: others[i].Transfer? ==> others[i].source != ip
  }

  /** They leave the number and the sync of this client alone. */
  lemma {:induction false} ForeignKeepsSync(l: Ledger, others: seq<Op>, ip: uint32)
    requires Foreign(others, ip)
    ensures LastReq(RunFrom(l, others), ip) == LastReq(l, ip)
    ensures Known(l, ip) ==> Known(RunFrom(l, others), ip)
  {
    if others != [] {
      var before := others[..|others| - 1];
      ForeignKeepsSync(l, before, ip);
      StepLastReq(RunFrom(l, before), others[|others| - 1], ip);
    }
  }

  /**
   One round trip. Whatever number the sender used, the ack it waits for puts it in step: its next number
   is one past the last one the server has accepted from it. That is one past its own number if the
   request was accepted, and the number it should have used if it was refused.
   */
  method RoundTrip(server: ClientTable, ip: uint32, c: Command, next: uint32) returns (outcome: Outcome, next': uint32)
    requires server.Valid()
    modifies server, server.slots
    ensures server.Valid() && server.View() == Apply(old(server.View()), AsRequest(ip, c, next))
    ensures outcome == OutcomeOf(old(server.View()), AsRequest(ip, c, next))
    ensures !outcome.TableFull? ==> InSync(server.View(), ip, next')
    ensures outcome.Accepted() ==> next' == AddU32(next, 1)
    ensures !outcome.Accepted() && !outcome.TableFull? ==> next' == AddU32(old(LastReq(server.View(), ip)), 1)
  {
    StepLastReq(server.View(), AsRequest(ip, c, next), ip);
    var ack;
    outcome, ack := server.HandleRequest(AsRequest(ip, c, next));
    next' := match ack { case Some(a) => AddU32(a.seqn, 1) case None => next };
  }

  /** The outcome of every operation of a history, in order. */
  function Outcomes(l: Ledger, ops: seq<Op>): (outcomes: seq<Outcome>)
    ensures |outcomes| == |ops|
  {
    if ops == [] then []
    else
      var before, op := ops[..|ops| - 1], ops[|ops| - 1];
      Outcomes(l, before) + [OutcomeOf(RunFrom(l, before), op)]
  }

  lemma OutcomesSnoc(l: Ledger, ops: seq<Op>, op: Op)
    ensures Outcomes(l, ops + [op]) == Outcomes(l, ops) + [OutcomeOf(RunFrom(l, ops), op)]
  {
    assert (ops + [op])[..|ops|] == ops;
  }

  lemma {:induction false} OutcomesConcat(l: Ledger, a: seq<Op>, b: seq<Op>)
    ensures Outcomes(l, a + b) == Outcomes(l, a) + Outcomes(RunFrom(l, a), b)
  {
    if b == [] {
      assert a + b == a;
    } else {
      var before, op := b[..|b| - 1], b[|b| - 1];
      assert a + b == (a + before) + [op] && b == before + [op];
      OutcomesConcat(l, a, before);
      RunConcat(l, a, before);
      OutcomesSnoc(l, a + before, op);
      OutcomesSnoc(RunFrom(l, a), before, op);
    }
  }

  function Sent(ip: uint32, c: Command, seqn: uint32): Op {
    Transfer(ip, c.dest, c.value, seqn)
  }

  /** From position from on stand the operations between and then, at position pos, this command of the client. */
  predicate Placed(ip: uint32, c: Command, between: seq<Op>, h: seq<Op>, from: nat, pos: nat) {
    && pos == from + |between| < |h| && h[from..pos] == between
    && h[pos].Transfer? && h[pos].source == ip && h[pos].dest == c.dest && h[pos].value == c.value
  }

  /** Where the k-th turn of a session begins. */
  function After(at: seq<nat>, k: nat): nat
    requires k <= |at|
  {
    if k == 0 then 0 else at[k - 1] + 1
  }

  predicate TurnAt(ip: uint32, commands: seq<Command>, others: seq<seq<Op>>, h: seq<Op>, at: seq<nat>, k: nat)
    requires k < |at| <= |commands| == |others|
  {
    Placed(ip, commands[k], others[k], h, After(at, k), at[k])
  }

  /**
   What a server runs during a session: at[k] is where the k-th command of this client stands in it, and
   between two of its commands stand exactly the operations of the others.
   */
  predicate Session(ip: uint32, commands: seq<Command>, others: seq<seq<Op>>, h: seq<Op>, at: seq<nat>) {
    && |at| <= |commands| == |others| && |h| == After(at, |at|)
    && forall k | 0 <= k < |at| :: TurnAt(ip, commands, others, h, at, k)
  }

  lemma PlacedStays(ip: uint32, c: Command, between: seq<Op>, h: seq<Op>, more: seq<Op>, from: nat, pos: nat)
    requires Placed(ip, c, between, h, from, pos)
    ensures Placed(ip, c, between, h + more, from, pos)
  {
    assert (h + more)[from..pos] == h[from..pos];
  }

  lemma PlacedLast(ip: uint32, c: Command, between: seq<Op>, h: seq<Op>, seqn: uint32)
    ensures Placed(ip, c, between, h + (between + [Sent(ip, c, seqn)]), |h|, |h| + |between|)
  {
    var h' := h + (between + [Sent(ip, c, seqn)]);
    assert h'[|h|..|h| + |between|] == between;
  }

  lemma TurnStays(ip: uint32, commands: seq<Command>, others: seq<seq<Op>>, h: seq<Op>, at: seq<nat>, k: nat,
                  more: seq<Op>, pos: nat)
    requires k < |at| < |commands| == |others| && TurnAt(ip, commands, others, h, at, k)
    ensures TurnAt(ip, commands, others, h + more, at + [pos], k)
  {
    assert After(at + [pos], k) == After(at, k);
    PlacedStays(ip, commands[k], others[k], h, more, After(at, k), at[k]);
  }

  /** One more command, after one more bunch of other operations. */
  lemma SessionGrows(ip: uint32, commands: seq<Command>, others: seq<seq<Op>>, h: seq<Op>, at: seq<nat>, n: nat,
                     seqn: uint32, h': seq<Op>, at': seq<nat>)
    requires Session(ip, commands, others, h, at) && n == |at| < |commands|
    requires h' == h + (others[n] + [Sent(ip, commands[n], seqn)]) && at' == at + [|h| + |others[n]|]
    ensures Session(ip, commands, others, h', at')
  {
    assert After(at', n) == |h|;
    PlacedLast(ip, commands[n], others[n], h, seqn);
    forall k | 0 <= k < n + 1 ensures TurnAt(ip, commands, others, h', at', k) {
      if k < n {
        TurnStays(ip, commands, others, h, at, k, others[n] + [Sent(ip, commands[n], seqn)], |h| + |others[n]|);
      }
    }
  }

  /** The outcomes of the client's own commands among those of the whole history. */
  predicate Picked(outcomes: seq<Outcome>, all: seq<Outcome>, at: seq<nat>) {
    |outcomes| == |at| && forall k | 0 <= k < |at| :: at[k] < |all| && outcomes[k] == all[at[k]]
  }

  lemma OutcomesGrow(l: Ledger, h: seq<Op>, between: seq<Op>, op: Op)
    ensures var all := Outcomes(l, h + (between + [op]));
            && Outcomes(l, h) <= all
            && all[|h| + |between|] == OutcomeOf(RunFrom(RunFrom(l, h), between), op)
  {
    OutcomesSnoc(RunFrom(l, h), between, op);
    OutcomesConcat(l, h, between + [op]);
  }

  lemma PickedGrows(outcomes: seq<Outcome>, all: seq<Outcome>, at: seq<nat>, all': seq<Outcome>, pos: nat)
    requires Picked(outcomes, all, at) && all <= all' && pos < |all'|
    ensures Picked(outcomes + [all'[pos]], all', at + [pos])
  {
  }

  /** Every command but the first was taken as new. */
  predicate AllNew(outcomes: seq<Outcome>) {
    forall k | 1 <= k < |outcomes| :: !outcomes[k].Duplicate? && !outcomes[k].TableFull?
  }

  lemma AllNewGrows(outcomes: seq<Outcome>, outcome: Outcome)
    ensures AllNew(outcomes + [outcome]) <==>
            AllNew(outcomes) && (outcomes == [] || (!outcome.Duplicate? && !outcome.TableFull?))
  {
    var more := outcomes + [outcome];
    assert forall k | 1 <= k < |outcomes| :: more[k] == outcomes[k];
    assert outcomes != [] ==> more[|outcomes|] == outcome;
  }

  /** What is known of the first outcome and of the number after some commands. */
  predicate Classified(outcomes: seq<Outcome>, first: uint32, last: uint32, room: bool) {
    && first <= last <= first + |outcomes|
    && (outcomes != [] ==> (outcomes[0].Duplicate? <==> first >= 1))
    && (last < MAX_SEQN || room ==> AllNew(outcomes))
  }

  lemma ClassifiedGrows(outcomes: seq<Outcome>, first: uint32, last: uint32, last': uint32, room: bool,
                        outcome: Outcome)
    requires Classified(outcomes, first, last, room) && last <= last' <= last + 1
    requires room ==> first + |outcomes| < MAX_SEQN
    requires if outcomes == [] then last == first && (outcome.Duplicate? <==> first >= 1)
             else !outcome.TableFull? && (outcome.Duplicate? <==> last == MAX_SEQN)
    ensures Classified(outcomes + [outcome], first, last', room)
  {
    AllNewGrows(outcomes, outcome);
    assert outcomes != [] ==> (outcomes + [outcome])[0] == outcomes[0];
  }

  /** One turn of the sender loop: other clients' operations, then one round trip. */
  method Turn(server: ClientTable, ip: uint32, c: Command, between: seq<Op>, next: uint32, ghost first: bool)
    returns (outcome: Outcome, next': uint32)
    requires server.Valid() && Foreign(between, ip)
    requires if first then next == 1 else InSync(server.View(), ip, next)
    modifies server, server.slots
    ensures server.Valid()
    ensures server.View() == RunFrom(old(server.View()), between + [Sent(ip, c, next)])
    ensures outcome == OutcomeOf(RunFrom(old(server.View()), between), Sent(ip, c, next))
    ensures LastReq(server.View(), ip) <= old(LastReq(server.View(), ip)) + 1
    ensures LastReq(server.View(), ip) >= old(LastReq(server.View(), ip))
    ensures !outcome.TableFull? ==> InSync(server.View(), ip, next')
    ensures first ==> (outcome.Duplicate? <==> old(LastReq(server.View(), ip)) >= 1)
    ensures !first ==> !outcome.TableFull? && (outcome.Duplicate? <==> old(LastReq(server.View(), ip)) == MAX_SEQN)
  {
    ghost var l := server.View();
    ForeignKeepsSync(l, between, ip);
    ServeOthers(server, between);
    RunSnoc(l, between, AsRequest(ip, c, next));
    StepLastReq(server.View(), AsRequest(ip, c, next), ip);
    if first {
      FirstAfterRestart(server.View(), ip, c);
    } else {
      DuplicateOnlyAtWrap(server.View(), ip, c, next);
    }
    outcome, next' := RoundTrip(server, ip, c, next);
  }

  /** Where a session stands: what the server has run since, and what has become of the commands so far. */
  ghost predicate Progress(start: Ledger, now: Ledger, ip: uint32, commands: seq<Command>, others: seq<seq<Op>>,
                           outcomes: seq<Outcome>, h: seq<Op>, at: seq<nat>)
  {
    && |at| == |outcomes| && now == RunFrom(start, h)
    && Session(ip, commands, others, h, at) && Picked(outcomes, Outcomes(start, h), at)
    && Classified(outcomes, LastReq(start, ip), LastReq(now, ip), LastReq(start, ip) + |commands| <= MAX_SEQN)
  }

  /** After a turn: h and at as they are then. */
  function Longer(h: seq<Op>, between: seq<Op>, op: Op): seq<Op> {
    h + (between + [op])
  }

  lemma HistoryGrows(start: Ledger, h: seq<Op>, now: Ledger, between: seq<Op>, op: Op)
    requires now == RunFrom(start, h)
    ensures var h' := Longer(h, between, op);
            && RunFrom(now, between + [op]) == RunFrom(start, h') && Outcomes(start, h) <= Outcomes(start, h')
            && Outcomes(start, h')[|h| + |between|] == OutcomeOf(RunFrom(now, between), op)
  {
    RunConcat(start, h, between + [op]);
    OutcomesGrow(start, h, between, op);
  }

  lemma ProgressGrows(start: Ledger, now: Ledger, ip: uint32, commands: seq<Command>, others: seq<seq<Op>>,
                      outcomes: seq<Outcome>, h: seq<Op>, at: seq<nat>, n: nat, seqn: uint32, outcome: Outcome,
                      now': Ledger)
    requires Progress(start, now, ip, commands, others, outcomes, h, at) && n == |at| < |commands|
    requires now' == RunFrom(now, others[n] + [Sent(ip, commands[n], seqn)])
    requires outcome == OutcomeOf(RunFrom(now, others[n]), Sent(ip, commands[n], seqn))
    requires LastReq(now, ip) <= LastReq(now', ip) <= LastReq(now, ip) + 1
    requires if n == 0 then outcome.Duplicate? <==> LastReq(now, ip) >= 1
             else !outcome.TableFull? && (outcome.Duplicate? <==> LastReq(now, ip) == MAX_SEQN)
    requires n == 0 ==> now == start
    ensures Progress(start, now', ip, commands, others, outcomes + [outcome],
                     Longer(h, others[n], Sent(ip, commands[n], seqn)), at + [|h| + |others[n]|])
  {
    var op := Sent(ip, commands[n], seqn);
    var h' := Longer(h, others[n], op);
    HistoryGrows(start, h, now, others[n], op);
    SessionGrows(ip, commands, others, h, at, n, seqn, h', at + [|h| + |others[n]|]);
    PickedGrows(outcomes, Outcomes(start, h), at, Outcomes(start, h'), |h| + |others[n]|);
    ClassifiedGrows(outcomes, LastReq(start, ip), LastReq(now, ip), LastReq(now', ip),
                    LastReq(start, ip) + |commands| <= MAX_SEQN, outcome);
  }

  /**
   The sender loop of a freshly started client against a server that serves others in between. It stops
   early only where the program would wait for ever: a full table never answers. All but the first
   command are taken as new if the server's number leaves room for the session, and as long as it has not
   reached its maximum in any case.
   */
  method RunSender(server: ClientTable, ip: uint32, commands: seq<Command>, others: seq<seq<Op>>)
    returns (outcomes: seq<Outcome>, ghost h: seq<Op>, ghost at: seq<nat>)
    requires server.Valid() && |others| == |commands|
    requires forall k | 0 <= k < |others| :: Foreign(others[k], ip)
    modifies server, server.slots
    ensures server.Valid() && server.View() == RunFrom(old(server.View()), h)
    ensures Session(ip, commands, others, h, at) && Picked(outcomes, Outcomes(old(server.View()), h), at)
    ensures |outcomes| < |commands| ==> |outcomes| == 1 && outcomes[0].TableFull?
    ensures |outcomes| > 0 ==> (outcomes[0].Duplicate? <==> old(LastReq(server.View(), ip)) >= 1)
    ensures LastReq(server.View(), ip) <= old(LastReq(server.View(), ip)) + |outcomes|
    ensures old(LastReq(server.View(), ip)) + |commands| <= MAX_SEQN ==> AllNew(outcomes)
    ensures LastReq(server.View(), ip) < MAX_SEQN ==> AllNew(outcomes)
  {
    var nextSequence: uint32 := 1;
    ghost var start := server.View();
    outcomes, h, at := [], [], [];
    for k := 0 to |commands|
      invariant server.Valid() && |at| == k
      invariant Progress(start, server.View(), ip, commands, others, outcomes, h, at)
      invariant if k == 0 then nextSequence == 1 && h == [] else InSync(server.View(), ip, nextSequence)
      invariant k > 0 ==> !outcomes[0].TableFull?
    {
      ghost var now, seqn := server.View(), nextSequence;
      var outcome: Outcome;
      outcome, nextSequence := Turn(server, ip, commands[k], others[k], nextSequence, k == 0);
      ProgressGrows(start, now, ip, commands, others, outcomes, h, at, k, seqn, outcome, server.View());
      outcomes, at, h :=
        outcomes + [outcome], at + [|h| + |others[k]|], Longer(h, others[k], Sent(ip, commands[k], seqn));
      if outcome.TableFull? {
        return;
      }
    }
  }
}
