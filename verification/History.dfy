/** What the sequence-number rule promises over whole histories: order, at-most-once, redelivery. */
module History {
  import opened Machine
  import opened Ledgers

  predicate AcceptedAt(ops: seq<Op>, k: nat)
    requires k < |ops|
  {
    OutcomeOf(Run(ops[..k]), ops[k]).Accepted()
  }

  /** Some request of this source with a number at least seqn was accepted in the history. */
  ghost predicate Covered(ops: seq<Op>, source: uint32, seqn: uint32) {
    exists k | 0 <= k < |ops| :: AcceptedAt(ops, k) && ops[k].source == source && seqn <= ops[k].seqn
  }

  lemma FindStable(cs: seq<Client>, cs': seq<Client>, ip: uint32)
    requires ExtendsIps(cs, cs')
    ensures Find(cs, ip) < |cs| ==> Find(cs', ip) == Find(cs, ip)
    ensures Find(cs, ip) == |cs| ==> Find(cs', ip) >= |cs|
  {
    var f, f' := Find(cs, ip), Find(cs', ip);
    assert f < |cs| ==> cs'[f].ip == cs[f].ip;
    assert f' < |cs| ==> cs'[f'].ip == cs[f'].ip;
  }

  lemma RegisterLastReq(l: Ledger, ip: uint32, x: uint32)
    ensures LastReq(Register(l, ip), x) == LastReq(l, x)
    ensures Known(l, x) ==> Known(Register(l, ip), x)
    ensures Register(Register(l, ip), ip) == Register(l, ip)
  {
    FindStable(l.clients, Register(l, ip).clients, x);
    if !Known(l, ip) && |l.clients| < MAX_CLIENTS {
      assert Register(l, ip).clients[|l.clients|].ip == ip;
    }
  }

  /** Writing one slot's number is seen by its own address and by no other. */
  lemma MarkedLastReq(r: Ledger, l': Ledger, op: Op, x: uint32)
    requires op.Transfer? && Known(r, op.source) && |l'.clients| == |r.clients|
    requires forall i | 0 <= i < |r.clients| ::
               && l'.clients[i].ip == r.clients[i].ip
               && l'.clients[i].lastReq == if i == Find(r.clients, op.source) then op.seqn else r.clients[i].lastReq
    ensures LastReq(l', x) == if op.source == x then op.seqn else LastReq(r, x)
    ensures Known(l', x) == Known(r, x)
  {
    FindStable(r.clients, l'.clients, x);
  }

  lemma CommittedLastReq(r: Ledger, op: Op, x: uint32)
    requires op.Transfer? && Verdict(r, op).Committed?
    ensures LastReq(Commit(r, op), x) == if op.source == x then op.seqn else LastReq(r, x)
    ensures Known(Commit(r, op), x) == Known(r, x)
  {
    MarkedLastReq(r, Commit(r, op), op, x);
  }

  /** An accepted request carries a new number, and it is the only thing that moves last_req_id. */
  lemma StepLastReq(l: Ledger, op: Op, x: uint32)
    ensures LastReq(Apply(l, op), x) ==
            if OutcomeOf(l, op).Accepted() && op.source == x then op.seqn else LastReq(l, x)
    ensures OutcomeOf(l, op).Accepted() ==> LastReq(l, op.source) < op.seqn
    ensures Known(l, x) ==> Known(Apply(l, op), x)
  {
    if op.Discover? {
      RegisterLastReq(l, op.ip, x);
    } else {
      RegisterLastReq(l, op.source, x);
      RegisterLastReq(l, op.source, op.source);
      var r := Register(l, op.source);
      match Verdict(r, op) {
        case Touched => MarkedLastReq(r, Apply(l, op), op, x);
        case Committed => CommittedLastReq(r, op, x);
        case _ =>
      }
    }
  }

  /** The duplicate rule, read off the table: exactly the numbers up to last_req_id are refused. */
  lemma DuplicateExactly(l: Ledger, op: Op)
    requires op.Transfer?
    ensures OutcomeOf(l, op).Duplicate? <==>
            Known(Register(l, op.source), op.source) && op.seqn <= LastReq(l, op.source)
  {
    RegisterLastReq(l, op.source, op.source);
  }

  lemma AcceptedPrefix(ops: seq<Op>, k: nat)
    requires k < |ops| - 1
    ensures AcceptedAt(ops[..|ops| - 1], k) == AcceptedAt(ops, k)
  {
    assert ops[..|ops| - 1][..k] == ops[..k];
  }

  lemma LastReqGrows(ops: seq<Op>, source: uint32)
    requires ops != []
    ensures LastReq(Run(ops[..|ops| - 1]), source) <= LastReq(Run(ops), source)
  {
    StepLastReq(Run(ops[..|ops| - 1]), ops[|ops| - 1], source);
  }

  /** last_req_id is never below a number accepted so far. */
  lemma {:induction false} LastReqIsBound(ops: seq<Op>, k: nat)
    requires k < |ops| && AcceptedAt(ops, k)
    ensures ops[k].seqn <= LastReq(Run(ops), ops[k].source)
  {
    if k == |ops| - 1 {
      StepLastReq(Run(ops[..k]), ops[k], ops[k].source);
    } else {
      AcceptedPrefix(ops, k);
      LastReqIsBound(ops[..|ops| - 1], k);
      LastReqGrows(ops, ops[k].source);
    }
  }

  /** Unless it is still 0, last_req_id is a number that was accepted. */
  lemma {:induction false} LastReqIsAccepted(ops: seq<Op>, source: uint32) returns (k: nat)
    requires LastReq(Run(ops), source) != 0
    ensures k < |ops| && AcceptedAt(ops, k) && ops[k].source == source && ops[k].seqn == LastReq(Run(ops), source)
  {
    var n := |ops| - 1;
    StepLastReq(Run(ops[..n]), ops[n], source);
    if AcceptedAt(ops, n) && ops[n].source == source {
      k := n;
    } else {
      k := LastReqIsAccepted(ops[..n], source);
      AcceptedPrefix(ops, k);
    }
  }

  /** The numbers accepted from one source strictly increase; in particular none is accepted twice. */
  lemma AcceptedIncrease(ops: seq<Op>, i: nat, j: nat)
    requires i < j < |ops| && AcceptedAt(ops, i) && AcceptedAt(ops, j) && ops[i].source == ops[j].source
    ensures 0 < ops[i].seqn < ops[j].seqn
  {
    assert ops[..j][..i] == ops[..i];
    LastReqIsBound(ops[..j], i);
    StepLastReq(Run(ops[..j]), ops[j], ops[j].source);
    StepLastReq(Run(ops[..i]), ops[i], ops[i].source);
  }

  lemma AcceptedUnique(ops: seq<Op>, i: nat, j: nat)
    requires i < |ops| && j < |ops| && AcceptedAt(ops, i) && AcceptedAt(ops, j)
    requires ops[i].source == ops[j].source && ops[i].seqn == ops[j].seqn
    ensures i == j
  {
    if i < j {
      AcceptedIncrease(ops, i, j);
    } else if j < i {
      AcceptedIncrease(ops, j, i);
    }
  }

  /** last_req_id has reached a number exactly when the history covers it. */
  lemma CoveredExactly(ops: seq<Op>, source: uint32, seqn: uint32)
    requires 0 < seqn
    ensures seqn <= LastReq(Run(ops), source) <==> Covered(ops, source, seqn)
  {
    if Covered(ops, source, seqn) {
      var k :| 0 <= k < |ops| && AcceptedAt(ops, k) && ops[k].source == source && seqn <= ops[k].seqn;
      LastReqIsBound(ops, k);
    } else if seqn <= LastReq(Run(ops), source) {
      var k := LastReqIsAccepted(ops, source);
      assert Covered(ops, source, seqn);
    }
  }

  /** A server refuses a request as a duplicate exactly when its history covers the number (or it is 0). */
  lemma RefusedExactlyWhenCovered(ops: seq<Op>, op: Op)
    requires op.Transfer?
    ensures OutcomeOf(Run(ops), op).Duplicate? <==>
            Known(Register(Run(ops), op.source), op.source) && (op.seqn == 0 || Covered(ops, op.source, op.seqn))
    ensures Covered(ops, op.source, op.seqn) ==> OutcomeOf(Run(ops), op).Duplicate? && Apply(Run(ops), op) == Run(ops)
  {
    DuplicateExactly(Run(ops), op);
    if Covered(ops, op.source, op.seqn) {
      var k :| 0 <= k < |ops| && AcceptedAt(ops, k) && ops[k].source == op.source && op.seqn <= ops[k].seqn;
      LastReqIsBound(ops, k);
      StepLastReq(Run(ops[..k]), ops[k], ops[k].source);
      RegisterLastReq(Run(ops), op.source, op.source);
    } else if op.seqn <= LastReq(Run(ops), op.source) && op.seqn != 0 {
      var k := LastReqIsAccepted(ops, op.source);
      assert Covered(ops, op.source, op.seqn);
    }
  }

  /** Redelivering an accepted packet, at any later time and any number of times, changes nothing. */
  lemma {:induction false} RedeliveryHarmless(ops: seq<Op>, k: nat, copies: seq<Op>)
    requires k < |ops| && AcceptedAt(ops, k)
    requires forall i | 0 <= i < |copies| :: copies[i] == ops[k]
    ensures RunFrom(Run(ops), copies) == Run(ops)
  {
    if copies != [] {
      RedeliveryHarmless(ops, k, copies[..|copies| - 1]);
      RefusedExactlyWhenCovered(ops, ops[k]);
    }
  }

  /** Any request, accepted or not, delivered twice in a row has the effect of one delivery. */
  lemma Idempotent(l: Ledger, op: Op)
    ensures Apply(Apply(l, op), op) == Apply(l, op)
    ensures !OutcomeOf(l, op).Accepted() ==> Apply(l, op) == Register(l, if op.Discover? then op.ip else op.source)
  {
    if op.Discover? {
      RegisterLastReq(l, op.ip, op.ip);
    } else {
      RegisterLastReq(l, op.source, op.source);
      StepLastReq(l, op, op.source);
      StepLastReq(Register(l, op.source), op, op.source);
      if OutcomeOf(l, op).Accepted() {
        DuplicateExactly(Apply(l, op), op);
      }
    }
  }
}
