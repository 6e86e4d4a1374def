/**
 The client table of a server as a value: linear search, find-or-register and the transfer step of
 handle_request, with the machine arithmetic written out.
 */
module Ledgers {
  import opened Machine

  datatype Client = Client(ip: uint32, lastReq: uint32, balance: uint32)

  datatype Ledger = Ledger(clients: seq<Client>, numTransactions: int32, totalTransferred: int32, totalBalance: int32)

  const EMPTY: Ledger := Ledger([], 0, 0, 0)

  /** What reaches the ledger: a discovery packet or a transfer request. */
  datatype Op =
    | Discover(ip: uint32)
    | Transfer(source: uint32, dest: uint32, value: uint32, seqn: uint32)

  datatype Outcome = Registered | TableFull | Duplicate | UnknownDest | Touched | Insufficient | Committed {
    /** The request was accepted: its sequence number is now the last one of its source. */
    predicate Accepted() {
      Touched? || Committed?
    }
  }

  /** First slot holding ip; the length of the table when there is none. */
  function Find(cs: seq<Client>, ip: uint32): (slot: nat)
    ensures slot <= |cs|
    ensures slot < |cs| ==> cs[slot].ip == ip
    ensures forall j | 0 <= j < slot :: cs[j].ip != ip
  {
    if cs == [] || cs[0].ip == ip then 0 else 1 + Find(cs[1..], ip)
  }

  predicate Known(l: Ledger, ip: uint32) {
    Find(l.clients, ip) < |l.clients|
  }

  function LastReq(l: Ledger, ip: uint32): uint32 {
    if Known(l, ip) then l.clients[Find(l.clients, ip)].lastReq else 0
  }

  function Balance(l: Ledger, ip: uint32): uint32
    requires Known(l, ip)
  {
    l.clients[Find(l.clients, ip)].balance
  }

  function Register(l: Ledger, ip: uint32): Ledger {
    if Known(l, ip) || |l.clients| >= MAX_CLIENTS then l
    else l.(clients := l.clients + [Client(ip, 0, INITIAL_BALANCE)],
            totalBalance := AddInt32(l.totalBalance, INITIAL_BALANCE))
  }

  function Debit(cs: seq<Client>, s: nat, value: uint32): seq<Client>
    requires s < |cs|
  {
    cs[s := cs[s].(balance := SubU32(cs[s].balance, value))]
  }

  function Credit(cs: seq<Client>, d: nat, value: uint32): seq<Client>
    requires d < |cs|
  {
    cs[d := cs[d].(balance := AddU32(cs[d].balance, value))]
  }

  function Mark(cs: seq<Client>, s: nat, seqn: uint32): seq<Client>
    requires s < |cs|
  {
    cs[s := cs[s].(lastReq := seqn)]
  }

  function Count(l: Ledger, value: uint32): Ledger {
    l.(numTransactions := AddInt32(l.numTransactions, 1),
       totalTransferred := AddInt32(l.totalTransferred, value))
  }

  /** The branch handle_request takes once the source has been looked up or registered. */
  function Verdict(r: Ledger, op: Op): Outcome
    requires op.Transfer?
  {
    var s, d := Find(r.clients, op.source), Find(r.clients, op.dest);
    if s == |r.clients| then TableFull
    else if op.seqn <= r.clients[s].lastReq then Duplicate
    else if d == |r.clients| then UnknownDest
    else if op.value == 0 then Touched
    else if r.clients[s].balance < op.value then Insufficient
    else Committed
  }

  /** Source and destination may be the same slot: the credit reads what the debit wrote. */
  function Commit(r: Ledger, op: Op): Ledger
    requires op.Transfer? && Known(r, op.source) && Known(r, op.dest)
  {
    var s, d := Find(r.clients, op.source), Find(r.clients, op.dest);
    Count(r.(clients := Mark(Credit(Debit(r.clients, s, op.value), d, op.value), s, op.seqn)), op.value)
  }

  /** The effect of a request on a ledger that has already looked up or registered its source. */
  function Decide(r: Ledger, op: Op): Ledger
    requires op.Transfer?
  {
    match Verdict(r, op)
    case Touched => r.(clients := Mark(r.clients, Find(r.clients, op.source), op.seqn))
    case Committed => Commit(r, op)
    case _ => r
  }

  function Apply(l: Ledger, op: Op): Ledger {
    match op
    case Discover(ip) => Register(l, ip)
    case Transfer(source, _, _, _) => Decide(Register(l, source), op)
  }

  function OutcomeOf(l: Ledger, op: Op): Outcome {
    match op
    case Discover(ip) => if Known(Register(l, ip), ip) then Registered else TableFull
    case Transfer(source, _, _, _) => Verdict(Register(l, source), op)
  }

  function RunFrom(l: Ledger, ops: seq<Op>): Ledger {
    if ops == [] then l else Apply(RunFrom(l, ops[..|ops| - 1]), ops[|ops| - 1])
  }

  function Run(ops: seq<Op>): Ledger {
    RunFrom(EMPTY, ops)
  }

  lemma RunSnoc(l: Ledger, ops: seq<Op>, op: Op)
    ensures RunFrom(l, ops + [op]) == Apply(RunFrom(l, ops), op)
  {
    assert (ops + [op])[..|ops|] == ops;
  }

  lemma {:induction false} RunConcat(l: Ledger, a: seq<Op>, b: seq<Op>)
    ensures RunFrom(l, a + b) == RunFrom(RunFrom(l, a), b)
  {
    if b == [] {
      assert a + b == a;
    } else {
      var b' := b[..|b| - 1];
      assert a + b == (a + b') + [b[|b| - 1]];
      RunSnoc(l, a + b', b[|b| - 1]);
      RunConcat(l, a, b');
    }
  }

  // ---------------------------------------------------------------------------------------------
  // Ledger invariant
  // ---------------------------------------------------------------------------------------------

  function Sum(cs: seq<Client>): nat {
    if cs == [] then 0 else cs[0].balance + Sum(cs[1..])
  }

  predicate DistinctIps(cs: seq<Client>) {
    forall i, j | 0 <= i < j < |cs| :: cs[i].ip != cs[j].ip
  }

  predicate Valid(l: Ledger) {
    && DistinctIps(l.clients)
    && |l.clients| <= MAX_CLIENTS
    && Sum(l.clients) == l.totalBalance
    && l.totalBalance == INITIAL_BALANCE * |l.clients|
  }

  lemma {:induction false} SumUpdate(cs: seq<Client>, i: nat, c: Client)
    requires i < |cs|
    ensures Sum(cs[i := c]) == Sum(cs) - cs[i].balance + c.balance
  {
    if i == 0 {
      assert cs[0 := c][1..] == cs[1..];
    } else {
      assert cs[i := c][1..] == cs[1..][i - 1 := c];
      SumUpdate(cs[1..], i - 1, c);
    }
  }

  lemma {:induction false} SumAppend(cs: seq<Client>, c: Client)
    ensures Sum(cs + [c]) == Sum(cs) + c.balance
  {
    if cs != [] {
      assert (cs + [c])[1..] == cs[1..] + [c];
      SumAppend(cs[1..], c);
    }
  }

  /** Two different slots never hold more than the whole table. */
  lemma SumCoversTwo(cs: seq<Client>, i: nat, j: nat)
    requires i < |cs| && j < |cs|
    ensures cs[i].balance + (if i == j then 0 else cs[j].balance) <= Sum(cs)
  {
    SumUpdate(cs, i, cs[i].(balance := 0));
    if i != j {
      var cs' := cs[i := cs[i].(balance := 0)];
      SumUpdate(cs', j, cs'[j].(balance := 0));
    }
  }

  lemma FindUnique(cs: seq<Client>, i: nat)
    requires DistinctIps(cs) && i < |cs|
    ensures Find(cs, cs[i].ip) == i
  {
  }

  lemma BalanceBound(l: Ledger, i: nat)
    requires Valid(l) && i < |l.clients|
    ensures l.clients[i].balance <= INITIAL_BALANCE * |l.clients| <= INITIAL_BALANCE * MAX_CLIENTS
  {
    SumCoversTwo(l.clients, i, i);
  }

  lemma RegisterKeepsValid(l: Ledger, ip: uint32)
    requires Valid(l)
    ensures Valid(Register(l, ip))
    ensures !Known(l, ip) && |l.clients| < MAX_CLIENTS ==> Known(Register(l, ip), ip)
  {
    SumAppend(l.clients, Client(ip, 0, INITIAL_BALANCE));
    if !Known(l, ip) && |l.clients| < MAX_CLIENTS {
      FindUnique(Register(l, ip).clients, |l.clients|);
    }
  }

  /** On a valid ledger neither machine operation of a commit wraps, for any pair of slots. */
  lemma NoWrap(r: Ledger, op: Op)
    requires Valid(r) && op.Transfer? && Verdict(r, op).Committed?
    ensures var s, d := Find(r.clients, op.source), Find(r.clients, op.dest);
            var debited := Debit(r.clients, s, op.value);
            && debited[s].balance == r.clients[s].balance - op.value
            && Credit(debited, d, op.value)[d].balance == debited[d].balance + op.value
            && Sum(Credit(debited, d, op.value)) == Sum(r.clients)
  {
    var s, d := Find(r.clients, op.source), Find(r.clients, op.dest);
    SumCoversTwo(r.clients, s, d);
    SumUpdate(r.clients, s, r.clients[s].(balance := r.clients[s].balance - op.value));
    var debited := Debit(r.clients, s, op.value);
    SumUpdate(debited, d, debited[d].(balance := debited[d].balance + op.value));
  }

  predicate ExtendsIps(cs: seq<Client>, cs': seq<Client>) {
    |cs| <= |cs'| && forall i | 0 <= i < |cs| :: cs'[i].ip == cs[i].ip
  }

  /** cs' is cs after op has moved its value: what every slot holds, also when both ends coincide. */
  predicate SlotsMoved(cs: seq<Client>, cs': seq<Client>, op: Op)
    requires op.Transfer?
  {
    var s, d := Find(cs, op.source), Find(cs, op.dest);
    && |cs'| == |cs|
    && forall i | 0 <= i < |cs| ::
         && cs'[i].ip == cs[i].ip
         && cs'[i].lastReq == (if i == s then op.seqn else cs[i].lastReq)
         && cs'[i].balance == cs[i].balance - (if i == s then op.value else 0) + (if i == d then op.value else 0)
  }

  lemma CommitMovesSlots(r: Ledger, op: Op)
    requires Valid(r) && op.Transfer? && Verdict(r, op).Committed?
    ensures SlotsMoved(r.clients, Commit(r, op).clients, op)
  {
    NoWrap(r, op);
  }

  lemma CommitKeepsValid(r: Ledger, op: Op)
    requires Valid(r) && op.Transfer? && Verdict(r, op).Committed?
    ensures Valid(Commit(r, op)) && ExtendsIps(r.clients, Commit(r, op).clients)
  {
    NoWrap(r, op);
    var s, d := Find(r.clients, op.source), Find(r.clients, op.dest);
    var moved := Credit(Debit(r.clients, s, op.value), d, op.value);
    SumUpdate(moved, s, moved[s].(lastReq := op.seqn));
  }

  lemma TouchKeepsValid(r: Ledger, s: nat, seqn: uint32)
    requires Valid(r) && s < |r.clients|
    ensures Valid(r.(clients := Mark(r.clients, s, seqn))) && ExtendsIps(r.clients, Mark(r.clients, s, seqn))
  {
    SumUpdate(r.clients, s, r.clients[s].(lastReq := seqn));
  }

  lemma StepKeepsValid(l: Ledger, op: Op)
    requires Valid(l)
    ensures Valid(Apply(l, op)) && ExtendsIps(l.clients, Apply(l, op).clients)
  {
    var ip := if op.Discover? then op.ip else op.source;
    RegisterKeepsValid(l, ip);
    if op.Transfer? {
      var r := Register(l, ip);
      match Verdict(r, op) {
        case Touched => TouchKeepsValid(r, Find(r.clients, ip), op.seqn);
        case Committed => CommitKeepsValid(r, op);
        case _ =>
      }
    }
  }

  /** Conservation over whole runs: money is only created by registering a client. */
  lemma {:induction false} RunIsValid(ops: seq<Op>)
    ensures Valid(Run(ops))
  {
    if ops != [] {
      RunIsValid(ops[..|ops| - 1]);
      StepKeepsValid(Run(ops[..|ops| - 1]), ops[|ops| - 1]);
    }
  }
}
