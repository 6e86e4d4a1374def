/**
 A bank without slots, searches or machine arithmetic. The ledger refines it, and its accounts are
 explained by the flows of a history.
 */
module Banks {
  import opened Machine
  import opened Ledgers

  datatype Account = Account(balance: int, lastReq: uint32)

  datatype Bank = Bank(accounts: map<uint32, Account>, commits: nat, moved: nat)

  const NEW_BANK: Bank := Bank(map[], 0, 0)

  function Open(b: Bank, ip: uint32): Bank {
    if ip in b.accounts || |b.accounts| >= MAX_CLIENTS then b
    else b.(accounts := b.accounts[ip := Account(INITIAL_BALANCE, 0)])
  }

  /** Moving value from source to dest, symmetric in the two: a self-transfer is neutral. */
  function Moved(accounts: map<uint32, Account>, op: Op): map<uint32, Account>
    requires op.Transfer?
  {
    map ip | ip in accounts ::
      Account(accounts[ip].balance
                - (if ip == op.source then op.value else 0)
                + (if ip == op.dest then op.value else 0),
              if ip == op.source then op.seqn else accounts[ip].lastReq)
  }

  function BankVerdict(b: Bank, op: Op): Outcome
    requires op.Transfer?
  {
    if op.source !in b.accounts then TableFull
    else if op.seqn <= b.accounts[op.source].lastReq then Duplicate
    else if op.dest !in b.accounts then UnknownDest
    else if op.value == 0 then Touched
    else if b.accounts[op.source].balance < op.value then Insufficient
    else Committed
  }

  function BankDecide(b: Bank, op: Op): Bank
    requires op.Transfer?
  {
    match BankVerdict(b, op)
    case Touched => b.(accounts := Moved(b.accounts, op))
    case Committed => Bank(Moved(b.accounts, op), b.commits + 1, b.moved + op.value)
    case _ => b
  }

  function BankStep(b: Bank, op: Op): Bank {
    match op
    case Discover(ip) => Open(b, ip)
    case Transfer(source, _, _, _) => BankDecide(Open(b, source), op)
  }

  function BankRun(ops: seq<Op>): Bank {
    if ops == [] then NEW_BANK else BankStep(BankRun(ops[..|ops| - 1]), ops[|ops| - 1])
  }

  // ---------------------------------------------------------------------------------------------
  // The ledger refines the bank
  // ---------------------------------------------------------------------------------------------

  ghost predicate SameClients(cs: seq<Client>, accounts: map<uint32, Account>) {
    && |accounts| == |cs|
    && (forall i | 0 <= i < |cs| :: cs[i].ip in accounts && accounts[cs[i].ip] == Account(cs[i].balance, cs[i].lastReq))
    && (forall ip | ip in accounts :: Find(cs, ip) < |cs|)
  }

  /** What an int shows after counting up to n: two's complement of the low 32 bits. */
  function AsInt32(n: int): int32
    requires -0x8000_0000 <= n
    decreases n
  {
    if n < 0x8000_0000 then n else AsInt32(n - TWO_32)
  }

  /** Adding to the shown value shows the sum. */
  lemma {:induction false} CountRefines(count: int, more: uint32)
    requires -0x8000_0000 <= count
    ensures AddInt32(AsInt32(count), more) == AsInt32(count + more)
    decreases count
  {
    if count >= 0x8000_0000 {
      CountRefines(count - TWO_32, more);
    }
  }

  ghost predicate Refines(l: Ledger, b: Bank) {
    && SameClients(l.clients, b.accounts)
    && l.numTransactions == AsInt32(b.commits)
    && l.totalTransferred == AsInt32(b.moved)
  }

  lemma KnownRefines(cs: seq<Client>, accounts: map<uint32, Account>, ip: uint32)
    requires SameClients(cs, accounts)
    ensures Find(cs, ip) < |cs| <==> ip in accounts
  {
    assert Find(cs, ip) < |cs| ==> cs[Find(cs, ip)].ip == ip;
  }

  lemma FindAppended(cs: seq<Client>, c: Client, x: uint32)
    requires x == c.ip || Find(cs, x) < |cs|
    ensures Find(cs + [c], x) < |cs| + 1
  {
    assert (cs + [c])[if x == c.ip then |cs| else Find(cs, x)].ip == x;
  }

  lemma AppendRefines(cs: seq<Client>, accounts: map<uint32, Account>, c: Client)
    requires SameClients(cs, accounts) && c.ip !in accounts
    ensures SameClients(cs + [c], accounts[c.ip := Account(c.balance, c.lastReq)])
  {
    var cs', accounts' := cs + [c], accounts[c.ip := Account(c.balance, c.lastReq)];
    assert |accounts'| == |cs'| by {
      assert accounts'.Keys == accounts.Keys + {c.ip};
    }
    forall i | 0 <= i < |cs'|
      ensures cs'[i].ip in accounts' && accounts'[cs'[i].ip] == Account(cs'[i].balance, cs'[i].lastReq)
    {
      assert i < |cs| ==> cs'[i] == cs[i];
    }
    forall x | x in accounts' ensures Find(cs', x) < |cs'| {
      FindAppended(cs, c, x);
    }
  }

  lemma RegisterRefines(l: Ledger, b: Bank, ip: uint32)
    requires Refines(l, b)
    ensures Refines(Register(l, ip), Open(b, ip))
  {
    KnownRefines(l.clients, b.accounts, ip);
    if !Known(l, ip) && |l.clients| < MAX_CLIENTS {
      AppendRefines(l.clients, b.accounts, Client(ip, 0, INITIAL_BALANCE));
    }
  }

  /** The three in-place writes of a commit, or the single one of a zero-value request. */
  lemma MoveRefines(cs: seq<Client>, cs': seq<Client>, accounts: map<uint32, Account>, op: Op)
    requires DistinctIps(cs) && SameClients(cs, accounts) && op.Transfer?
    requires op.source in accounts && op.dest in accounts && SlotsMoved(cs, cs', op)
    ensures SameClients(cs', Moved(accounts, op))
  {
    var s, d := Find(cs, op.source), Find(cs, op.dest);
    assert Moved(accounts, op).Keys == accounts.Keys;
    forall i | 0 <= i < |cs|
      ensures cs'[i].ip in Moved(accounts, op)
      ensures Moved(accounts, op)[cs'[i].ip] == Account(cs'[i].balance, cs'[i].lastReq)
    {
      FindUnique(cs, i);
      assert i == s <==> cs[i].ip == op.source;
      assert i == d <==> cs[i].ip == op.dest;
    }
    forall ip | ip in accounts ensures Find(cs', ip) < |cs'| {
      assert cs'[Find(cs, ip)].ip == ip;
    }
  }

  /** Both sides agree on the verdict once the source is registered. */
  lemma VerdictRefines(r: Ledger, b: Bank, op: Op)
    requires Refines(r, b) && op.Transfer?
    ensures Verdict(r, op) == BankVerdict(b, op)
  {
    KnownRefines(r.clients, b.accounts, op.source);
    KnownRefines(r.clients, b.accounts, op.dest);
    var s := Find(r.clients, op.source);
    assert s < |r.clients| ==> r.clients[s].ip == op.source;
  }

  lemma TouchRefines(r: Ledger, b: Bank, op: Op)
    requires Valid(r) && Refines(r, b) && op.Transfer? && Verdict(r, op).Touched?
    ensures Refines(r.(clients := Mark(r.clients, Find(r.clients, op.source), op.seqn)),
                    b.(accounts := Moved(b.accounts, op)))
  {
    VerdictRefines(r, b, op);
    MoveRefines(r.clients, Mark(r.clients, Find(r.clients, op.source), op.seqn), b.accounts, op);
  }

  lemma CommitRefines(r: Ledger, b: Bank, op: Op)
    requires Valid(r) && Refines(r, b) && op.Transfer? && Verdict(r, op).Committed?
    ensures SameClients(Commit(r, op).clients, Moved(b.accounts, op))
  {
    VerdictRefines(r, b, op);
    CommitMovesSlots(r, op);
    MoveRefines(r.clients, Commit(r, op).clients, b.accounts, op);
  }

  lemma CommitCounts(r: Ledger, b: Bank, op: Op)
    requires Refines(r, b) && op.Transfer? && Verdict(r, op).Committed?
    ensures Commit(r, op).numTransactions == AsInt32(b.commits + 1)
    ensures Commit(r, op).totalTransferred == AsInt32(b.moved + op.value)
  {
    CountRefines(b.commits, 1);
    CountRefines(b.moved, op.value);
  }

  lemma CommittedRefines(l': Ledger, b: Bank, op: Op)
    requires op.Transfer? && SameClients(l'.clients, Moved(b.accounts, op))
    requires l'.numTransactions == AsInt32(b.commits + 1) && l'.totalTransferred == AsInt32(b.moved + op.value)
    requires BankVerdict(b, op).Committed?
    ensures Refines(l', BankDecide(b, op))
  {
  }

  /** One transfer of the table, with its search and wrapping arithmetic, is one of the bank. */
  lemma TransferRefines(r: Ledger, b: Bank, op: Op)
    requires Valid(r) && Refines(r, b) && op.Transfer?
    ensures Refines(Decide(r, op), BankDecide(b, op))
  {
    VerdictRefines(r, b, op);
    if Verdict(r, op).Touched? {
      TouchRefines(r, b, op);
    } else if Verdict(r, op).Committed? {
      CommitRefines(r, b, op);
      CommitCounts(r, b, op);
      CommittedRefines(Commit(r, op), b, op);
    }
  }

  lemma StepRefines(l: Ledger, b: Bank, op: Op)
    requires Valid(l) && Refines(l, b)
    ensures Refines(Apply(l, op), BankStep(b, op))
    ensures op.Transfer? ==> OutcomeOf(l, op) == BankVerdict(Open(b, op.source), op)
  {
    var ip := if op.Discover? then op.ip else op.source;
    RegisterRefines(l, b, ip);
    RegisterKeepsValid(l, ip);
    if op.Transfer? {
      TransferRefines(Register(l, ip), Open(b, ip), op);
      VerdictRefines(Register(l, ip), Open(b, ip), op);
    }
  }

  lemma {:induction false} RunRefines(ops: seq<Op>)
    ensures Refines(Run(ops), BankRun(ops))
  {
    if ops != [] {
      var before := ops[..|ops| - 1];
      RunRefines(before);
      RunIsValid(before);
      StepRefines(Run(before), BankRun(before), ops[|ops| - 1]);
    }
  }

  // ---------------------------------------------------------------------------------------------
  // Balances and counters explained by the history
  // ---------------------------------------------------------------------------------------------

  /** The committed transfers of a history, in order. */
  function Journal(ops: seq<Op>): (j: seq<Op>)
    ensures forall i | 0 <= i < |j| :: j[i].Transfer?
  {
    if ops == [] then []
    else
      var before, op := ops[..|ops| - 1], ops[|ops| - 1];
      Journal(before) + (if OutcomeOf(Run(before), op).Committed? then [op] else [])
  }

  function Into(ip: uint32): Op -> bool {
    (op: Op) => op.Transfer? && op.dest == ip
  }

  function OutOf(ip: uint32): Op -> bool {
    (op: Op) => op.Transfer? && op.source == ip
  }

  const ANY: Op -> bool := (op: Op) => true

  /** Sum of the values in a journal that pass a filter. */
  function Flow(journal: seq<Op>, counts: Op -> bool): nat {
    if journal == [] then 0
    else
      var op := journal[|journal| - 1];
      Flow(journal[..|journal| - 1], counts) + (if op.Transfer? && counts(op) then op.value else 0)
  }

  lemma FlowSnoc(journal: seq<Op>, op: Op, counts: Op -> bool)
    ensures Flow(journal + [op], counts) == Flow(journal, counts) + (if op.Transfer? && counts(op) then op.value else 0)
  {
    assert (journal + [op])[..|journal|] == journal;
  }

  function BalanceIn(b: Bank, ip: uint32): int {
    if ip in b.accounts then b.accounts[ip].balance else INITIAL_BALANCE
  }

  /** The bank holds what the journal says; an account nobody opened yet counts its opening balance. */
  ghost predicate Explains(journal: seq<Op>, b: Bank, ip: uint32) {
    && BalanceIn(b, ip) == INITIAL_BALANCE + Flow(journal, Into(ip)) - Flow(journal, OutOf(ip))
    && b.commits == |journal|
    && b.moved == Flow(journal, ANY)
  }

  predicate BankCommits(b: Bank, op: Op) {
    op.Transfer? && BankVerdict(Open(b, op.source), op).Committed?
  }

  lemma BankStepFlow(b: Bank, op: Op, ip: uint32)
    ensures BalanceIn(BankStep(b, op), ip) == BalanceIn(b, ip)
              + (if BankCommits(b, op) && op.dest == ip then op.value else 0)
              - (if BankCommits(b, op) && op.source == ip then op.value else 0)
  {
  }

  lemma BankStepExplained(journal: seq<Op>, b: Bank, op: Op, ip: uint32)
    requires Explains(journal, b, ip)
    ensures Explains(journal + (if BankCommits(b, op) then [op] else []), BankStep(b, op), ip)
  {
    BankStepFlow(b, op, ip);
    if BankCommits(b, op) {
      FlowSnoc(journal, op, Into(ip));
      FlowSnoc(journal, op, OutOf(ip));
      FlowSnoc(journal, op, ANY);
    } else {
      assert journal + [] == journal;
    }
  }

  lemma {:induction false} BankExplained(ops: seq<Op>, ip: uint32)
    ensures Explains(Journal(ops), BankRun(ops), ip)
  {
    if ops != [] {
      var before, op := ops[..|ops| - 1], ops[|ops| - 1];
      BankExplained(before, ip);
      RunRefines(before);
      RunIsValid(before);
      StepRefines(Run(before), BankRun(before), op);
      BankStepExplained(Journal(before), BankRun(before), op, ip);
    }
  }

  /** Every balance is 100 plus what came in minus what went out; the totals count the commits. */
  lemma LedgerExplained(ops: seq<Op>, i: nat)
    requires i < |Run(ops).clients|
    ensures var c := Run(ops).clients[i];
            c.balance == INITIAL_BALANCE + Flow(Journal(ops), Into(c.ip)) - Flow(Journal(ops), OutOf(c.ip))
  {
    RunRefines(ops);
    BankExplained(ops, Run(ops).clients[i].ip);
  }

  lemma CommittedValue(l: Ledger, op: Op)
    requires Valid(l) && OutcomeOf(l, op).Committed?
    ensures 0 < op.value <= INITIAL_BALANCE * MAX_CLIENTS
  {
    RegisterKeepsValid(l, op.source);
    var r := Register(l, op.source);
    BalanceBound(r, Find(r.clients, op.source));
  }

  lemma {:induction false} JournalValues(ops: seq<Op>)
    ensures forall i | 0 <= i < |Journal(ops)| :: 0 < Journal(ops)[i].value <= INITIAL_BALANCE * MAX_CLIENTS
  {
    if ops != [] {
      var before, op := ops[..|ops| - 1], ops[|ops| - 1];
      JournalValues(before);
      RunIsValid(before);
      if OutcomeOf(Run(before), op).Committed? {
        CommittedValue(Run(before), op);
      }
    }
  }

  lemma {:induction false} FlowBounds(journal: seq<Op>, full: nat)
    requires forall i | 0 <= i < |journal| :: journal[i].Transfer? && 0 < journal[i].value <= full
    ensures |journal| <= Flow(journal, ANY) <= |journal| * full
  {
    if journal != [] {
      FlowBounds(journal[..|journal| - 1], full);
      assert |journal| * full == (|journal| - 1) * full + full;
    }
  }

  /**
   The signed counters show the number of commits and their sum modulo 2^32, and exactly as long as
   that many full-table transfers stay below 2^31.
   */
  lemma CountersExplained(ops: seq<Op>, full: nat)
    requires full == INITIAL_BALANCE * MAX_CLIENTS
    ensures Run(ops).numTransactions == AsInt32(|Journal(ops)|)
    ensures Run(ops).totalTransferred == AsInt32(Flow(Journal(ops), ANY))
    ensures |Journal(ops)| <= Flow(Journal(ops), ANY) <= |Journal(ops)| * full
    ensures |Journal(ops)| * full < 0x8000_0000 ==>
              Run(ops).numTransactions == |Journal(ops)| && Run(ops).totalTransferred == Flow(Journal(ops), ANY)
  {
    RunRefines(ops);
    BankExplained(ops, 0);
    JournalValues(ops);
    FlowBounds(Journal(ops), full);
  }

  lemma TenClients()
    requires MAX_CLIENTS == 10
    ensures INITIAL_BALANCE * MAX_CLIENTS == 1000
  {
  }

  /** With the ten-client table of the program: no overflow in the first 2,147,483 transfers. */
  lemma TenClientsExact(ops: seq<Op>)
    requires MAX_CLIENTS == 10 && |Journal(ops)| <= 2_147_483
    ensures Run(ops).totalTransferred == Flow(Journal(ops), ANY)
  {
    TenClients();
    CountersExplained(ops, 1000);
  }
}
