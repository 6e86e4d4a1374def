/** The client table updated in place, as the server's globals are. */
module ClientTables {
  import opened Machine
  import opened Ledgers
  import opened History
  import opened Options

  datatype Ack = Ack(seqn: uint32, newBalance: uint32)

  /** A REP_UPDATE body: the counters and every slot of the table, live or not. */
  datatype Message = Message(numClients: nat, numTransactions: int32, totalTransferred: int32, totalBalance: int32,
                             table: seq<Client>)
  {
    predicate WellFormed() {
      |table| == MAX_CLIENTS && numClients <= MAX_CLIENTS
    }

    function View(): Ledger
      requires WellFormed()
    {
      Ledger(table[..numClients], numTransactions, totalTransferred, totalBalance)
    }
  }

  class ClientTable {
    const slots: array<Client>
    var numClients: nat
    var numTransactions: int32
    var totalTransferred: int32
    var totalBalance: int32

    ghost predicate Valid()
      reads this
    {
      slots.Length == MAX_CLIENTS && numClients <= slots.Length
    }

    ghost function View(): Ledger
      reads this, slots
      requires Valid()
    {
      Ledger(slots[..numClients], numTransactions, totalTransferred, totalBalance)
    }

    constructor ()
      ensures Valid() && fresh(slots) && View() == EMPTY
    {
      slots := new Client[MAX_CLIENTS](_ => Client(0, 0, 0));
      numClients, numTransactions, totalTransferred, totalBalance := 0, 0, 0, 0;
    }

    method FindClientByIp(ip: uint32) returns (slot: Option<nat>)
      requires Valid()
      ensures slot == if Known(View(), ip) then Some(Find(View().clients, ip)) else None
    {
      for i := 0 to numClients
        invariant forall j | 0 <= j < i :: slots[j].ip != ip
      {
        if slots[i].ip == ip {
          return Some(i);
        }
      }
      return None;
    }

    method FindOrAddClient(ip: uint32) returns (slot: Option<nat>)
      requires Valid()
      modifies this, slots
      ensures Valid() && View() == Register(old(View()), ip)
      ensures slot == if Known(View(), ip) then Some(Find(View().clients, ip)) else None
    {
      slot := FindClientByIp(ip);
      if slot.None? && numClients < slots.Length {
        slots[numClients] := Client(ip, 0, INITIAL_BALANCE);
        totalBalance := AddInt32(totalBalance, INITIAL_BALANCE);
        slot := Some(numClients);
        numClients := numClients + 1;
        assert View().clients == old(View()).clients + [Client(ip, 0, INITIAL_BALANCE)];
      }
    }

    /** The in-place writes of an accepted transfer; s and d may be the same slot. */
    method CommitTransfer(op: Op, s: nat, d: nat)
      requires Valid() && op.Transfer? && s < numClients && d < numClients
      requires Find(View().clients, op.source) == s && Find(View().clients, op.dest) == d
      modifies this, slots
      ensures Valid() && View() == Commit(old(View()), op)
    {
      ghost var cs := View().clients;
      slots[s] := slots[s].(balance := SubU32(slots[s].balance, op.value));
      assert View().clients == Debit(cs, s, op.value);
      slots[d] := slots[d].(balance := AddU32(slots[d].balance, op.value));
      numTransactions := AddInt32(numTransactions, 1);
      totalTransferred := AddInt32(totalTransferred, op.value);
      slots[s] := slots[s].(lastReq := op.seqn);
      assert View().clients == Mark(Credit(Debit(cs, s, op.value), d, op.value), s, op.seqn);
    }

    /**
     One request under the mutex. A full table is the only case without an ack; every other request
     is acknowledged with the number and balance its source ends up with.
     */
    method HandleRequest(op: Op) returns (outcome: Outcome, ack: Option<Ack>)
      requires Valid() && op.Transfer?
      modifies this, slots
      ensures Valid() && View() == Apply(old(View()), op) && outcome == OutcomeOf(old(View()), op)
      ensures outcome.TableFull? ==> ack == None
      ensures !outcome.TableFull? ==> Known(View(), op.source)
      ensures !outcome.TableFull? ==> ack == Some(Ack(LastReq(View(), op.source), Balance(View(), op.source)))
    {
      var source := FindOrAddClient(op.source);
      var dest := FindClientByIp(op.dest);
      ghost var r := View();
      if source.None? {
        return TableFull, None;
      }
      var s := source.value;
      if op.seqn <= slots[s].lastReq {
        outcome := Duplicate;
      } else if dest.None? {
        outcome := UnknownDest;
      } else if op.value == 0 {
        slots[s] := slots[s].(lastReq := op.seqn);
        outcome := Touched;
        assert View() == r.(clients := Mark(r.clients, s, op.seqn));
      } else if slots[s].balance < op.value {
        outcome := Insufficient;
      } else {
        CommitTransfer(op, s, dest.value);
        outcome := Committed;
      }
      ack := Some(Ack(slots[s].lastReq, slots[s].balance));
      FindStable(r.clients, View().clients, op.source);
    }

    method Snapshot() returns (m: Message)
      requires Valid()
      ensures m.WellFormed() && m.View() == View()
    {
      var copied: seq<Client> := [];
      for i := 0 to slots.Length
        invariant copied == slots[..i]
      {
        copied := copied + [slots[i]];
      }
      m := Message(numClients, numTransactions, totalTransferred, totalBalance, copied);
    }

    /** Applying a snapshot leaves exactly the ledger it was taken from. */
    method ApplyStateUpdate(m: Message)
      requires Valid() && m.WellFormed()
      modifies this, slots
      ensures Valid() && View() == m.View()
    {
      numClients := m.numClients;
      numTransactions := m.numTransactions;
      totalTransferred := m.totalTransferred;
      totalBalance := m.totalBalance;
      for i := 0 to slots.Length
        invariant Valid() && slots[..i] == m.table[..i]
        invariant numClients == m.numClients && numTransactions == m.numTransactions
        invariant totalTransferred == m.totalTransferred && totalBalance == m.totalBalance
      {
        slots[i] := m.table[i];
      }
      assert slots[..] == m.table;
    }
  }
}
