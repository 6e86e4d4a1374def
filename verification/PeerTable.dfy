/** server_list and server_health: two parallel buffers with one live count, edited in place. */
module PeerTables {
  import opened Machine
  import opened Peers

  class PeerTable {
    const ids: array<int>
    const health: array<Health>
    var count: nat

    ghost predicate Valid()
      reads this
    {
      ids.Length == health.Length == MAX_SERVERS && count <= MAX_SERVERS && ids as object != health
    }

    ghost function View(): (ps: seq<Peer>)
      reads this, ids, health
      requires Valid()
      ensures |ps| == count && Ids(ps) == ids[..count]
    {
      Paired(ids[..count], health[..count])
    }

    /** Every slot, live or not, reads alive at this time. */
    ghost predicate AllAlive(now: int)
      reads health
    {
      forall i | 0 <= i < health.Length :: health[i] == Health(now, true)
    }

    constructor ()
      ensures Valid() && fresh(ids) && fresh(health) && View() == []
    {
      ids := new int[MAX_SERVERS];
      health := new Health[MAX_SERVERS](_ => Health(0, false));
      count := 0;
    }

    /** The health slot the next peer will get; nothing is left to get when the table is full. */
    ghost function NextSlot(): Health
      reads this, health
      requires Valid()
    {
      if count < health.Length then health[count] else Health(0, false)
    }

    method AddPeer(me: int, id: int)
      requires Valid()
      modifies this, ids
      ensures Valid() && ids[..count] == Peers.AddPeer(old(ids[..count]), me, id)
      ensures View() == Joined(old(View()), me, id, old(NextSlot()))
    {
      if id == me {
        return;
      }
      for i := 0 to count
        invariant Valid() && count == old(count) && ids[..] == old(ids[..])
        invariant id !in ids[..i]
      {
        if ids[i] == id {
          return;
        }
      }
      if count < ids.Length {
        ids[count] := id;
        count := count + 1;
        assert ids[..count] == old(ids[..count]) + [id];
        assert View() == old(View()) + [Peer(id, old(NextSlot()))];
      }
    }

    /** Startup takeover: the list becomes the server itself plus everyone it is told about. */
    method TakeOver(me: int, told: seq<int>)
      requires Valid()
      modifies this, ids
      ensures Valid() && ids[..count] == AddAll([me], me, told)
    {
      ids[0] := me;
      count := 1;
      for i := 0 to |told|
        invariant Valid() && ids[..count] == AddAll([me], me, told[..i])
      {
        if told[i] != me {
          AddPeer(me, told[i]);
        }
        assert told[..i + 1][..i] == told[..i];
      }
      assert told[..|told|] == told;
    }

    /** Replacing the list by the one a COORDINATOR carries; the health slots stay where they are. */
    method Adopt(list: seq<int>)
      requires Valid() && |list| <= MAX_SERVERS
      modifies this, ids
      ensures Valid() && ids[..count] == if list == [] then old(ids[..count]) else list
    {
      if |list| > 0 {
        count := |list|;
        for i := 0 to |list|
          invariant Valid() && count == |list| && ids[..i] == list[..i]
        {
          ids[i] := list[i];
        }
      }
    }

    method HandlePing(sender: int, at: int)
      requires Valid()
      modifies health
      ensures Valid() && View() == Pinged(old(View()), sender, at)
    {
      for i := 0 to count
        invariant health[..] == old(health[..])
        invariant forall j | 0 <= j < i :: ids[j] != sender
      {
        if ids[i] == sender {
          health[i] := Health(at, true);
          assert Position(Ids(old(View())), sender) == i;
          return;
        }
      }
    }

    method ResetHealth(now: int)
      requires Valid()
      modifies health
      ensures ids[..count] == old(ids[..count])
      ensures AllAlive(now)
    {
      for i := 0 to health.Length
        invariant forall j | 0 <= j < i :: health[j] == Health(now, true)
      {
        health[i] := Health(now, true);
      }
    }

    /** The inner loop of the sweep, buffer by buffer: everything behind position i moves down one slot. */
    static method ShiftDown<T>(a: array<T>, i: nat, n: nat)
      requires i < n <= a.Length
      modifies a
      ensures a[..n - 1] == old(a[..i]) + old(a[i + 1..n])
    {
      ghost var before := a[..];
      for j := i to n - 1
        invariant a[..j] == before[..i] + before[i + 1..j + 1]
        invariant a[j..] == before[j..]
      {
        assert a[j + 1] == before[j + 1];
        a[j] := a[j + 1];
      }
    }

    method RemoveAt(i: nat)
      requires Valid() && i < count
      modifies this, ids, health
      ensures Valid() && View() == old(View())[..i] + old(View())[i + 1..]
    {
      PairedRemove(ids[..count], health[..count], i);
      ghost var listed, paired := ids[..count], health[..count];
      ShiftDown(ids, i, count);
      ShiftDown(health, i, count);
      count := count - 1;
      assert ids[..count] == listed[..i] + listed[i + 1..];
      assert health[..count] == paired[..i] + paired[i + 1..];
    }

    method SetHealth(i: nat, h: Health)
      requires Valid() && i < count
      modifies health
      ensures View() == old(View())[i := old(View())[i].(health := h)]
    {
      health[i] := h;
    }

    /** One round of the sweep: the entry at position i is kept, refreshed or deleted. */
    method Examine(i: nat, me: int, now: int) returns (deleted: bool)
      requires Valid() && i < count
      modifies this, ids, health
      ensures Valid() && deleted == Expired(old(View())[i], me, now)
      ensures View() ==
              old(View())[..i] + (if deleted then [] else [Refreshed(old(View())[i], me, now)]) + old(View())[i + 1..]
    {
      assert View()[i] == Peer(ids[i], health[i]);
      var elapsed := now - health[i].last;
      deleted := false;
      if ids[i] == me {
      } else if health[i].last == 0 {
        SetHealth(i, Health(now, true));
      } else if elapsed > PING_TIMEOUT && health[i].alive {
        SetHealth(i, health[i].(alive := false));
        RemoveAt(i);
        deleted := true;
      } else if elapsed <= PING_TIMEOUT && !health[i].alive {
        SetHealth(i, health[i].(alive := true));
      }
    }

    /** One turn of the sweep's loop, after k of the original entries. */
    method SweepTurn(i: nat, me: int, now: int, leader: int, lost: bool, ghost before: seq<Peer>, ghost k: nat)
      returns (deleted: bool, nowLost: bool)
      requires Valid() && i < count
      requires MidSweep(before, k, View(), i, me, now) && (lost <==> LeaderLost(before[..k], me, now, leader))
      modifies this, ids, health
      ensures Valid() && count == if deleted then old(count) - 1 else old(count)
      ensures MidSweep(before, k + 1, View(), if deleted then i else i + 1, me, now)
      ensures nowLost <==> LeaderLost(before[..k + 1], me, now, leader)
    {
      ghost var view := View();
      var id := ids[i];
      deleted := Examine(i, me, now);
      SweepRound(before, k, view, View(), i, me, now, leader);
      nowLost := lost || (deleted && id == leader);
    }

    /** The loop of the sweep: it deletes while it walks, stepping back after each deletion. */
    method SweepLoop(me: int, now: int, leader: int, ghost before: seq<Peer>)
      returns (leaderFailed: bool, ghost rounds: nat)
      requires Valid() && MidSweep(before, 0, View(), 0, me, now) && !LeaderLost(before[..0], me, now, leader)
      modifies this, ids, health
      ensures Valid() && MidSweep(before, rounds, View(), count, me, now)
      ensures leaderFailed <==> LeaderLost(before[..rounds], me, now, leader)
    {
      leaderFailed, rounds := false, 0;
      var i := 0;
      while i < count
        invariant Valid() && 0 <= i <= count
        invariant MidSweep(before, rounds, View(), i, me, now)
        invariant leaderFailed <==> LeaderLost(before[..rounds], me, now, leader)
        decreases count - i
      {
        var deleted: bool;
        deleted, leaderFailed := SweepTurn(i, me, now, leader, leaderFailed, before, rounds);
        rounds := rounds + 1;
        if deleted {
          i := i - 1;
        }
        i := i + 1;
      }
    }

    /** The failure sweep makes one round for every original entry, in order, and leaves the survivors. */
    method SweepFailed(me: int, now: int, leader: int) returns (leaderFailed: bool, ghost rounds: nat)
      requires Valid()
      modifies this, ids, health
      ensures Valid() && View() == Survivors(old(View()), me, now)
      ensures leaderFailed <==> LeaderLost(old(View()), me, now, leader)
      ensures rounds == old(count)
    {
      ghost var before := View();
      SweepStarts(before, me, now, leader);
      leaderFailed, rounds := SweepLoop(me, now, leader, before);
      SweepDone(before, rounds, View(), count, me, now);
    }

    /**
     A server joins some time after the timers were reset at t0, by a startup or an election, and is not
     heard of before the next sweep: however lately it joined, it stays exactly when the reset is no older
     than the timeout.
     */
    method JoinAfterReset(me: int, id: int, t0: int, now: int, leader: int)
      requires Valid() && ListOk(ids[..count]) && count < MAX_SERVERS && id != me && id !in ids[..count]
      modifies this, ids, health
      ensures Valid() && (id in ids[..count] <==> t0 == 0 || now - t0 <= PING_TIMEOUT)
    {
      ResetHealth(t0);
      NewPeerInheritsSlot(View(), me, id, NextSlot(), now);
      AddPeer(me, id);
      var _, _ := SweepFailed(me, now, leader);
      assert ids[..count] == Ids(View());
    }
  }
}
