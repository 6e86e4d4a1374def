/** The client's bounded command queue: a circular buffer that refines a first-in first-out sequence. */
module CommandQueues {
  import opened Machine

  datatype Command = Command(dest: uint32, value: uint32)

  /** The buffer as a value: every slot, live or not, and the indices beside it. */
  datatype Ring = Ring(buf: seq<Command>, front: nat, rear: nat, count: nat, shutdown: bool)

  /** Indices are reduced modulo the size after an increment; no index ever reaches twice the size. */
  function Wrap(n: nat): (r: nat)
    requires n < 2 * QUEUE_SIZE
    ensures r == n % QUEUE_SIZE && r < QUEUE_SIZE
    ensures r == if n < QUEUE_SIZE then n else n - QUEUE_SIZE
  {
    WrapIsSubtraction(n);
    n % QUEUE_SIZE
  }

  lemma WrapIsSubtraction(n: nat)
    requires n < 2 * QUEUE_SIZE
    ensures n % QUEUE_SIZE == if n < QUEUE_SIZE then n else n - QUEUE_SIZE
  {
    assert n == (n / QUEUE_SIZE) * QUEUE_SIZE + n % QUEUE_SIZE;
    assert n / QUEUE_SIZE < 2;
  }

  ghost predicate RingOk(r: Ring) {
    && |r.buf| == QUEUE_SIZE && r.front < QUEUE_SIZE && r.count <= QUEUE_SIZE
    && r.rear == (r.front + r.count) % QUEUE_SIZE
  }

  /** The queued commands, oldest first. */
  function Contents(r: Ring): (cs: seq<Command>)
    requires |r.buf| == QUEUE_SIZE && r.front < QUEUE_SIZE && r.count <= QUEUE_SIZE
    ensures |cs| == r.count && forall i | 0 <= i < r.count :: cs[i] == r.buf[Wrap(r.front + i)]
  {
    seq(r.count, i requires 0 <= i < r.count && r.front < QUEUE_SIZE && |r.buf| == QUEUE_SIZE && r.count <= QUEUE_SIZE
                 => r.buf[Wrap(r.front + i)])
  }

  function Put(r: Ring, c: Command): Ring
    requires r.rear < |r.buf| == QUEUE_SIZE
  {
    r.(buf := r.buf[r.rear := c], rear := Wrap(r.rear + 1), count := r.count + 1)
  }

  function Take(r: Ring): (Ring, Command)
    requires r.front < |r.buf| == QUEUE_SIZE && r.count > 0
  {
    (r.(front := Wrap(r.front + 1), count := r.count - 1), r.buf[r.front])
  }

  lemma RearIsWrapped(r: Ring)
    requires RingOk(r)
    ensures r.rear == Wrap(r.front + r.count)
  {
  }

  /** Storing appends, also when the live stretch wraps around the end of the buffer. */
  lemma PutAppends(r: Ring, c: Command)
    requires RingOk(r) && r.count < QUEUE_SIZE
    ensures r.rear < QUEUE_SIZE && RingOk(Put(r, c)) && Contents(Put(r, c)) == Contents(r) + [c]
  {
    RearIsWrapped(r);
    var r' := Put(r, c);
    assert r'.rear == Wrap(r.front + r'.count);
  }

  /** Removing takes the oldest command and leaves the others in order. */
  lemma TakeRemoves(r: Ring)
    requires RingOk(r) && r.count > 0
    ensures RingOk(Take(r).0) && [Take(r).1] + Contents(Take(r).0) == Contents(r)
  {
    RearIsWrapped(r);
    var r' := Take(r).0;
    assert r'.rear == Wrap(r'.front + r'.count);
    forall i | 0 <= i < r'.count ensures Contents(r')[i] == Contents(r)[1 + i] {
      assert Wrap(r'.front + i) == Wrap(r.front + (1 + i));
    }
  }

  /** What one pass of queue_push or queue_pop through its critical section ends in. */
  datatype PushResult = Stored | MustWait | Refused
  datatype PopResult = Popped(command: Command) | MustSleep | Finished

  class CommandQueue {
    const commands: array<Command>
    var front: nat
    var rear: nat
    var count: nat
    var shutdown: bool

    ghost predicate Valid()
      reads this, commands
    {
      commands.Length == QUEUE_SIZE && RingOk(View())
    }

    ghost function View(): Ring
      reads this, commands
    {
      Ring(commands[..], front, rear, count, shutdown)
    }

    constructor ()
      ensures Valid() && fresh(commands) && Contents(View()) == [] && !shutdown
    {
      commands := new Command[QUEUE_SIZE](_ => Command(0, 0));
      front, rear, count, shutdown := 0, 0, 0, false;
      new;
      WrapIsSubtraction(0);
    }

    method Push(c: Command) returns (r: PushResult)
      requires Valid()
      modifies this, commands
      ensures Valid() && shutdown == old(shutdown)
      ensures r == if old(shutdown) then Refused else if old(count) == QUEUE_SIZE then MustWait else Stored
      ensures Contents(View()) == old(Contents(View())) + (if r.Stored? then [c] else [])
      ensures View() == if r.Stored? then Put(old(View()), c) else old(View())
    {
      if count >= QUEUE_SIZE && !shutdown {
        return MustWait;
      }
      if shutdown {
        return Refused;
      }
      PutAppends(View(), c);
      commands[rear] := c;
      rear := (rear + 1) % QUEUE_SIZE;
      count := count + 1;
      assert View() == Put(old(View()), c);
      return Stored;
    }

    method Pop() returns (r: PopResult)
      requires Valid()
      modifies this
      ensures Valid() && shutdown == old(shutdown)
      ensures r.MustSleep? <==> old(count) == 0 && !old(shutdown)
      ensures r.Finished? <==> old(count) == 0 && old(shutdown)
      ensures old(Contents(View())) == (if r.Popped? then [r.command] else []) + Contents(View())
      ensures View() == if r.Popped? then Take(old(View())).0 else old(View())
    {
      if count == 0 && !shutdown {
        return MustSleep;
      }
      if count == 0 && shutdown {
        return Finished;
      }
      TakeRemoves(View());
      var c := commands[front];
      front := (front + 1) % QUEUE_SIZE;
      count := count - 1;
      assert View() == Take(old(View())).0;
      return Popped(c);
    }

    method Shutdown()
      requires Valid()
      modifies `shutdown
      ensures Valid() && View() == old(View()).(shutdown := true) && Contents(View()) == old(Contents(View()))
    {
      shutdown := true;
    }
  }
}
