/**
 The client's reader and sender threads around the command queue: one mutex, two condition variables,
 wakeups that may also come without a signal, and a shutdown when the input ends. The parts of
 queue_push and queue_pop between taking the mutex and releasing it, or waiting, are single steps.
 */
module Pipeline {
  import opened Machine
  import opened CommandQueues

  datatype Reader =
    | Reading                      // outside the queue
    | Asleep(c: Command)           // in pthread_cond_wait on not_full
    | Awake(c: Command)            // woken, about to test the condition again
    | Closed                       // has raised shutdown and returned

  datatype Sender =
    | Sending                      // outside the queue
    | Resting                      // in pthread_cond_wait on not_empty
    | Roused                       // woken, about to test the condition again
    | Stopped                      // queue_pop returned false

  /** typed, dropped and popped are the commands parsed, refused by queue_push, and handed to the sender. */
  datatype State = State(ring: Ring, reader: Reader, sender: Sender,
                         typed: seq<Command>, dropped: seq<Command>, popped: seq<Command>)

  datatype Step =
    | Read(c: Command)             // the reader parses a command and enters queue_push
    | Retry                        // the woken reader tests its condition again
    | Eof                          // the reader's input ends
    | Pop                          // the sender enters queue_pop, or tests its condition again
    | WakeReader                   // wakeups without a signal
    | WakeSender

  ghost predicate Enabled(s: State, a: Step) {
    match a
    case Read(_) => s.reader.Reading?
    case Retry => s.reader.Awake?
    case Eof => s.reader.Reading?
    case Pop => s.sender.Sending? || s.sender.Roused?
    case WakeReader => s.reader.Asleep?
    case WakeSender => s.sender.Resting?
  }

  function SignalNotEmpty(s: Sender): Sender {
    if s.Resting? then Roused else s
  }

  function SignalNotFull(r: Reader): Reader {
    if r.Asleep? then Awake(r.c) else r
  }

  /** queue_push; a refused command is pushed once more and, with shutdown up, refused again. */
  function TryPush(s: State, c: Command): State
    requires s.ring.rear < |s.ring.buf| == QUEUE_SIZE
  {
    if s.ring.count >= QUEUE_SIZE && !s.ring.shutdown then s.(reader := Asleep(c))
    else if s.ring.shutdown then s.(reader := Reading, dropped := s.dropped + [c])
    else s.(ring := Put(s.ring, c), reader := Reading, sender := SignalNotEmpty(s.sender))
  }

  function TryPop(s: State): State
    requires s.ring.front < |s.ring.buf| == QUEUE_SIZE
  {
    if s.ring.count == 0 && !s.ring.shutdown then s.(sender := Resting)
    else if s.ring.count == 0 then s.(sender := Stopped)
    else
      var (ring, c) := Take(s.ring);
      s.(ring := ring, sender := Sending, reader := SignalNotFull(s.reader), popped := s.popped + [c])
  }

  predicate InRange(s: State) {
    s.ring.front < |s.ring.buf| == QUEUE_SIZE && s.ring.rear < QUEUE_SIZE
  }

  function Do(s: State, a: Step): State
    requires InRange(s) && (a.Retry? ==> s.reader.Awake?) && (a.WakeReader? ==> s.reader.Asleep?)
  {
    match a
    case Read(c) => TryPush(s.(typed := s.typed + [c]), c)
    case Retry => TryPush(s, s.reader.c)
    case Eof => s.(ring := s.ring.(shutdown := true), reader := Closed, sender := SignalNotEmpty(s.sender))
    case Pop => TryPop(s)
    case WakeReader => s.(reader := Awake(s.reader.c))
    case WakeSender => s.(sender := Roused)
  }

  ghost predicate Init(s: State) {
    && |s.ring.buf| == QUEUE_SIZE && s.ring == Ring(s.ring.buf, 0, 0, 0, false)
    && s == State(s.ring, Reading, Sending, [], [], [])
  }

  ghost predicate Next(s: State, s': State) {
    exists a :: InRange(s) && Enabled(s, a) && s' == Do(s, a)
  }

  ghost predicate IsRun(run: seq<State>) {
    run != [] && Init(run[0]) && forall k | 0 < k < |run| :: Next(run[k - 1], run[k])
  }

  /** The command the reader is still trying to store. */
  function InHand(r: Reader): seq<Command> {
    if r.Asleep? || r.Awake? then [r.c] else []
  }

  ghost predicate Inv(s: State) {
    && RingOk(s.ring)
    && s.popped + Contents(s.ring) + InHand(s.reader) == s.typed && s.dropped == []
    && (s.ring.shutdown <==> s.reader.Closed?)
    && (s.sender.Resting? ==> s.ring.count == 0 && !s.ring.shutdown)
    && (s.reader.Asleep? ==> s.ring.count == QUEUE_SIZE && !s.ring.shutdown)
    && (s.sender.Stopped? ==> s.ring.count == 0 && s.ring.shutdown)
  }

  lemma InitInv(s: State)
    requires Init(s)
    ensures Inv(s)
  {
    WrapIsSubtraction(0);
  }

  lemma PushKeepsInv(s: State, c: Command)
    requires RingOk(s.ring) && s.reader.Reading? && Inv(s.(typed := s.popped + Contents(s.ring)))
    requires s.popped + Contents(s.ring) + [c] == s.typed
    ensures InRange(s) && Inv(TryPush(s, c))
  {
    RearIsWrapped(s.ring);
    if s.ring.count < QUEUE_SIZE {
      PutAppends(s.ring, c);
    }
  }

  lemma PopKeepsInv(s: State)
    requires Inv(s) && (s.sender.Sending? || s.sender.Roused?)
    ensures Inv(TryPop(s))
  {
    if s.ring.count > 0 {
      TakeRemoves(s.ring);
      var (ring, c) := Take(s.ring);
      assert s.popped + [c] + Contents(ring) == s.popped + ([c] + Contents(ring));
    }
  }

  lemma StepKeepsInv(s: State, a: Step)
    requires Inv(s) && Enabled(s, a)
    ensures InRange(s) && Inv(Do(s, a))
  {
    RearIsWrapped(s.ring);
    match a {
      case Read(c) => PushKeepsInv(s.(typed := s.typed + [c]), c);
      case Retry => PushKeepsInv(s.(reader := Reading), s.reader.c);
      case Pop => PopKeepsInv(s);
      case _ =>
    }
  }

  lemma {:induction false} RunInv(run: seq<State>, k: nat)
    requires IsRun(run) && k < |run|
    ensures Inv(run[k])
  {
    if k == 0 {
      InitInv(run[0]);
    } else {
      RunInv(run, k - 1);
      assert Next(run[k - 1], run[k]);
      var a :| InRange(run[k - 1]) && Enabled(run[k - 1], a) && run[k] == Do(run[k - 1], a);
      StepKeepsInv(run[k - 1], a);
    }
  }

  /**
   First in, first out, end to end: in every interleaving the commands handed to the sender are a prefix
   of those typed, the rest sits in the queue and in the reader's hand in order, none is dropped, and the
   rear index is where front and count say.
   */
  lemma FifoEndToEnd(run: seq<State>, k: nat)
    requires IsRun(run) && k < |run|
    ensures var s := run[k];
            && RingOk(s.ring)
            && s.popped + Contents(s.ring) + InHand(s.reader) == s.typed
            && s.popped <= s.typed && s.dropped == []
  {
    RunInv(run, k);
  }

  /**
   No lost wakeup: a thread that sleeps unsignalled sleeps for a reason, so the two never sleep
   together and nobody sleeps once shutdown is up.
   */
  lemma NoLostWakeup(run: seq<State>, k: nat)
    requires IsRun(run) && k < |run|
    ensures var s := run[k];
            && (s.sender.Resting? ==> s.ring.count == 0 && !s.ring.shutdown)
            && (s.reader.Asleep? ==> s.ring.count == QUEUE_SIZE && !s.ring.shutdown)
            && !(s.sender.Resting? && s.reader.Asleep?)
            && (s.ring.shutdown ==> !s.sender.Resting? && !s.reader.Asleep?)
  {
    RunInv(run, k);
  }

  /** No deadlock: until both threads have finished, one of them can act without a stray wakeup. */
  lemma NoDeadlock(run: seq<State>, k: nat)
    requires IsRun(run) && k < |run| && !(run[k].reader.Closed? && run[k].sender.Stopped?)
    ensures exists a: Step :: !a.WakeReader? && !a.WakeSender? && Enabled(run[k], a)
  {
    RunInv(run, k);
    assert Enabled(run[k], Eof) || Enabled(run[k], Retry) || Enabled(run[k], Pop);
  }

  /** The sender running alone from s. */
  function Drain(s: State, pops: nat): State
    requires InRange(s)
    ensures InRange(Drain(s, pops))
  {
    if pops == 0 then s else TryPop(Drain(s, pops - 1))
  }

  /** After pops of them, exactly the oldest commands are gone and the sender is ready for more. */
  lemma {:induction false} DrainTakes(s: State, pops: nat)
    requires Inv(s) && s.ring.shutdown && !s.sender.Stopped? && InRange(s) && pops <= s.ring.count
    ensures var d := Drain(s, pops);
            && Inv(d) && d.ring.shutdown && (d.sender.Sending? || d.sender.Roused?)
            && d.ring.count == s.ring.count - pops && d.typed == s.typed
  {
    if pops > 0 {
      DrainTakes(s, pops - 1);
      PopKeepsInv(Drain(s, pops - 1));
    }
  }

  /**
   Shutdown releases and drains the sender: once it is up, the sender needs one queue_pop per queued
   command and one more to stop, and by then it has been handed every command ever typed.
   */
  lemma ShutdownDrains(run: seq<State>, k: nat)
    requires IsRun(run) && k < |run| && run[k].ring.shutdown && !run[k].sender.Stopped?
    ensures InRange(run[k])
    ensures forall pops | 0 <= pops <= run[k].ring.count :: !Drain(run[k], pops).sender.Stopped?
    ensures Drain(run[k], run[k].ring.count + 1).sender.Stopped?
    ensures Drain(run[k], run[k].ring.count + 1).popped == run[k].typed
  {
    RunInv(run, k);
    RearIsWrapped(run[k].ring);
    forall pops | 0 <= pops <= run[k].ring.count ensures !Drain(run[k], pops).sender.Stopped? {
      DrainTakes(run[k], pops);
    }
    DrainTakes(run[k], run[k].ring.count);
  }

  // ---------------------------------------------------------------------------------------------
  // Progress
  // ---------------------------------------------------------------------------------------------

  /** The command that queue_push is called with. */
  function Offered(s: State, a: Step): Command
    requires (a.Read? || a.Retry?) && (a.Retry? ==> s.reader.Awake?)
  {
    if a.Read? then a.c else s.reader.c
  }

  /** A command is stored at once while the queue is open and has room, waits while it is full, is lost never. */
  lemma PushExactly(s: State, a: Step)
    requires Inv(s) && Enabled(s, a) && (a.Read? || a.Retry?)
    ensures InRange(s)
    ensures var t, c := Do(s, a), Offered(s, a);
            && t.typed == s.typed + (if a.Read? then [c] else []) && t.popped == s.popped
            && (s.ring.count < QUEUE_SIZE ==> Contents(t.ring) == Contents(s.ring) + [c] && t.reader.Reading?
                                              && !t.sender.Resting?)
            && (s.ring.count == QUEUE_SIZE ==> t == s.(typed := t.typed, reader := Asleep(c)))
  {
    RearIsWrapped(s.ring);
    if s.ring.count < QUEUE_SIZE {
      PutAppends(s.ring, Offered(s, a));
    }
  }

  /** A sender that gets to the queue is handed its oldest command; with none it rests, or stops after shutdown. */
  lemma PopExactly(s: State)
    requires Inv(s) && Enabled(s, Pop)
    ensures InRange(s)
    ensures var t := Do(s, Pop);
            && t.typed == s.typed
            && (s.ring.count > 0 ==> t.popped == s.popped + [Contents(s.ring)[0]] && t.sender.Sending?
                                     && Contents(t.ring) == Contents(s.ring)[1..] && !t.reader.Asleep?)
            && (s.ring.count == 0 ==> t == s.(sender := if s.ring.shutdown then Stopped else Resting))
  {
    RearIsWrapped(s.ring);
    if s.ring.count > 0 {
      TakeRemoves(s.ring);
    }
  }

  /** The end of the input closes the queue, keeps what it holds, and lets a resting sender go on. */
  lemma EofCloses(s: State)
    requires Inv(s) && Enabled(s, Eof)
    ensures InRange(s)
    ensures var t := Do(s, Eof);
            && t.ring.shutdown && t.reader.Closed? && !t.sender.Resting?
            && Contents(t.ring) == Contents(s.ring) && t.typed == s.typed && t.popped == s.popped
  {
    RearIsWrapped(s.ring);
  }

  /** When both threads have finished, the sender has been handed exactly what was typed, in order. */
  lemma AllDelivered(run: seq<State>, k: nat)
    requires IsRun(run) && k < |run| && run[k].reader.Closed? && run[k].sender.Stopped?
    ensures run[k].popped == run[k].typed
  {
    RunInv(run, k);
  }
}
