/** The server list and the health table beside it, as one sequence of paired entries. */
module Peers {
  import opened Machine

  const PING_TIMEOUT: int := 6

  datatype Health = Health(last: int, alive: bool)

  datatype Peer = Peer(id: int, health: Health)

  function Ids(ps: seq<Peer>): (ids: seq<int>)
    ensures |ids| == |ps| && forall i | 0 <= i < |ps| :: ids[i] == ps[i].id
  {
    seq(|ps|, i requires 0 <= i < |ps| => ps[i].id)
  }

  function Paired(ids: seq<int>, health: seq<Health>): (ps: seq<Peer>)
    requires |ids| == |health|
    ensures |ps| == |ids| && Ids(ps) == ids
  {
    seq(|ids|, i requires 0 <= i < |ids| && |ids| == |health| => Peer(ids[i], health[i]))
  }

  lemma PairedRemove(ids: seq<int>, health: seq<Health>, i: nat)
    requires |ids| == |health| && i < |ids|
    ensures Paired(ids[..i] + ids[i + 1..], health[..i] + health[i + 1..]) ==
            Paired(ids, health)[..i] + Paired(ids, health)[i + 1..]
  {
  }

  /** Distinct ids, within capacity. */
  ghost predicate ListOk(ids: seq<int>) {
    |ids| <= MAX_SERVERS && forall i, j | 0 <= i < j < |ids| :: ids[i] != ids[j]
  }

  /** add_peer: never the server itself, never twice, never beyond the capacity. */
  function AddPeer(ids: seq<int>, me: int, id: int): seq<int> {
    if id == me || id in ids || |ids| >= MAX_SERVERS then ids else ids + [id]
  }

  function AddAll(ids: seq<int>, me: int, more: seq<int>): seq<int> {
    if more == [] then ids else AddPeer(AddAll(ids, me, more[..|more| - 1]), me, more[|more| - 1])
  }

  /** Merging a list keeps it well formed, and loses somebody only when the table is full. */
  lemma {:induction false} AddAllOk(ids: seq<int>, me: int, more: seq<int>)
    requires ListOk(ids)
    ensures ListOk(AddAll(ids, me, more)) && ids <= AddAll(ids, me, more)
    ensures forall id | id in AddAll(ids, me, more) :: id in ids || (id in more && id != me)
    ensures |AddAll(ids, me, more)| < MAX_SERVERS ==> forall id | id in more :: id in AddAll(ids, me, more) || id == me
  {
    if more != [] {
      AddAllOk(ids, me, more[..|more| - 1]);
    }
  }

  /** The list is merged in order: what is lost to a full table is a tail of the newcomers. */
  lemma {:induction false} AddAllInOrder(ids: seq<int>, me: int, more: seq<int>, k: nat)
    requires k < |more|
    ensures AddAll(ids, me, more[..k]) <= AddAll(ids, me, more)
    ensures more[k] != me && more[k] !in AddAll(ids, me, more[..k]) ==>
              (more[k] in AddAll(ids, me, more) <==> |AddAll(ids, me, more[..k])| < MAX_SERVERS)
    ensures |AddAll(ids, me, more[..k])| >= MAX_SERVERS ==> AddAll(ids, me, more) == AddAll(ids, me, more[..k])
  {
    var before := more[..|more| - 1];
    if k < |before| {
      assert before[..k] == more[..k];
      AddAllInOrder(ids, me, before, k);
    }
  }

  // ---------------------------------------------------------------------------------------------
  // The failure sweep
  // ---------------------------------------------------------------------------------------------

  /** Known to be alive, not this server, and silent for longer than the timeout. */
  predicate Expired(p: Peer, me: int, now: int) {
    p.id != me && p.health.last != 0 && now - p.health.last > PING_TIMEOUT && p.health.alive
  }

  /** What the sweep does to an entry it keeps. */
  function Refreshed(p: Peer, me: int, now: int): Peer {
    if p.id == me then p
    else if p.health.last == 0 then p.(health := Health(now, true))
    else if now - p.health.last <= PING_TIMEOUT then p.(health := p.health.(alive := true))
    else p
  }

  function Survivors(ps: seq<Peer>, me: int, now: int): (kept: seq<Peer>)
    ensures |kept| <= |ps|
  {
    if ps == [] then []
    else
      var p := ps[|ps| - 1];
      Survivors(ps[..|ps| - 1], me, now) + (if Expired(p, me, now) then [] else [Refreshed(p, me, now)])
  }

  predicate LeaderLost(ps: seq<Peer>, me: int, now: int, leader: int) {
    exists i | 0 <= i < |ps| :: Expired(ps[i], me, now) && ps[i].id == leader
  }

  /** The sweep has examined the first k entries and stands at position i of what the table shows now. */
  ghost predicate MidSweep(before: seq<Peer>, k: nat, view: seq<Peer>, i: int, me: int, now: int) {
    && k <= |before|
    && i == |Survivors(before[..k], me, now)|
    && view == Survivors(before[..k], me, now) + before[k..]
  }

  lemma SweepRound(before: seq<Peer>, k: nat, view: seq<Peer>, view': seq<Peer>, i: nat, me: int, now: int, leader: int)
    requires MidSweep(before, k, view, i, me, now) && k < |before|
    requires view' ==
             view[..i] + (if Expired(view[i], me, now) then [] else [Refreshed(view[i], me, now)]) + view[i + 1..]
    ensures view[i] == before[k]
    ensures LeaderLost(before[..k + 1], me, now, leader) <==>
            LeaderLost(before[..k], me, now, leader) || (Expired(view[i], me, now) && view[i].id == leader)
    ensures MidSweep(before, k + 1, view', if Expired(view[i], me, now) then i else i + 1, me, now)
  {
    assert before[..k + 1][..k] == before[..k];
    assert before[..k + 1][k] == before[k];
    assert view[..i] == Survivors(before[..k], me, now);
    assert view[i + 1..] == before[k + 1..];
  }

  lemma SweepStarts(before: seq<Peer>, me: int, now: int, leader: int)
    ensures MidSweep(before, 0, before, 0, me, now)
    ensures !LeaderLost(before[..0], me, now, leader)
  {
  }

  lemma SweepDone(before: seq<Peer>, k: nat, view: seq<Peer>, i: nat, me: int, now: int)
    requires MidSweep(before, k, view, i, me, now) && i == |view|
    ensures k == |before| && before[..k] == before && view == Survivors(before, me, now)
  {
    assert k == |before|;
  }

  /** The positions the sweep keeps. */
  function Kept(ps: seq<Peer>, me: int, now: int): seq<nat> {
    if ps == [] then []
    else
      var n := |ps| - 1;
      Kept(ps[..n], me, now) + (if Expired(ps[n], me, now) then [] else [n])
  }

  predicate Increasing(kept: seq<nat>, bound: nat) {
    && (forall r | 0 <= r < |kept| :: kept[r] < bound)
    && (forall r, q | 0 <= r < q < |kept| :: kept[r] < kept[q])
  }

  lemma {:induction false} KeptIncreases(ps: seq<Peer>, me: int, now: int)
    ensures Increasing(Kept(ps, me, now), |ps|)
  {
    if ps != [] {
      KeptIncreases(ps[..|ps| - 1], me, now);
    }
  }

  lemma {:induction false} KeptExactly(ps: seq<Peer>, me: int, now: int, i: nat)
    requires i < |ps|
    ensures i in Kept(ps, me, now) <==> !Expired(ps[i], me, now)
  {
    var n := |ps| - 1;
    KeptIncreases(ps[..n], me, now);
    if i < n {
      KeptExactly(ps[..n], me, now, i);
    }
  }

  lemma {:induction false} SurvivorsAt(ps: seq<Peer>, me: int, now: int)
    ensures var kept, left := Kept(ps, me, now), Survivors(ps, me, now);
            && |left| == |kept|
            && (forall r | 0 <= r < |kept| :: kept[r] < |ps| && left[r] == Refreshed(ps[kept[r]], me, now))
  {
    if ps != [] {
      var before, kept := Kept(ps[..|ps| - 1], me, now), Kept(ps, me, now);
      SurvivorsAt(ps[..|ps| - 1], me, now);
      assert forall r | 0 <= r < |kept| :: kept[r] == if r < |before| then before[r] else |ps| - 1;
    }
  }

  /**
   The survivors are exactly the entries that have not expired, refreshed and in their old order:
   kept positions increase, and a position is kept iff its entry has not expired.
   */
  lemma SurvivorsExact(ps: seq<Peer>, me: int, now: int)
    ensures var kept := Kept(ps, me, now);
            && |Survivors(ps, me, now)| == |kept|
            && (forall r | 0 <= r < |kept| ::
                  kept[r] < |ps| && Survivors(ps, me, now)[r] == Refreshed(ps[kept[r]], me, now))
            && Increasing(kept, |ps|)
            && (forall i | 0 <= i < |ps| :: i in kept <==> !Expired(ps[i], me, now))
  {
    SurvivorsAt(ps, me, now);
    KeptIncreases(ps, me, now);
    forall i | 0 <= i < |ps| ensures i in Kept(ps, me, now) <==> !Expired(ps[i], me, now) {
      KeptExactly(ps, me, now, i);
    }
  }

  /** On distinct ids the sweep keeps an id exactly when its entry has not expired; never the own one. */
  lemma SweepKeepsId(ps: seq<Peer>, me: int, now: int, i: nat)
    requires ListOk(Ids(ps)) && i < |ps|
    ensures ListOk(Ids(Survivors(ps, me, now)))
    ensures ps[i].id in Ids(Survivors(ps, me, now)) <==> !Expired(ps[i], me, now)
    ensures ps[i].id == me ==> me in Ids(Survivors(ps, me, now))
  {
    var kept, ids := Kept(ps, me, now), Ids(Survivors(ps, me, now));
    SurvivorsExact(ps, me, now);
    assert forall r | 0 <= r < |ids| :: ids[r] == Ids(ps)[kept[r]] && (ids[r] == Ids(ps)[i] ==> kept[r] == i);
    if i in kept {
      var r :| 0 <= r < |kept| && kept[r] == i;
      assert ids[r] == ps[i].id;
    }
  }

  ghost function ExpiredIds(ps: seq<Peer>, me: int, now: int): set<int> {
    set i | 0 <= i < |ps| && Expired(ps[i], me, now) :: ps[i].id
  }

  function Without(list: seq<int>, dead: set<int>): seq<int> {
    if list == [] then []
    else Without(list[..|list| - 1], dead) + (if list[|list| - 1] in dead then [] else [list[|list| - 1]])
  }

  /** Eviction removes exactly the dead ids and keeps a list well formed. */
  lemma {:induction false} WithoutOk(list: seq<int>, dead: set<int>)
    ensures forall id :: id in Without(list, dead) <==> id in list && id !in dead
    ensures |Without(list, dead)| <= |list| && (ListOk(list) ==> ListOk(Without(list, dead)))
  {
    if list != [] {
      WithoutOk(list[..|list| - 1], dead);
    }
  }

  /** Seen through its ids, the sweep is the eviction of the expired ids. */
  lemma {:induction false} SweepEvicts(ps: seq<Peer>, me: int, now: int, dead: set<int>)
    requires forall i | 0 <= i < |ps| :: ps[i].id in dead <==> Expired(ps[i], me, now)
    ensures Ids(Survivors(ps, me, now)) == Without(Ids(ps), dead)
  {
    if ps != [] {
      var n := |ps| - 1;
      SweepEvicts(ps[..n], me, now, dead);
      assert Ids(ps)[..n] == Ids(ps[..n]);
    }
  }

  lemma ExpiredIdsExact(ps: seq<Peer>, me: int, now: int)
    requires ListOk(Ids(ps))
    ensures me !in ExpiredIds(ps, me, now)
    ensures forall i | 0 <= i < |ps| :: ps[i].id in ExpiredIds(ps, me, now) <==> Expired(ps[i], me, now)
    ensures forall leader :: LeaderLost(ps, me, now, leader) <==> leader in ExpiredIds(ps, me, now)
    ensures ExpiredIds(ps, me, now) <= set id | id in Ids(ps)
  {
    forall i | 0 <= i < |ps| ensures ps[i].id in ExpiredIds(ps, me, now) <==> Expired(ps[i], me, now) {
      assert forall j | 0 <= j < |ps| && ps[j].id == ps[i].id :: Ids(ps)[j] == Ids(ps)[i] && j == i;
    }
  }

  // ---------------------------------------------------------------------------------------------
  // Heartbeats and the sweep together
  // ---------------------------------------------------------------------------------------------

  function Position(ids: seq<int>, id: int): (i: nat)
    ensures i <= |ids| && (i < |ids| ==> ids[i] == id) && forall j | 0 <= j < i :: ids[j] != id
  {
    if ids == [] || ids[0] == id then 0 else 1 + Position(ids[1..], id)
  }

  /** handle_ping: the first entry of the sender is marked alive at the given time. */
  function Pinged(ps: seq<Peer>, sender: int, at: int): seq<Peer> {
    var i := Position(Ids(ps), sender);
    if i < |ps| then ps[i := ps[i].(health := Health(at, true))] else ps
  }

  /** A listed peer whose ping is at most PING_TIMEOUT old survives the sweep; a silent one does not. */
  lemma PingedSurvives(ps: seq<Peer>, me: int, sender: int, at: int, now: int)
    requires ListOk(Ids(ps)) && sender in Ids(ps) && sender != me && at != 0
    ensures sender in Ids(Survivors(Pinged(ps, sender, at), me, now)) <==> now - at <= PING_TIMEOUT
  {
    var ps' := Pinged(ps, sender, at);
    var i := Position(Ids(ps), sender);
    assert Ids(ps') == Ids(ps);
    SweepKeepsId(ps', me, now, i);
  }

  /** After a reset at t0 everybody else stays exactly as long as that is within the timeout. */
  lemma ResetSurvive(ps: seq<Peer>, me: int, t0: int, now: int, id: int)
    requires ListOk(Ids(ps)) && id in Ids(ps)
    requires forall i | 0 <= i < |ps| :: ps[i].health == Health(t0, true)
    ensures id in Ids(Survivors(ps, me, now)) <==> id == me || t0 == 0 || now - t0 <= PING_TIMEOUT
  {
    SweepKeepsId(ps, me, now, Position(Ids(ps), id));
  }

  /** add_peer beside the health table: a newcomer takes over whatever its slot recorded last. */
  function Joined(ps: seq<Peer>, me: int, id: int, slot: Health): seq<Peer> {
    if id == me || id in Ids(ps) || |ps| >= MAX_SERVERS then ps else ps + [Peer(id, slot)]
  }

  /**
   A newly listed peer is judged by its slot. It outlives the next sweep unless the slot still reads alive
   with an expired time: a fresh peer is not promised a full timeout window.
   */
  lemma NewPeerInheritsSlot(ps: seq<Peer>, me: int, id: int, slot: Health, now: int)
    requires ListOk(Ids(ps)) && |ps| < MAX_SERVERS && id != me && id !in Ids(ps)
    ensures id in Ids(Survivors(Joined(ps, me, id, slot), me, now)) <==>
            !(slot.alive && slot.last != 0 && now - slot.last > PING_TIMEOUT)
  {
    var ps' := Joined(ps, me, id, slot);
    assert Ids(ps') == Ids(ps) + [id];
    SweepKeepsId(ps', me, now, |ps|);
  }

  /** The others keep what was recorded of them, and a stranger's ping records nothing. */
  lemma PingIsPersonal(ps: seq<Peer>, sender: int, at: int)
    ensures Ids(Pinged(ps, sender, at)) == Ids(ps)
    ensures forall i | 0 <= i < |ps| && ps[i].id != sender :: Pinged(ps, sender, at)[i] == ps[i]
    ensures sender !in Ids(ps) ==> Pinged(ps, sender, at) == ps
  {
    assert Position(Ids(ps), sender) < |ps| ==> Ids(ps)[Position(Ids(ps), sender)] == sender;
  }

  // ---------------------------------------------------------------------------------------------
  // Two sweeps in a row
  // ---------------------------------------------------------------------------------------------

  /** Where a kept entry stands after the sweep, and that nobody else has its id. */
  lemma SurvivorOf(ps: seq<Peer>, me: int, now: int, i: nat) returns (r: nat)
    requires ListOk(Ids(ps)) && i < |ps| && !Expired(ps[i], me, now)
    ensures r < |Survivors(ps, me, now)| && Survivors(ps, me, now)[r] == Refreshed(ps[i], me, now)
    ensures ListOk(Ids(Survivors(ps, me, now)))
  {
    SurvivorsExact(ps, me, now);
    SweepKeepsId(ps, me, now, i);
    r :| 0 <= r < |Kept(ps, me, now)| && Kept(ps, me, now)[r] == i;
  }

  /** After a sweep that keeps an entry, the next one judges it as it was refreshed. */
  lemma SecondSweep(ps: seq<Peer>, me: int, t1: int, t2: int, i: nat)
    requires ListOk(Ids(ps)) && i < |ps| && !Expired(ps[i], me, t1)
    ensures ps[i].id in Ids(Survivors(Survivors(ps, me, t1), me, t2)) <==> !Expired(Refreshed(ps[i], me, t1), me, t2)
  {
    var r := SurvivorOf(ps, me, t1, i);
    assert Survivors(ps, me, t1)[r].id == ps[i].id;
    SweepKeepsId(Survivors(ps, me, t1), me, t2, r);
  }

  /**
   What two sweeps do to a listed peer that is not heard of between them. One heard in time before the first
   is judged by that time again, whatever was noted of it; one never heard of is given until the timeout after
   the first; one that was given up and has not come back stays listed, and so does the server itself.
   */
  lemma TwoSweeps(ps: seq<Peer>, me: int, t1: int, t2: int, i: nat)
    requires ListOk(Ids(ps)) && i < |ps|
    ensures var p, left := ps[i], Ids(Survivors(Survivors(ps, me, t1), me, t2));
            && (p.id == me ==> p.id in left)
            && (p.id != me && p.health.last != 0 && t1 - p.health.last <= PING_TIMEOUT ==>
                  (p.id in left <==> t2 - p.health.last <= PING_TIMEOUT))
            && (p.id != me && p.health.last == 0 && t1 != 0 ==> (p.id in left <==> t2 - t1 <= PING_TIMEOUT))
            && (p.id != me && p.health.last != 0 && t1 - p.health.last > PING_TIMEOUT ==>
                  (p.id in left <==> !p.health.alive))
  {
    var p := ps[i];
    SweepKeepsId(ps, me, t1, i);
    if !Expired(p, me, t1) {
      SecondSweep(ps, me, t1, t2, i);
    } else {
      SweptStaysOut(ps, me, t1, t2, p.id);
    }
  }

  /** A sweep lists nobody anew. */
  lemma SweptStaysOut(ps: seq<Peer>, me: int, t1: int, t2: int, id: int)
    requires id !in Ids(Survivors(ps, me, t1))
    ensures id !in Ids(Survivors(Survivors(ps, me, t1), me, t2))
  {
    var once := Survivors(ps, me, t1);
    SurvivorsExact(once, me, t2);
    var kept, twice := Kept(once, me, t2), Survivors(once, me, t2);
    forall r | 0 <= r < |twice| ensures Ids(twice)[r] != id {
      assert Ids(once)[kept[r]] == twice[r].id;
    }
  }
}
