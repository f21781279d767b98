/** Membership of the agents' hash ring: a list that is shortened while it is walked, kept
    in step with the nodes of the ring. Only the ring's node set is modelled. */
module HashRing {

  datatype Member = Member(id: string, host: string, timestamp: int)

  predicate Stale(m: Member, now: int, limit: int) {
    now - m.timestamp > limit
  }

  function Ids(ms: seq<Member>): set<string> {
    set m | m in ms :: m.id
  }

  predicate Distinct(ms: seq<Member>) {
    forall i, j | 0 <= i < j < |ms| :: ms[i].id != ms[j].id
  }

  function Renewed(m: Member, payload: Member): Member {
    if m.id == payload.id then m.(timestamp := payload.timestamp) else m
  }

  /** The list after the notification: a new member at the end, or a new timestamp. */
  function Joined(ms: seq<Member>, payload: Member): (r: seq<Member>)
    ensures Distinct(ms) ==> Distinct(r)
  {
    if payload.id in Ids(ms) then seq(|ms|, i requires 0 <= i < |ms| => Renewed(ms[i], payload))
    else
      assert forall i | 0 <= i < |ms| :: ms[i].id in Ids(ms);
      ms + [payload]
  }

  lemma JoinedIds(ms: seq<Member>, payload: Member)
    ensures Ids(Joined(ms, payload)) == Ids(ms) + {payload.id}
  {
    var r := Joined(ms, payload);
    forall id | id in Ids(ms) ensures id in Ids(r) {
      var i :| 0 <= i < |ms| && ms[i].id == id;
      assert r[i] in r && r[i].id == id;
    }
    if payload.id !in Ids(ms) {
      assert payload in r;
    }
    forall m | m in r ensures m.id in Ids(ms) + {payload.id} {
      var i :| 0 <= i < |r| && r[i] == m;
      assert i < |ms| ==> ms[i] in ms;
    }
  }

  /** One walk: each removal makes the walk skip the next member. */
  function Sweep(ms: seq<Member>, now: int, limit: int): seq<Member> {
    if ms == [] then []
    else if !Stale(ms[0], now, limit) then [ms[0]] + Sweep(ms[1..], now, limit)
    else if |ms| == 1 then []
    else [ms[1]] + Sweep(ms[2..], now, limit)
  }

  function StaleCount(ms: seq<Member>, now: int, limit: int): nat {
    if ms == [] then 0 else (if Stale(ms[0], now, limit) then 1 else 0) + StaleCount(ms[1..], now, limit)
  }

  // ----- Bounds --------------------------------------------------------------------

  /** At most half of the stale members, rounded down, survive a walk. */
  lemma {:induction false} SweepHalves(ms: seq<Member>, now: int, limit: int)
    ensures StaleCount(Sweep(ms, now, limit), now, limit) <= StaleCount(ms, now, limit) / 2
  {
    if ms == [] {
    } else if !Stale(ms[0], now, limit) {
      SweepHalves(ms[1..], now, limit);
      assert ([ms[0]] + Sweep(ms[1..], now, limit))[1..] == Sweep(ms[1..], now, limit);
    } else if |ms| > 1 {
      SweepHalves(ms[2..], now, limit);
      assert ms[1..][1..] == ms[2..];
      assert ([ms[1]] + Sweep(ms[2..], now, limit))[1..] == Sweep(ms[2..], now, limit);
    }
  }

  /** The bound is reached: of adjacent stale members every second one survives. */
  lemma {:induction false} SweepBoundTight(ms: seq<Member>, now: int, limit: int)
    requires forall m | m in ms :: Stale(m, now, limit)
    ensures |Sweep(ms, now, limit)| == |ms| / 2
  {
    if |ms| > 1 {
      SweepBoundTight(ms[2..], now, limit);
    }
  }

  /** Fresh members are never evicted, and nobody is invented. */
  lemma {:induction false} SweepKeepsFresh(ms: seq<Member>, now: int, limit: int, m: Member)
    ensures m in Sweep(ms, now, limit) ==> m in ms
    ensures m in ms && !Stale(m, now, limit) ==> m in Sweep(ms, now, limit)
  {
    if ms == [] {
    } else if !Stale(ms[0], now, limit) {
      SweepKeepsFresh(ms[1..], now, limit, m);
      assert ms == [ms[0]] + ms[1..];
    } else if |ms| > 1 {
      SweepKeepsFresh(ms[2..], now, limit, m);
      assert ms == [ms[0]] + ([ms[1]] + ms[2..]);
    }
  }

  lemma {:induction false} CountSnoc(ms: seq<Member>, m: Member, now: int, limit: int)
    ensures StaleCount(ms + [m], now, limit) == StaleCount(ms, now, limit) + if Stale(m, now, limit) then 1 else 0
  {
    if ms != [] {
      assert (ms + [m])[1..] == ms[1..] + [m];
      CountSnoc(ms[1..], m, now, limit);
    } else {
      assert ([m])[1..] == [];
    }
  }

  lemma {:induction false} CountPointwise(a: seq<Member>, b: seq<Member>, now: int, limit: int)
    requires |a| == |b| && forall i | 0 <= i < |a| :: Stale(b[i], now, limit) ==> Stale(a[i], now, limit)
    ensures StaleCount(b, now, limit) <= StaleCount(a, now, limit)
  {
    if a != [] {
      CountPointwise(a[1..], b[1..], now, limit);
    }
  }

  /** A notification from a fresh member adds nobody stale. */
  lemma JoinedCount(ms: seq<Member>, payload: Member, now: int, limit: int)
    requires !Stale(payload, now, limit)
    ensures StaleCount(Joined(ms, payload), now, limit) <= StaleCount(ms, now, limit)
  {
    if payload.id in Ids(ms) {
      CountPointwise(ms, Joined(ms, payload), now, limit);
    } else {
      CountSnoc(ms, payload, now, limit);
    }
  }

  /** The list after each of these notifications in turn. */
  function Notified(ms: seq<Member>, payloads: seq<Member>, now: int, limit: int): seq<Member>
    decreases |payloads|
  {
    if payloads == [] then ms
    else
      var n := |payloads| - 1;
      Sweep(Joined(Notified(ms, payloads[..n], now, limit), payloads[n]), now, limit)
  }

  function Pow2(n: nat): nat {
    if n == 0 then 1 else 2 * Pow2(n - 1)
  }

  /** The whole part of the binary logarithm. */
  function Log2(n: nat): (k: nat)
    requires n > 0
    ensures Pow2(k) <= n < Pow2(k + 1)
  {
    if n == 1 then 0 else 1 + Log2(n / 2)
  }

  lemma {:induction false} Pow2Grows(k: nat, m: nat)
    requires k <= m
    ensures Pow2(k) <= Pow2(m)
    decreases m - k
  {
    if k < m {
      Pow2Grows(k + 1, m);
    }
  }

  /** `n` halved `k` times, rounded down each time. */
  function Halved(n: nat, k: nat): nat {
    if k == 0 then n else Halved(n / 2, k - 1)
  }

  lemma {:induction false} HalvedMore(n: nat, k: nat)
    ensures Halved(n, k) / 2 == Halved(n, k + 1)
  {
    if k > 0 {
      HalvedMore(n / 2, k - 1);
    }
  }

  lemma {:induction false} HalvedAway(n: nat, k: nat)
    requires n < Pow2(k)
    ensures Halved(n, k) == 0
  {
    if k > 0 {
      HalvedAway(n / 2, k - 1);
    }
  }

  /** Each notification from a fresh member halves what is stale, rounding down. */
  lemma {:induction false} NotifiedHalves(ms: seq<Member>, payloads: seq<Member>, now: int, limit: int)
    requires forall p | p in payloads :: !Stale(p, now, limit)
    ensures StaleCount(Notified(ms, payloads, now, limit), now, limit) <= Halved(StaleCount(ms, now, limit), |payloads|)
    decreases |payloads|
  {
    hide StaleCount, Sweep, Joined, Stale;
    if payloads != [] {
      var n := |payloads| - 1;
      var before := Notified(ms, payloads[..n], now, limit);
      NotifiedHalves(ms, payloads[..n], now, limit);
      JoinedCount(before, payloads[n], now, limit);
      SweepHalves(Joined(before, payloads[n]), now, limit);
      HalvedMore(StaleCount(ms, now, limit), n);
    }
  }

  /** With staleness fixed and the ring's calls succeeding, `s` stale members are all gone
      after ⌊log2 s⌋ + 1 notifications from fresh members, and stay away. */
  lemma AllGone(ms: seq<Member>, payloads: seq<Member>, now: int, limit: int)
    requires forall p | p in payloads :: !Stale(p, now, limit)
    requires StaleCount(ms, now, limit) > 0 ==> |payloads| > Log2(StaleCount(ms, now, limit))
    ensures StaleCount(Notified(ms, payloads, now, limit), now, limit) == 0
    ensures forall m | m in Notified(ms, payloads, now, limit) :: !Stale(m, now, limit)
  {
    hide StaleCount, Sweep, Joined, Notified, Stale;
    NotifiedHalves(ms, payloads, now, limit);
    var stale := StaleCount(ms, now, limit);
    Pow2Grows(if stale > 0 then Log2(stale) + 1 else 0, |payloads|);
    HalvedAway(stale, |payloads|);
    NoneStale(Notified(ms, payloads, now, limit), now, limit);
  }

  lemma {:induction false} NoneStale(ms: seq<Member>, now: int, limit: int)
    ensures StaleCount(ms, now, limit) == 0 ==> forall m | m in ms :: !Stale(m, now, limit)
  {
    if ms != [] {
      NoneStale(ms[1..], now, limit);
      assert ms == [ms[0]] + ms[1..];
    }
  }

  // ----- The endpoint ----------------------------------------------------------------

  lemma RemoveAt(ms: seq<Member>, i: nat)
    requires Distinct(ms) && i < |ms|
    ensures Distinct(ms[..i] + ms[i + 1..]) && Ids(ms[..i] + ms[i + 1..]) == Ids(ms) - {ms[i].id}
  {
  }

  class Endpoint {
    var members: seq<Member>
    var ring: set<string>
    var failures: nat

    /** The ring holds exactly the members, each of them once. */
    ghost predicate Valid()
      reads this
    {
      Distinct(members) && ring == Ids(members)
    }

    constructor ()
      ensures Valid() && members == []
    {
      members, ring, failures := [], {}, 0;
    }

    method AddNode(id: string) returns (raised: bool)
      modifies this`ring, this`failures
      ensures failures == old(failures) + if raised then 1 else 0
      ensures ring == if raised then old(ring) else old(ring) + {id}
    {
      raised := *;
      if raised { failures := failures + 1; } else { ring := ring + {id}; }
    }

    method RemoveNode(id: string) returns (raised: bool)
      modifies this`ring, this`failures
      ensures failures == old(failures) + if raised then 1 else 0
      ensures ring == if raised then old(ring) else old(ring) - {id}
    {
      raised := *;
      if raised { failures := failures + 1; } else { ring := ring - {id}; }
    }

    /** A notification from another agent. Whatever calls raise, ring and list stay in
        step and no fresh member goes; when none does the list is the specified one. */
    method Info(payload: Member, now: int, limit: int)
      requires Valid()
      modifies this
      ensures Valid() && failures >= old(failures)
      ensures failures == old(failures) ==> members == Sweep(Joined(old(members), payload), now, limit)
      ensures Ids(members) <= Ids(old(members)) + {payload.id}
      ensures forall m | m in Joined(old(members), payload) && !Stale(m, now, limit) && m.id in Ids(old(members)) ::
                m in members
    {
      if payload.id !in Ids(members) {
        var raised := AddNode(payload.id);
        if !raised {
          members := members + [payload];
        }
      } else {
        Touch(payload);
      }
      ghost var joined := members;
      JoinedIds(old(members), payload);
      EvictStale(now, limit);
      assert forall m | m in Joined(old(members), payload) && m.id in Ids(old(members)) :: m in joined;
    }

    method Touch(payload: Member)
      requires Valid() && payload.id in Ids(members)
      modifies this`members
      ensures members == Joined(old(members), payload) && Valid()
    {
      for i := 0 to |members|
        invariant |members| == |old(members)|
        invariant forall j | 0 <= j < |members| ::
                    members[j] == if j < i && old(members)[j].id == payload.id
                        then old(members)[j].(timestamp := payload.timestamp)
                                  else old(members)[j]
      {
        if members[i].id == payload.id {
          members := members[i := members[i].(timestamp := payload.timestamp)];
        }
      }
      JoinedIds(old(members), payload);
      assert members == Joined(old(members), payload);
    }

    /** The walk over the list it removes from. */
    method EvictStale(now: int, limit: int)
      requires Valid()
      modifies this
      ensures Valid() && failures >= old(failures)
      ensures failures == old(failures) ==> members == Sweep(old(members), now, limit)
      ensures forall m | m in members :: m in old(members)
      ensures forall m | m in old(members) && !Stale(m, now, limit) :: m in members
    {
      hide Sweep, Stale, Walked;
      var i := 0;
      WalkStarts(members, now, limit);
      while i < |members|
        invariant Valid() && failures >= old(failures)
        invariant failures == old(failures) ==> Walked(old(members), members, i, now, limit)
        invariant forall m | m in members :: m in old(members)
        invariant forall m | m in old(members) && !Stale(m, now, limit) :: m in members
        decreases |members| - i
      {
        var m := members[i];
        ghost var ms := members;
        if Stale(m, now, limit) {
          var raised := RemoveNode(m.id);
          if !raised {
            RemoveAt(members, i);
            WalkRemoves(old(members), members, i, now, limit);
            members := members[..i] + members[i + 1..];
            assert forall x | x in ms && x != m :: x in members;
          }
        } else {
          WalkPasses(old(members), members, i, now, limit);
        }
        i := i + 1;
      }
      WalkEnds(old(members), members, i, now, limit);
    }
  }

  /** The notifications an endpoint gets, one after the other: with no failed call the list is
      what the sweeps make of it; and once fresh members have sent enough of them to halve
      the stale members away, ring and list hold fresh members only. */
  method Receive(endpoint: Endpoint, payloads: seq<Member>, now: int, limit: int)
    requires endpoint.Valid()
    modifies endpoint
    ensures endpoint.Valid() && endpoint.failures >= old(endpoint.failures)
    ensures endpoint.failures == old(endpoint.failures) ==>
              endpoint.members == Notified(old(endpoint.members), payloads, now, limit)
    ensures endpoint.failures == old(endpoint.failures) && Enough(old(endpoint.members), payloads, now, limit) ==>
              forall m | m in endpoint.members :: !Stale(m, now, limit)
  {
    hide Stale, StaleCount, Sweep, Joined;
    for i := 0 to |payloads|
      invariant endpoint.Valid() && endpoint.failures >= old(endpoint.failures)
      invariant endpoint.failures == old(endpoint.failures) ==>
                  endpoint.members == Notified(old(endpoint.members), payloads[..i], now, limit)
    {
      assert payloads[..i + 1][..i] == payloads[..i];
      endpoint.Info(payloads[i], now, limit);
    }
    assert payloads[..|payloads|] == payloads;
    if Enough(old(endpoint.members), payloads, now, limit) {
      AllGone(old(endpoint.members), payloads, now, limit);
    }
  }

  /** Fresh senders, and more notifications than the logarithm of the number of stale members. */
  predicate Enough(ms: seq<Member>, payloads: seq<Member>, now: int, limit: int) {
    && (forall p | p in payloads :: !Stale(p, now, limit))
    && (StaleCount(ms, now, limit) > 0 ==> |payloads| > Log2(StaleCount(ms, now, limit)))
  }

  /** The walk is at position `i`; it may be one past the end. */
  predicate Walked(all: seq<Member>, ms: seq<Member>, i: nat, now: int, limit: int) {
    Sweep(all, now, limit) == if i <= |ms| then ms[..i] + Sweep(ms[i..], now, limit) else ms
  }

  lemma WalkStarts(ms: seq<Member>, now: int, limit: int)
    ensures Walked(ms, ms, 0, now, limit)
  {
  }

  lemma SweepStep(ms: seq<Member>, now: int, limit: int)
    requires ms != []
    ensures !Stale(ms[0], now, limit) ==> Sweep(ms, now, limit) == [ms[0]] + Sweep(ms[1..], now, limit)
    ensures Stale(ms[0], now, limit) && |ms| == 1 ==> Sweep(ms, now, limit) == []
    ensures Stale(ms[0], now, limit) && |ms| > 1 ==> Sweep(ms, now, limit) == [ms[1]] + Sweep(ms[2..], now, limit)
  {
  }

  lemma WalkPasses(all: seq<Member>, ms: seq<Member>, i: nat, now: int, limit: int)
    requires i < |ms| && !Stale(ms[i], now, limit)
    ensures Walked(all, ms, i, now, limit) ==> Walked(all, ms, i + 1, now, limit)
  {
  }

  lemma WalkRemoves(all: seq<Member>, ms: seq<Member>, i: nat, now: int, limit: int)
    requires i < |ms| && Stale(ms[i], now, limit)
    ensures Walked(all, ms, i, now, limit) ==> Walked(all, ms[..i] + ms[i + 1..], i + 1, now, limit)
  {
    SweepStep(ms[i..], now, limit);
    hide Sweep, Stale;
    var r := ms[..i] + ms[i + 1..];
    if i + 1 < |ms| {
      assert ms[i..][2..] == r[i + 1..] && ms[i..][1] == r[i] && r[..i + 1] == ms[..i] + [ms[i + 1]];
    } else {
      assert r == ms[..i] && Sweep(ms[i..], now, limit) == [];
    }
  }

  lemma WalkEnds(all: seq<Member>, ms: seq<Member>, i: nat, now: int, limit: int)
    requires i >= |ms|
    ensures Walked(all, ms, i, now, limit) ==> ms == Sweep(all, now, limit)
  {
  }
}
