/** From OVN rows to reconciliation: which localnet port events an agent takes, what it
    does with them, and the lock all reconciliation runs under. */
module OvnEvents {
  import opened Wrappers
  import opened Names

  /** A logical switch port row; an absent option or tag is None. */
  datatype Row = Row(localnet: bool, name: string, physnet: Option<string>, tag: Option<int>)

  datatype Reaction =
    | Ignored
    | FullPass
    | Targeted(networkId: string, physnet: string, vlan: int, add: bool)

  /** `'-localnet-' in name`. */
  predicate HasLocalnet(name: string) {
    |SplitLocalnet(name)| > 1
  }

  predicate Matches(row: Row, owners: string -> set<string>, agentId: string) {
    && row.localnet && row.name != "" && HasLocalnet(row.name)
    && ExtractNetworkId(row.name).Some? && agentId in owners(ExtractNetworkId(row.name).value)
  }

  /** Incomplete rows lead to a full pass instead; a tag of zero counts as none. */
  function React(row: Row, create: bool, owners: string -> set<string>, agentId: string): Reaction {
    if !Matches(row, owners, agentId) then Ignored
    else
      var n := ExtractNetworkId(row.name).value;
      if n == "" || row.physnet.None? || row.physnet.value == "" || row.tag.None? || row.tag.value == 0 then FullPass
      else Targeted(n, row.physnet.value, row.tag.value, create)
  }

  /** The row the ML2 driver creates for a network on a physical network. */
  function DriverRow(networkId: string, physnet: string, vlan: int): Row {
    Row(true, LocalnetPortName(networkId, physnet), Some(physnet), Some(vlan))
  }

  /** The driver's rows reach the owner of their network, and nobody else, as exactly the
      change they stand for; unless the physical network's own name holds the separator,
      in which case every agent ignores them. (Network ids are hexadecimal.) */
  lemma DriverRowsUnderstood(networkId: string, physnet: string, vlan: int, create: bool,
                             owners: string -> set<string>, agentId: string)
    requires 'l' !in networkId && networkId != "" && physnet != "" && vlan != 0
    ensures React(DriverRow(networkId, physnet, vlan), create, owners, agentId)
         == if SplitLocalnet(physnet) == [physnet] && agentId in owners(networkId)
            then Targeted(networkId, physnet, vlan, create) else Ignored
  {
    LocalnetNameRoundTrip(networkId, physnet);
    LocalnetParts(networkId, physnet);
  }

  lemma LocalnetParts(networkId: string, physnet: string)
    requires 'l' !in networkId
    ensures SplitLocalnet(LocalnetPortName(networkId, physnet)) == [SwitchName(networkId)] + SplitLocalnet(physnet)
    ensures SplitLocalnet(physnet) != [physnet] ==> |SplitLocalnet(physnet)| >= 2
  {
    var s := LocalnetPortName(networkId, physnet);
    LocalnetFirstOccurrence(networkId, physnet);
    assert s[..|SwitchName(networkId)|] == SwitchName(networkId);
    assert s[|SwitchName(networkId)| + |LOCALNET|..] == physnet;
  }

  // ----- The reconciliation lock -------------------------------------------------------

  /** A thread that wants to reconcile: the periodic one skips when the lock is taken, an
      event handler waits for it. */
  datatype Phase = Waiting | Holding | Working | Leaving | Done

  datatype Thread = Thread(periodic: bool, phase: Phase)

  /** `cache` says which thread filled the chassis cache. */
  datatype Threads = Threads(lock: Option<nat>, cache: Option<nat>, all: map<nat, Thread>)

  datatype Step =
    | Acquire       // or skip, for the periodic thread
    | FillCache
    | GiveUp        // no connection, or an exception before the cache is filled
    | Clear         // at the end of the pass, also when it raised
    | Release

  predicate Moves(s: Threads, t: nat, step: Step, s': Threads) {
    && t in s.all
    && var me := s.all[t];
    match step
    case Acquire =>
      && me.phase == Waiting && (s.lock.Some? ==> me.periodic)
      && s' == if s.lock.None? then s.(lock := Some(t), all := s.all[t := me.(phase := Holding)])
               else s.(all := s.all[t := me.(phase := Done)])
    case FillCache =>
      me.phase == Holding && s' == s.(cache := Some(t), all := s.all[t := me.(phase := Working)])
    case GiveUp =>
      me.phase == Holding && s' == s.(all := s.all[t := me.(phase := Leaving)])
    case Clear =>
      me.phase == Working && s' == s.(cache := None, all := s.all[t := me.(phase := Leaving)])
    case Release =>
      me.phase == Leaving && s' == s.(lock := None, all := s.all[t := me.(phase := Done)])
  }

  predicate InLock(ph: Phase) {
    ph == Holding || ph == Working || ph == Leaving
  }

  predicate ThreadsOk(s: Threads) {
    && (forall t | t in s.all :: InLock(s.all[t].phase) <==> s.lock == Some(t))
    && (s.lock.Some? ==> s.lock.value in s.all)
    && (forall t | t in s.all :: s.all[t].phase == Working <==> s.cache == Some(t))
    && (s.cache.Some? ==> s.cache == s.lock)
  }

  predicate Run(states: seq<Threads>, steps: seq<(nat, Step)>) {
    && |states| == |steps| + 1 && states[0].lock.None? && states[0].cache.None?
    && (forall t | t in states[0].all :: states[0].all[t].phase == Waiting)
    && forall k | 0 <= k < |steps| :: Moves(states[k], steps[k].0, steps[k].1, states[k + 1])
  }

  /** In every interleaving the cache is empty whenever the lock is free, and a pass that
      works with the cache works with its own. */
  lemma {:induction false} CacheUnderLock(states: seq<Threads>, steps: seq<(nat, Step)>)
    requires Run(states, steps)
    ensures ThreadsOk(states[|steps|])
    ensures states[|steps|].lock.None? ==> states[|steps|].cache.None?
    decreases |steps|
  {
    var n := |steps|;
    if n > 0 {
      CacheUnderLock(states[..n], steps[..n - 1]);
      MoveKeeps(states[n - 1], steps[n - 1].0, steps[n - 1].1, states[n]);
    }
  }

  lemma MoveKeeps(s: Threads, t: nat, step: Step, s': Threads)
    requires ThreadsOk(s) && Moves(s, t, step, s')
    ensures ThreadsOk(s')
  {
  }
}
