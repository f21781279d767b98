/** From ML2 port binding to trunk VLANs: the driver's steps, the queue of localnet
    events, and the agent's targeted and full passes, in any order. One agent, no
    router ports, no failed calls of the driver; passes of the agent may go wrong in any way
    (`Fail`), with any effect on the trunks. Any number of binds and releases are under
    way at a time, also on one (network, physical network). Two kinds of steps spoil the
    outcome (`Orderly` excludes them), and a full pass can read the two databases out of
    step (`Fits`): what every run without these keeps comes first, then the runs that show
    what each of them can lead to. */
module EndToEnd {
  import opened Wrappers
  import opened Names
  import opened Ovn
  import opened TrunkSpec
  import opened Targeted
  import opened L2vniDriver

  /** What stays fixed: OVN's chassis and groups, the agent's share of them, and the
      physical networks some chassis maps. */
  datatype Env = Env(base: Databases, mine: set<string>, forward: set<string>)

  /** A bind or a release that is under way. */
  datatype Task =
    | Allocated(port: string, seg: Segment)
    | Bridged(port: string, seg: Segment)
    | Left(seg: Segment)       // the port's levels are cleared, other ports not yet looked for
    | Releasing(seg: Segment)  // no other port was found
    | Unbridged(seg: Segment)

  /** What a full pass that is under way has read: first Neutron's segments, then OVN. */
  datatype Pass =
    | Idle
    | Segments(segs: seq<Segment>)
    | Both(db: Databases, segs: seq<Segment>)

  /** `used`: the segment ids there have ever been. */
  datatype Sys = Sys(w: World, tasks: map<nat, Task>, used: set<string>, view: map<string, set<int>>,
                     pass: Pass)

  datatype Action =
    | StartBind(t: nat, port: string, seg: Segment)
    | Bridge(t: nat)
    | Commit(t: nat)
    | Abandon(t: nat)
    | Leave(t: nat, port: string, seg: Segment)
    | Check(t: nat)
    | Unbridge(t: nat)
    | Release(t: nat)
    | Deliver
    | Fail(delivery: bool, view: map<string, set<int>>)
    | ReadSegments(segs: seq<Segment>)
    | ReadPorts(db: Databases)
    | WritePass

  function PlaceOf(s: Segment): Place {
    (s.networkId, s.physnet)
  }

  function Tags(localnets: map<Place, int>, physnet: string): set<int> {
    set place | place in localnets && place.1 == physnet :: localnets[place]
  }

  predicate Listed(segments: set<Segment>, place: Place, tag: int) {
    exists s :: s in segments && VlanAt(s, place) && s.segmentationId == tag
  }

  /** A new VLAN segment: nobody has or had its id, nor has its VLAN on that physical network. */
  predicate Fresh(s: Sys, seg: Segment) {
    && seg.id !in s.used
    && (forall x | x in s.w.segments && x.kind == VlanSegment && x.physnet == seg.physnet ::
          x.segmentationId != seg.segmentationId && x.networkId != seg.networkId)
  }

  /** The OVN databases as they are while these localnet ports exist. */
  ghost predicate Reflects(e: Env, localnets: map<Place, int>, db: Databases) {
    && db.chassis == e.base.chassis && db.groups == e.base.groups
    && (forall n, p :: HasLocalnetPort(db, n, p) <==> (n, p) in localnets)
    && (forall n :: RouterChassis(db, n) == {})
  }

  // ----- Steps ---------------------------------------------------------------

  predicate Binds(task: Task) {
    task.Allocated? || task.Bridged?
  }

  /** The release has found no other port. */
  predicate PastCheck(task: Task) {
    task.Releasing? || task.Unbridged?
  }

  /** Any step the code can take. Deliveries wait while a full pass is under way: both
      take the reconciliation lock. The driver takes no lock. */
  ghost predicate Does(e: Env, s: Sys, a: Action, s': Sys) {
    match a
    case StartBind(t, port, seg) =>
      && t !in s.tasks && seg.kind == VlanSegment && (seg in s.w.segments || Fresh(s, seg))
      && s' == s.(w := s.w.(segments := s.w.segments + {seg}), tasks := s.tasks[t := Allocated(port, seg)],
                  used := s.used + {seg.id})
    case Bridge(t) =>
      && t in s.tasks && s.tasks[t].Allocated?
      && var seg := s.tasks[t].seg;
      s' == s.(w := if seg.physnet in e.forward then Ensured(s.w, PlaceOf(seg), seg.segmentationId) else s.w,
               tasks := s.tasks[t := Bridged(s.tasks[t].port, seg)])
    case Commit(t) =>
      && t in s.tasks && s.tasks[t].Bridged?
      && s' == s.(w := s.w.(levels := s.w.levels[s.tasks[t].port := s.tasks[t].seg.id]), tasks := s.tasks - {t})
    case Abandon(t) =>
      t in s.tasks && Binds(s.tasks[t]) && s' == s.(tasks := s.tasks - {t})
    case Leave(t, port, seg) =>
      && t !in s.tasks && port in s.w.levels && seg in s.w.segments && seg.kind == VlanSegment
      && seg.id == s.w.levels[port]
      && s' == s.(w := s.w.(levels := s.w.levels - {port}), tasks := s.tasks[t := Left(seg)])
    case Check(t) =>
      && t in s.tasks && s.tasks[t].Left?
      && s' == s.(tasks := if LastOut(s.w.levels, Some(s.tasks[t].seg)) then s.tasks[t := Releasing(s.tasks[t].seg)]
                           else s.tasks - {t})
    case Unbridge(t) =>
      && t in s.tasks && s.tasks[t].Releasing?
      && s' == s.(w := Removed(s.w, PlaceOf(s.tasks[t].seg)), tasks := s.tasks[t := Unbridged(s.tasks[t].seg)])
    case Release(t) =>
      && t in s.tasks && s.tasks[t].Unbridged?
      && s' == s.(w := Released(s.w, s.tasks[t].seg.id), tasks := s.tasks - {t})
    case Deliver =>
      && s.pass.Idle? && s.w.events != []
      && var ev := s.w.events[0];
      s' == s.(w := s.w.(events := s.w.events[1..]),
               view := if ev.create && !Listed(s.w.segments, ev.place, ev.tag) then s.view
                       else TargetView(s.view, e.base, e.mine, ev.place.1, ev.tag, ev.create))
    case Fail(delivery, view) =>
      && (delivery ==> s.pass.Idle? && s.w.events != [])
      && s' == s.(w := if delivery then s.w.(events := s.w.events[1..]) else s.w, view := view, pass := Idle)
    case ReadSegments(segs) =>
      s.pass.Idle? && (forall seg :: seg in segs <==> seg in s.w.segments) && s' == s.(pass := Segments(segs))
    case ReadPorts(db) =>
      s.pass.Segments? && Reflects(e, s.w.localnets, db) && s' == s.(pass := Both(db, s.pass.segs))
    case WritePass =>
      s.pass.Both? && s' == s.(view := PassView(s.view, s.pass.db, s.pass.segs, e.mine), pass := Idle)
  }

  ghost predicate Init(e: Env, s: Sys) {
    && SegsOk(s.w.segments) && (forall x | x in s.w.segments :: x.id in s.used)
    && s.w.levels == map[] && s.w.localnets == map[] && s.w.events == [] && s.tasks == map[] && s.pass.Idle?
    && forall k | k in MyPairs(e.base, e.mine) :: At(s.view, TrunkName(k.0, k.1)) == {}
  }

  ghost predicate Run(e: Env, states: seq<Sys>, actions: seq<Action>) {
    && |states| == |actions| + 1 && Init(e, states[0])
    && forall i | 0 <= i < |actions| :: Does(e, states[i], actions[i], states[i + 1])
  }

  // ----- Which steps are safe --------------------------------------------------

  /** What the release still has to do would undo a bind on its place: its segment is still
      there, or a localnet port may be. */
  predicate Hurts(e: Env, segments: set<Segment>, task: Task) {
    PastCheck(task) && (task.seg in segments || (task.Releasing? && task.seg.physnet in e.forward))
  }

  /** No bind is under way on the place, and no port is bound to its segment. */
  predicate Quiet(w: World, tasks: map<nat, Task>, place: Place) {
    && (forall t | t in tasks && Binds(tasks[t]) :: PlaceOf(tasks[t].seg) != place)
    && (forall x | x in w.segments && VlanAt(x, place) :: !InUse(w.levels, x.id))
  }

  /** A bind does not start while a release on its place has something to undo, and a release
      that is about to get there finds its place quiet. Everything else may overlap. */
  predicate Orderly(e: Env, s: Sys, a: Action) {
    match a
    case StartBind(_, _, seg) =>
      forall t | t in s.tasks && PlaceOf(s.tasks[t].seg) == PlaceOf(seg) :: !Hurts(e, s.w.segments, s.tasks[t])
    case Check(t) =>
      t in s.tasks && LastOut(s.w.levels, Some(s.tasks[t].seg)) && Hurts(e, s.w.segments, Releasing(s.tasks[t].seg)) ==>
        Quiet(s.w, s.tasks, PlaceOf(s.tasks[t].seg))
    case _ => true
  }

  predicate OrderlyRun(e: Env, states: seq<Sys>, actions: seq<Action>)
    requires |states| == |actions| + 1
  {
    forall i | 0 <= i < |actions| :: Orderly(e, states[i], actions[i])
  }

  // ----- Replaying events ----------------------------------------------------

  /** The VLANs of a trunk on `physnet` once the pending events have been applied to it. */
  function Replay(events: seq<Event>, physnet: string, vlans: set<int>): set<int> {
    if events == [] then vlans
    else
      var ev := events[0];
      Replay(events[1..], physnet, if ev.place.1 == physnet then Changed(vlans, ev.tag, ev.create) else vlans)
  }

  predicate Concerns(ev: Event, physnet: string, tag: int) {
    ev.place.1 == physnet && ev.tag == tag
  }

  /** The last pending event on a VLAN of a physical network. */
  function Last(events: seq<Event>, physnet: string, tag: int): (r: Option<Event>)
    ensures r.Some? ==> Concerns(r.value, physnet, tag)
    decreases |events|
  {
    if events == [] then None
    else
      var n := |events| - 1;
      if Concerns(events[n], physnet, tag) then Some(events[n]) else Last(events[..n], physnet, tag)
  }

  lemma LastSnoc(events: seq<Event>, ev: Event)
    ensures forall p, v :: Last(events + [ev], p, v) == if Concerns(ev, p, v) then Some(ev) else Last(events, p, v)
  {
  }

  lemma {:induction false} LastTail(events: seq<Event>, physnet: string, tag: int)
    requires events != []
    ensures Last(events, physnet, tag)
         == if Last(events[1..], physnet, tag).Some? then Last(events[1..], physnet, tag)
            else if Concerns(events[0], physnet, tag) then Some(events[0]) else None
    decreases |events|
  {
    var n := |events| - 1;
    if n > 0 {
      assert events[1..][..n - 1] == events[..n][1..] && events[1..][n - 1] == events[n];
      LastTail(events[..n], physnet, tag);
    }
  }

  /** A VLAN survives replay when its last event is a creation, or when it has none
      and was there. */
  lemma {:induction false} ReplayIs(events: seq<Event>, physnet: string, vlans: set<int>, tag: int)
    ensures tag in Replay(events, physnet, vlans)
       <==> match Last(events, physnet, tag) case Some(ev) => ev.create case None => tag in vlans
    decreases |events|
  {
    if events != [] {
      var ev := events[0];
      var vlans' := if ev.place.1 == physnet then Changed(vlans, ev.tag, ev.create) else vlans;
      ReplayIs(events[1..], physnet, vlans', tag);
      LastTail(events, physnet, tag);
    }
  }

  // ----- The invariant -------------------------------------------------------

  /** Ids are unique, a network has one VLAN segment per physical network, and VLANs
      are not shared on one. */
  predicate SegsOk(segments: set<Segment>) {
    forall a, b | a in segments && b in segments ::
      && (a.id == b.id ==> a == b)
      && (SameVlanSegment(a, b) ==> a == b)
  }

  predicate SameVlanSegment(a: Segment, b: Segment) {
    && a.kind == VlanSegment && b.kind == VlanSegment && a.physnet == b.physnet
    && (a.networkId == b.networkId || a.segmentationId == b.segmentationId)
  }

  predicate Backed(w: World) {
    forall place | place in w.localnets :: Listed(w.segments, place, w.localnets[place])
  }

  predicate BridgedAt(e: Env, w: World, seg: Segment) {
    var place := PlaceOf(seg);
    place.1 in e.forward ==> place in w.localnets && w.localnets[place] == seg.segmentationId
  }

  /** A task's segment is the one with that id, if one is left; a bind's is. */
  predicate SegmentOk(s: Sys, task: Task) {
    && task.seg.kind == VlanSegment && task.seg.id in s.used
    && (forall x | x in s.w.segments && x.id == task.seg.id :: x == task.seg)
    && (Binds(task) ==> task.seg in s.w.segments)
  }

  predicate TaskOk(e: Env, s: Sys, task: Task) {
    && (task.Bridged? ==> BridgedAt(e, s.w, task.seg))
    && (Hurts(e, s.w.segments, task) ==> Quiet(s.w, s.tasks, PlaceOf(task.seg)))
    && (task.Unbridged? && task.seg in s.w.segments ==> PlaceOf(task.seg) !in s.w.localnets)
  }

  predicate Base(s: Sys) {
    && SegsOk(s.w.segments) && (forall x | x in s.w.segments :: x.id in s.used)
    && forall t | t in s.tasks :: SegmentOk(s, s.tasks[t])
  }

  /** While a port is bound its segment exists, and where some chassis maps the
      physical network the localnet port carries the segment's VLAN. */
  predicate BoundOk(e: Env, w: World, port: string)
    requires port in w.levels
  {
    exists seg :: seg in w.segments && seg.kind == VlanSegment && seg.id == w.levels[port] && BridgedAt(e, w, seg)
  }

  /** Pending events do not contradict the localnet ports there are. */
  ghost predicate EventsOk(w: World) {
    forall p, v :: EventOk(w, p, v)
  }

  predicate EventOk(w: World, physnet: string, tag: int) {
    match Last(w.events, physnet, tag)
    case None => true
    case Some(ev) =>
      if ev.create then ev.place in w.localnets && w.localnets[ev.place] == tag
      else tag !in Tags(w.localnets, physnet)
  }

  /** A set of VLANs that differs from the tags only where an event is pending. */
  ghost predicate Follows(w: World, physnet: string, vlans: set<int>) {
    forall v | Last(w.events, physnet, v).None? :: v in vlans <==> v in Tags(w.localnets, physnet)
  }

  ghost predicate ViewOk(e: Env, s: Sys) {
    forall k | k in MyPairs(e.base, e.mine) :: Follows(s.w, k.1, At(s.view, TrunkName(k.0, k.1)))
  }

  function SetOf(segs: seq<Segment>): set<Segment> {
    set seg | seg in segs
  }

  predicate Carries(localnets: map<Place, int>, place: Place, tag: int) {
    place in localnets && localnets[place] == tag
  }

  /** A pass that has read the segments knows those of all localnet ports, pending events aside. */
  ghost predicate PassOk(s: Sys) {
    s.pass.Segments? ==>
      && SegsOk(SetOf(s.pass.segs))
      && forall q, v | Carries(s.w.localnets, q, v) && Last(s.w.events, q.1, v).None? ::
          Listed(SetOf(s.pass.segs), q, v)
  }

  /** What a pass has read of both databases is what belongs on the trunks, pending events aside. */
  ghost predicate ReadOk(e: Env, s: Sys) {
    s.pass.Both? ==>
      && ValidPairs(s.pass.db) == ValidPairs(e.base)
      && forall k | k in MyPairs(e.base, e.mine) :: Follows(s.w, k.1, RequiredVlans(s.pass.db, s.pass.segs, k))
  }

  /** OVN is read while it still fits the segments read before: a place that has a localnet port
      now has it for the segment listed then, or that one's VLAN has an event pending. */
  predicate Fits(s: Sys) {
    s.pass.Segments? ==>
      forall x | x in s.pass.segs && x.kind == VlanSegment && PlaceOf(x) in s.w.localnets ::
        Carries(s.w.localnets, PlaceOf(x), x.segmentationId) || Last(s.w.events, x.physnet, x.segmentationId).Some?
  }

  /** All of it but the trunks. */
  ghost predicate DriverInv(e: Env, s: Sys) {
    && Base(s) && Backed(s.w) && EventsOk(s.w)
    && (forall t | t in s.tasks :: TaskOk(e, s, s.tasks[t]))
    && (forall port | port in s.w.levels :: BoundOk(e, s.w, port))
  }

  lemma InitOk(e: Env, s: Sys)
    requires Init(e, s)
    ensures DriverInv(e, s) && ViewOk(e, s) && PassOk(s) && ReadOk(e, s)
  {
  }

  // ----- Every orderly step keeps it -------------------------------------------

  /** Two localnet ports on one physical network never carry the same tag. */
  lemma TagsDistinct(w: World, a: Place, b: Place)
    requires SegsOk(w.segments) && Backed(w) && a in w.localnets && b in w.localnets
    requires a.1 == b.1 && w.localnets[a] == w.localnets[b]
    ensures a == b
  {
  }

  /** A localnet port has the tag of the one VLAN segment of its place. */
  lemma TagIs(w: World, seg: Segment)
    requires SegsOk(w.segments) && Backed(w) && seg in w.segments && seg.kind == VlanSegment
    requires PlaceOf(seg) in w.localnets
    ensures w.localnets[PlaceOf(seg)] == seg.segmentationId
  {
  }

  /** Localnet ports only come and go where an event is pending afterwards. */
  ghost predicate Steady(w: World, w': World) {
    forall q: Place, v: int | Last(w'.events, q.1, v).None? ::
      Last(w.events, q.1, v).None? && (Carries(w'.localnets, q, v) <==> Carries(w.localnets, q, v))
  }

  lemma TagCarried(localnets: map<Place, int>, physnet: string, tag: int)
    ensures tag in Tags(localnets, physnet) <==> exists q: Place :: q.1 == physnet && Carries(localnets, q, tag)
  {
    if tag in Tags(localnets, physnet) {
      var q :| q in localnets && q.1 == physnet && localnets[q] == tag;
      assert Carries(localnets, q, tag);
    }
  }

  lemma EventsAfterCreate(w: World, place: Place, tag: int)
    requires EventsOk(w) && place !in w.localnets
    ensures EventsOk(Ensured(w, place, tag)) && Steady(w, Ensured(w, place, tag))
  {
    var w' := Ensured(w, place, tag);
    LastSnoc(w.events, Event(true, place, tag));
    assert w'.events == w.events + [Event(true, place, tag)];
    forall p, v
      ensures EventOk(w', p, v)
      ensures p != place.1 || v != tag ==> (v in Tags(w'.localnets, p) <==> v in Tags(w.localnets, p))
    {
      assert EventOk(w, p, v);
      forall q | q in w.localnets ensures q in w'.localnets && w'.localnets[q] == w.localnets[q] {
      }
    }
  }

  lemma EventsAfterRemove(w: World, place: Place)
    requires EventsOk(w) && SegsOk(w.segments) && Backed(w) && place in w.localnets
    ensures EventsOk(Removed(w, place)) && Steady(w, Removed(w, place))
  {
    var w' := Removed(w, place);
    var tag := w.localnets[place];
    LastSnoc(w.events, Event(false, place, tag));
    forall q | q in w'.localnets && q.1 == place.1 ensures w'.localnets[q] != tag {
      if w.localnets[q] == tag { TagsDistinct(w, q, place); }
    }
    forall p, v
      ensures EventOk(w', p, v)
      ensures p != place.1 || v != tag ==> (v in Tags(w'.localnets, p) <==> v in Tags(w.localnets, p))
    {
      assert EventOk(w, p, v);
      forall q | q in w.localnets && q != place ensures q in w'.localnets && w'.localnets[q] == w.localnets[q] {
      }
    }
  }

  lemma SameStores(w: World, w': World)
    requires w'.localnets == w.localnets && w'.events == w.events
    ensures EventsOk(w) ==> EventsOk(w')
    ensures Steady(w, w')
  {
    if EventsOk(w) {
      forall p, v ensures EventOk(w', p, v) { assert EventOk(w, p, v); }
    }
  }

  /** The segments, whoever starts what; but a release must not take a bind's segment. */
  lemma BaseKeeps(e: Env, s: Sys, a: Action, s': Sys)
    requires Base(s) && Does(e, s, a, s')
    requires a.Release? ==> forall u | u in s.tasks && Binds(s.tasks[u]) :: s.tasks[u].seg.id != s.tasks[a.t].seg.id
    ensures Base(s')
  {
    hide EventsOk, Last, Tags, Reflects, TargetView, PassView;
    if a.StartBind? {
      StartBindBase(e, s, a.t, a.port, a.seg, s');
    } else {
      assert forall x | x in s'.w.segments :: x in s.w.segments;
      forall t | t in s'.tasks ensures SegmentOk(s', s'.tasks[t]) {
        if t in s.tasks { assert SegmentOk(s, s.tasks[t]); }
      }
    }
  }

  lemma StartBindBase(e: Env, s: Sys, t: nat, port: string, seg: Segment, s': Sys)
    requires Base(s) && Does(e, s, StartBind(t, port, seg), s')
    ensures Base(s')
  {
    assert SegsOk(s'.w.segments);
    forall u | u in s.tasks ensures SegmentOk(s', s.tasks[u]) {
      assert SegmentOk(s, s.tasks[u]);
    }
  }

  /** A release on another place, or one with nothing left to undo, is not disturbed. */
  lemma StartBindKeeps(e: Env, s: Sys, t: nat, port: string, seg: Segment, s': Sys)
    requires DriverInv(e, s) && Does(e, s, StartBind(t, port, seg), s') && Orderly(e, s, StartBind(t, port, seg))
    ensures DriverInv(e, s') && Steady(s.w, s'.w)
  {
    hide EventsOk, Steady, Last, TaskOk;
    BaseKeeps(e, s, StartBind(t, port, seg), s');
    SameStores(s.w, s'.w);
    forall q | q in s.w.localnets ensures Listed(s'.w.segments, q, s.w.localnets[q]) {
      var x :| x in s.w.segments && VlanAt(x, q) && x.segmentationId == s.w.localnets[q];
      assert x in s'.w.segments;
    }
    StartBindTasks(e, s, t, port, seg, s');
    forall p | p in s.w.levels ensures BoundOk(e, s'.w, p) {
      assert BoundOk(e, s.w, p);
    }
  }

  lemma StartBindTasks(e: Env, s: Sys, t: nat, port: string, seg: Segment, s': Sys)
    requires DriverInv(e, s) && Does(e, s, StartBind(t, port, seg), s') && Orderly(e, s, StartBind(t, port, seg))
    ensures forall u | u in s'.tasks :: TaskOk(e, s', s'.tasks[u])
  {
    hide EventsOk, BoundOk, SegsOk;
    forall u | u in s.tasks ensures TaskOk(e, s', s.tasks[u]) {
      assert SegmentOk(s, s.tasks[u]) && TaskOk(e, s, s.tasks[u]);
    }
  }

  lemma BridgeKeeps(e: Env, s: Sys, t: nat, s': Sys)
    requires DriverInv(e, s) && Does(e, s, Bridge(t), s')
    ensures DriverInv(e, s') && Steady(s.w, s'.w)
  {
    hide EventsOk, Steady, Last, TaskOk;
    var seg := s.tasks[t].seg;
    var place := PlaceOf(seg);
    assert SegmentOk(s, s.tasks[t]) && TaskOk(e, s, s.tasks[t]);
    BaseKeeps(e, s, Bridge(t), s');
    if place in s.w.localnets { TagIs(s.w, seg); }
    if seg.physnet in e.forward && place !in s.w.localnets {
      EventsAfterCreate(s.w, place, seg.segmentationId);
    } else {
      SameStores(s.w, s'.w);
    }
    BridgeTasks(e, s, t, s');
    assert Listed(s'.w.segments, place, seg.segmentationId);
    forall p | p in s.w.levels ensures BoundOk(e, s'.w, p) {
      assert BoundOk(e, s.w, p);
    }
  }

  lemma BridgeTasks(e: Env, s: Sys, t: nat, s': Sys)
    requires DriverInv(e, s) && Does(e, s, Bridge(t), s')
    ensures forall u | u in s'.tasks :: TaskOk(e, s', s'.tasks[u])
  {
    hide EventsOk, BoundOk;
    var seg := s.tasks[t].seg;
    assert SegmentOk(s, s.tasks[t]);
    if PlaceOf(seg) in s.w.localnets { TagIs(s.w, seg); }
    forall u | u in s.tasks && u != t ensures TaskOk(e, s', s.tasks[u]) {
      assert SegmentOk(s, s.tasks[u]) && TaskOk(e, s, s.tasks[u]);
      assert Binds(s.tasks[t]) && Binds(s'.tasks[t]);
    }
  }

  lemma CommitKeeps(e: Env, s: Sys, t: nat, s': Sys)
    requires DriverInv(e, s) && Does(e, s, Commit(t), s')
    ensures DriverInv(e, s') && Steady(s.w, s'.w)
  {
    hide EventsOk, Steady, Last;
    var task := s.tasks[t];
    assert SegmentOk(s, task) && TaskOk(e, s, task) && Binds(task);
    BaseKeeps(e, s, Commit(t), s');
    SameStores(s.w, s'.w);
    forall u | u in s'.tasks ensures TaskOk(e, s', s'.tasks[u]) {
      assert SegmentOk(s, s.tasks[u]) && TaskOk(e, s, s.tasks[u]);
    }
    forall p | p in s'.w.levels ensures BoundOk(e, s'.w, p) {
      if p != task.port { assert BoundOk(e, s.w, p); }
    }
  }

  lemma AbandonKeeps(e: Env, s: Sys, t: nat, s': Sys)
    requires DriverInv(e, s) && Does(e, s, Abandon(t), s')
    ensures DriverInv(e, s') && Steady(s.w, s'.w)
  {
    hide EventsOk, Steady, Last, BoundOk, BridgedAt, InUse, SegmentOk;
    BaseKeeps(e, s, Abandon(t), s');
    SameStores(s.w, s'.w);
    forall u | u in s'.tasks ensures TaskOk(e, s', s'.tasks[u]) {
      assert TaskOk(e, s, s.tasks[u]);
    }
  }

  lemma LeaveKeeps(e: Env, s: Sys, t: nat, port: string, seg: Segment, s': Sys)
    requires DriverInv(e, s) && Does(e, s, Leave(t, port, seg), s')
    ensures DriverInv(e, s') && Steady(s.w, s'.w)
  {
    hide EventsOk, Steady, SegmentOk, Listed;
    BaseKeeps(e, s, Leave(t, port, seg), s');
    SameStores(s.w, s'.w);
    forall u | u in s'.tasks ensures TaskOk(e, s', s'.tasks[u]) {
      if u != t { assert TaskOk(e, s, s.tasks[u]); }
    }
    forall p | p in s'.w.levels ensures BoundOk(e, s'.w, p) {
      assert BoundOk(e, s.w, p);
    }
  }

  lemma CheckKeeps(e: Env, s: Sys, t: nat, s': Sys)
    requires DriverInv(e, s) && Does(e, s, Check(t), s') && Orderly(e, s, Check(t))
    ensures DriverInv(e, s') && Steady(s.w, s'.w)
  {
    hide EventsOk, Steady, Last, BoundOk, BridgedAt, InUse, SegmentOk;
    BaseKeeps(e, s, Check(t), s');
    SameStores(s.w, s'.w);
    forall u | u in s'.tasks ensures TaskOk(e, s', s'.tasks[u]) {
      assert TaskOk(e, s, s.tasks[u]);
    }
  }

  lemma UnbridgeKeeps(e: Env, s: Sys, t: nat, s': Sys)
    requires DriverInv(e, s) && Does(e, s, Unbridge(t), s')
    ensures DriverInv(e, s') && Steady(s.w, s'.w)
  {
    hide EventsOk, Steady, Last;
    var seg := s.tasks[t].seg;
    var place := PlaceOf(seg);
    assert SegmentOk(s, s.tasks[t]) && TaskOk(e, s, s.tasks[t]);
    BaseKeeps(e, s, Unbridge(t), s');
    if place in s.w.localnets { EventsAfterRemove(s.w, place); } else { SameStores(s.w, s'.w); }
    UnbridgeTasks(e, s, t, s');
    forall p | p in s.w.levels ensures BoundOk(e, s'.w, p) {
      assert BoundOk(e, s.w, p);
    }
  }

  lemma UnbridgeTasks(e: Env, s: Sys, t: nat, s': Sys)
    requires DriverInv(e, s) && Does(e, s, Unbridge(t), s')
    ensures forall u | u in s'.tasks :: TaskOk(e, s', s'.tasks[u])
  {
    hide EventsOk, BoundOk;
    assert SegmentOk(s, s.tasks[t]) && TaskOk(e, s, s.tasks[t]);
    forall u | u in s'.tasks ensures TaskOk(e, s', s'.tasks[u]) {
      assert SegmentOk(s, s.tasks[u]) && TaskOk(e, s, s.tasks[u]);
    }
  }

  /** A release that finds its segment leaves neither segment nor localnet port on the place. */
  lemma ReleaseKeeps(e: Env, s: Sys, t: nat, s': Sys)
    requires DriverInv(e, s) && Does(e, s, Release(t), s')
    ensures DriverInv(e, s') && Steady(s.w, s'.w)
    ensures s.tasks[t].seg in s.w.segments ==>
              PlaceOf(s.tasks[t].seg) !in s'.w.localnets && forall x | x in s'.w.segments ::
                  !VlanAt(x, PlaceOf(s.tasks[t].seg))
  {
    hide EventsOk, Steady, Last;
    var seg := s.tasks[t].seg;
    assert SegmentOk(s, s.tasks[t]) && TaskOk(e, s, s.tasks[t]);
    assert forall u | u in s.tasks && Binds(s.tasks[u]) :: SegmentOk(s, s.tasks[u]);
    BaseKeeps(e, s, Release(t), s');
    SameStores(s.w, s'.w);
    forall q | q in s.w.localnets ensures Listed(s'.w.segments, q, s.w.localnets[q]) {
      var x :| x in s.w.segments && VlanAt(x, q) && x.segmentationId == s.w.localnets[q];
      assert x in s'.w.segments;
    }
    forall u | u in s'.tasks ensures TaskOk(e, s', s'.tasks[u]) {
      assert SegmentOk(s, s.tasks[u]) && TaskOk(e, s, s.tasks[u]);
    }
    forall p | p in s'.w.levels ensures BoundOk(e, s'.w, p) {
      assert BoundOk(e, s.w, p);
      var x :| x in s.w.segments && x.kind == VlanSegment && x.id == s.w.levels[p] && BridgedAt(e, s.w, x);
      assert x in s'.w.segments;
    }
  }

  lemma TouchedAt(e: Env, view: map<string, set<int>>, k: Key, physnet: string, tag: int, add: bool)
    requires DashFree(e.base) && k in MyPairs(e.base, e.mine)
    ensures At(TargetView(view, e.base, e.mine, physnet, tag, add), TrunkName(k.0, k.1))
         == if k.1 == physnet then Changed(At(view, TrunkName(k.0, k.1)), tag, add) else At(view, TrunkName(k.0, k.1))
  {
    TrunkNameRoundTrip(k.0, k.1);
    OnPhysnet(e.base, e.mine, physnet, TrunkName(k.0, k.1));
    assert Managed(e.base, e.mine, TrunkName(k.0, k.1));
  }

  lemma FailKeeps(e: Env, s: Sys, delivery: bool, view: map<string, set<int>>, s': Sys)
    requires DriverInv(e, s) && Does(e, s, Fail(delivery, view), s')
    ensures DriverInv(e, s')
  {
    EventGone(e, s, s', delivery);
  }

  /** An event leaves the queue, or none; the driver's part stays. */
  lemma EventGone(e: Env, s: Sys, s': Sys, first: bool)
    requires DriverInv(e, s) && s'.tasks == s.tasks && s'.used == s.used && (first ==> s.w.events != [])
    requires s'.w == if first then s.w.(events := s.w.events[1..]) else s.w
    ensures DriverInv(e, s')
  {
    forall p, v ensures EventOk(s'.w, p, v) {
      assert EventOk(s.w, p, v);
      if first { LastTail(s.w.events, p, v); }
    }
    forall t | t in s'.tasks ensures SegmentOk(s', s'.tasks[t]) && TaskOk(e, s', s'.tasks[t]) {
      assert SegmentOk(s, s.tasks[t]) && TaskOk(e, s, s.tasks[t]);
    }
    forall port | port in s'.w.levels ensures BoundOk(e, s'.w, port) {
      assert BoundOk(e, s.w, port);
    }
  }

  /** Also when a creation is skipped because its segment has been released: then a
      later event on the same VLAN is still pending. */
  lemma DeliverKeeps(e: Env, s: Sys, s': Sys)
    requires DashFree(e.base) && DriverInv(e, s) && Does(e, s, Deliver, s')
    ensures DriverInv(e, s') && (ViewOk(e, s) ==> ViewOk(e, s'))
  {
    EventGone(e, s, s', true);
    if ViewOk(e, s) {
      forall k | k in MyPairs(e.base, e.mine) ensures Follows(s'.w, k.1, At(s'.view, TrunkName(k.0, k.1))) {
        DeliveredAt(e, s, s', k);
      }
    }
  }

  lemma DeliveredAt(e: Env, s: Sys, s': Sys, k: Key)
    requires DashFree(e.base) && DriverInv(e, s) && Does(e, s, Deliver, s') && k in MyPairs(e.base, e.mine)
    requires Follows(s.w, k.1, At(s.view, TrunkName(k.0, k.1)))
    ensures Follows(s'.w, k.1, At(s'.view, TrunkName(k.0, k.1)))
  {
    var ev := s.w.events[0];
    TouchedAt(e, s.view, k, ev.place.1, ev.tag, ev.create);
    forall v | Last(s'.w.events, k.1, v).None?
      ensures v in At(s'.view, TrunkName(k.0, k.1)) <==> v in Tags(s'.w.localnets, k.1)
    {
      LastTail(s.w.events, k.1, v);
      assert EventOk(s.w, k.1, v);
      assert ev.create && Concerns(ev, k.1, v) ==> Listed(s.w.segments, ev.place, ev.tag);
    }
  }

  /** What a full pass that reads both at one moment requires on a trunk are the tags of the
      localnet ports. */
  lemma RequiredIsTags(e: Env, w: World, db: Databases, segs: seq<Segment>, k: Key)
    requires SegsOk(w.segments) && Backed(w) && Reflects(e, w.localnets, db) && k in ValidPairs(e.base)
    requires forall seg :: seg in segs <==> seg in w.segments
    ensures RequiredVlans(db, segs, k) == Tags(w.localnets, k.1)
  {
  }

  lemma ReadSegmentsKeeps(e: Env, s: Sys, segs: seq<Segment>, s': Sys)
    requires DriverInv(e, s) && Does(e, s, ReadSegments(segs), s')
    ensures DriverInv(e, s') && PassOk(s') && ReadOk(e, s') && (ViewOk(e, s) ==> ViewOk(e, s'))
  {
    EventGone(e, s, s', false);
    assert SetOf(segs) == s.w.segments;
  }

  /** Where OVN still fits the segments read before, the required VLANs are the tags, pending
      events aside; `StaleReadAddsVlan` is the other half. */
  lemma ReadAt(e: Env, s: Sys, db: Databases, k: Key)
    requires s.pass.Segments? && PassOk(s) && Reflects(e, s.w.localnets, db) && k in ValidPairs(e.base)
    ensures Fits(s) ==> Follows(s.w, k.1, RequiredVlans(db, s.pass.segs, k))
  {
    var segs := s.pass.segs;
    forall v | Last(s.w.events, k.1, v).None?
      ensures v in Tags(s.w.localnets, k.1) ==> v in RequiredVlans(db, segs, k)
      ensures Fits(s) && v in RequiredVlans(db, segs, k) ==> v in Tags(s.w.localnets, k.1)
    {
      if v in Tags(s.w.localnets, k.1) {
        TagCarried(s.w.localnets, k.1, v);
        var q: Place :| q.1 == k.1 && Carries(s.w.localnets, q, v);
        var x :| x in SetOf(segs) && VlanAt(x, q) && x.segmentationId == v;
        assert HasLocalnetPort(db, x.networkId, k.1) && Requires(db, x, k);
      }
      if Fits(s) && v in RequiredVlans(db, segs, k) {
        var x :| x in segs && Requires(db, x, k) && x.segmentationId == v;
        assert HasLocalnetPort(db, x.networkId, k.1);
        assert Carries(s.w.localnets, PlaceOf(x), v);
      }
    }
  }

  lemma ReadPortsKeeps(e: Env, s: Sys, db: Databases, s': Sys)
    requires DriverInv(e, s) && PassOk(s) && Does(e, s, ReadPorts(db), s')
    ensures DriverInv(e, s') && PassOk(s') && (Fits(s) ==> ReadOk(e, s')) && (ViewOk(e, s) ==> ViewOk(e, s'))
  {
    assert ValidPairs(db) == ValidPairs(e.base);
    EventGone(e, s, s', false);
    forall k | k in MyPairs(e.base, e.mine) && Fits(s) ensures Follows(s'.w, k.1, RequiredVlans(db, s.pass.segs, k)) {
      ReadAt(e, s, db, k);
    }
  }

  /** Whatever state the trunks were in, with events still pending, and with the driver's
      steps between and after the reads: the trunks carry what was read; where that was right
      it differs from the tags only where an event is pending. */
  lemma FullPassHeals(e: Env, s: Sys, s': Sys)
    requires DashFree(e.base) && DriverInv(e, s) && Does(e, s, WritePass, s')
               && ValidPairs(s.pass.db) == ValidPairs(e.base)
    ensures DriverInv(e, s') && PassOk(s') && ReadOk(e, s')
    ensures ReadOk(e, s) ==> ViewOk(e, s')
    ensures forall k | k in MyPairs(e.base, e.mine) ::
              At(s'.view, TrunkName(k.0, k.1)) == RequiredVlans(s.pass.db, s.pass.segs, k)
  {
    EventGone(e, s, s', false);
    forall k | k in MyPairs(e.base, e.mine)
      ensures At(s'.view, TrunkName(k.0, k.1)) == RequiredVlans(s.pass.db, s.pass.segs, k)
    {
      FullAt(s.view, s.pass.db, s.pass.segs, e.mine, k);
    }
  }

  predicate ByDriver(a: Action) {
    !a.Deliver? && !a.Fail? && !a.ReadSegments? && !a.ReadPorts? && !a.WritePass?
  }

  lemma DriverStepKeeps(e: Env, s: Sys, a: Action, s': Sys)
    requires ByDriver(a) && DriverInv(e, s) && Does(e, s, a, s') && Orderly(e, s, a)
    ensures DriverInv(e, s') && Steady(s.w, s'.w) && s'.view == s.view && s'.pass == s.pass
  {
    hide DriverInv, Steady, Orderly;
    match a {
      case StartBind(t, port, seg) => StartBindKeeps(e, s, t, port, seg, s');
      case Bridge(t) => BridgeKeeps(e, s, t, s');
      case Commit(t) => CommitKeeps(e, s, t, s');
      case Abandon(t) => AbandonKeeps(e, s, t, s');
      case Leave(t, port, seg) => LeaveKeeps(e, s, t, port, seg, s');
      case Check(t) => CheckKeeps(e, s, t, s');
      case Unbridge(t) => UnbridgeKeeps(e, s, t, s');
      case Release(t) => ReleaseKeeps(e, s, t, s');
    }
  }

  lemma SteadyKeeps(e: Env, s: Sys, s': Sys)
    requires Steady(s.w, s'.w) && s'.view == s.view && s'.pass == s.pass
    ensures (ViewOk(e, s) ==> ViewOk(e, s')) && (PassOk(s) ==> PassOk(s')) && (ReadOk(e, s) ==> ReadOk(e, s'))
  {
    hide Last, Tags, Carries;
    forall p, v | Last(s'.w.events, p, v).None?
      ensures Last(s.w.events, p, v).None? && (v in Tags(s'.w.localnets, p) <==> v in Tags(s.w.localnets, p))
    {
      TagCarried(s.w.localnets, p, v);
      TagCarried(s'.w.localnets, p, v);
      assert ("", p).1 == p;
    }
    forall p, vlans | Follows(s.w, p, vlans) ensures Follows(s'.w, p, vlans) {
    }
  }

  /** A pass reads OVN's fixed part as it is. */
  ghost predicate PairsOk(e: Env, s: Sys) {
    s.pass.Both? ==> ValidPairs(s.pass.db) == ValidPairs(e.base)
  }

  lemma StepKeeps(e: Env, s: Sys, a: Action, s': Sys)
    requires DashFree(e.base) && DriverInv(e, s) && PassOk(s) && PairsOk(e, s) && Does(e, s, a, s') && Orderly(e, s, a)
    ensures DriverInv(e, s') && PassOk(s') && PairsOk(e, s')
    ensures (if a.ReadPorts? then Fits(s) else ReadOk(e, s)) ==> ReadOk(e, s')
    ensures (if a.WritePass? then ReadOk(e, s) else ViewOk(e, s) && !a.Fail?) ==> ViewOk(e, s')
  {
    hide DriverInv, ViewOk, DashFree, Orderly, Steady, MyPairs, Follows, PassView, TargetView, RequiredVlans, Fits;
    match a {
      case Deliver => DeliverKeeps(e, s, s');
      case Fail(delivery, view) => FailKeeps(e, s, delivery, view, s');
      case ReadSegments(segs) => ReadSegmentsKeeps(e, s, segs, s');
      case ReadPorts(db) => ReadPortsKeeps(e, s, db, s');
      case WritePass => FullPassHeals(e, s, s');
      case _ =>
        DriverStepKeeps(e, s, a, s');
        SteadyKeeps(e, s, s');
    }
  }

  // ----- Whole runs ----------------------------------------------------------

  /** The last time OVN was read it fitted the segments. */
  predicate ReadWell(states: seq<Sys>, actions: seq<Action>)
    requires |states| == |actions| + 1
    decreases |actions|
  {
    if actions == [] then false
    else
      var n := |actions| - 1;
      if actions[n].ReadPorts? then Fits(states[n]) else ReadWell(states[..n + 1], actions[..n])
  }

  /** No targeted or full pass failed, nor wrote what it had not read well, since the start or
      since a full pass that went right. */
  predicate Healed(states: seq<Sys>, actions: seq<Action>)
    requires |states| == |actions| + 1
    decreases |actions|
  {
    if actions == [] then true
    else
      var n := |actions| - 1;
      if actions[n].WritePass? then ReadWell(states[..n + 1], actions[..n])
      else !actions[n].Fail? && Healed(states[..n + 1], actions[..n])
  }

  lemma {:induction false} RunKeeps(e: Env, states: seq<Sys>, actions: seq<Action>)
    requires DashFree(e.base) && Run(e, states, actions) && OrderlyRun(e, states, actions)
    ensures DriverInv(e, states[|actions|]) && PassOk(states[|actions|]) && PairsOk(e, states[|actions|])
    ensures ReadWell(states, actions) || !states[|actions|].pass.Both? ==> ReadOk(e, states[|actions|])
    ensures Healed(states, actions) ==> ViewOk(e, states[|actions|])
    decreases |actions|
  {
    hide DriverInv, ViewOk, PassOk, PairsOk, Does, DashFree, Init, Orderly, Fits;
    var n := |actions|;
    if n == 0 {
      InitOk(e, states[0]);
      NothingRead(e, states[0]);
    } else {
      RunKeeps(e, states[..n], actions[..n - 1]);
      StepKeeps(e, states[n - 1], actions[n - 1], states[n]);
      PassMoves(e, states[n - 1], actions[n - 1], states[n]);
    }
  }

  lemma NothingRead(e: Env, s: Sys)
    requires Init(e, s)
    ensures PairsOk(e, s)
  {
  }

  lemma PassMoves(e: Env, s: Sys, a: Action, s': Sys)
    requires Does(e, s, a, s')
    ensures s'.pass.Both? && !a.ReadPorts? ==> s.pass.Both?
    ensures a.WritePass? ==> s.pass.Both?
  {
  }

  /** After any run of orderly steps in which no pass went wrong since the start or since the
      last good full pass, replaying the pending events over the VLANs of any trunk of the agent
      yields the tags of the localnet ports on its physical network; with no event pending
      the trunk already carries exactly those. */
  lemma TrunksFollowPorts(e: Env, states: seq<Sys>, actions: seq<Action>, k: Key)
    requires DashFree(e.base) && Run(e, states, actions) && OrderlyRun(e, states, actions)
    requires Healed(states, actions) && k in MyPairs(e.base, e.mine)
    ensures var s := states[|actions|]; var vlans := At(s.view, TrunkName(k.0, k.1));
            && Replay(s.w.events, k.1, vlans) == Tags(s.w.localnets, k.1)
            && (s.w.events == [] ==> vlans == Tags(s.w.localnets, k.1))
  {
    RunKeeps(e, states, actions);
    var s := states[|actions|];
    var vlans := At(s.view, TrunkName(k.0, k.1));
    forall v ensures v in Replay(s.w.events, k.1, vlans) <==> v in Tags(s.w.localnets, k.1) {
      ReplayIs(s.w.events, k.1, vlans, v);
      assert EventOk(s.w, k.1, v);
    }
  }

  /** The lifecycle, after any run of orderly steps: one VLAN segment per network and physical
      network; live localnet ports of one physical network have distinct tags, each that of
      its segment; a bound port has its segment, and the localnet port carrying that
      segment's VLAN. */
  lemma Lifecycle(e: Env, states: seq<Sys>, actions: seq<Action>)
    requires DashFree(e.base) && Run(e, states, actions) && OrderlyRun(e, states, actions)
    ensures var w := states[|actions|].w;
            && (forall a, b, place | a in w.segments && b in w.segments && VlanAt(a, place) && VlanAt(b, place) ::
                a == b)
            && (forall a, b | a in w.localnets && b in w.localnets && a.1 == b.1 :: w.localnets[a] == w.localnets[b] ==>
                a == b)
            && (forall place | place in w.localnets :: Listed(w.segments, place, w.localnets[place]))
            && (forall port | port in w.levels :: BoundOk(e, w, port))
  {
    RunKeeps(e, states, actions);
    var w := states[|actions|].w;
    forall a, b | a in w.localnets && b in w.localnets && a.1 == b.1 && w.localnets[a] == w.localnets[b]
      ensures a == b
    {
      TagsDistinct(w, a, b);
    }
  }

  // ----- What a step that is not orderly can lead to ----------------------------

  lemma OrderlyExtends(e: Env, states: seq<Sys>, actions: seq<Action>, a: Action, s': Sys)
    requires |states| == |actions| + 1 && OrderlyRun(e, states, actions) && Orderly(e, states[|actions|], a)
    ensures OrderlyRun(e, states + [s'], actions + [a])
  {
    hide Orderly;
    forall i | 0 <= i < |actions + [a]| ensures Orderly(e, (states + [s'])[i], (actions + [a])[i]) {
      if i < |actions| {
        assert (states + [s'])[i] == states[i] && (actions + [a])[i] == actions[i];
      }
    }
  }

  /** One more step of a run. */
  lemma Extend(e: Env, states: seq<Sys>, actions: seq<Action>, a: Action, s': Sys)
    returns (states': seq<Sys>, actions': seq<Action>)
    requires Run(e, states, actions) && Does(e, states[|actions|], a, s')
    ensures Run(e, states', actions') && states' == states + [s'] && actions' == actions + [a]
    ensures states'[|actions'|] == s'
    ensures OrderlyRun(e, states, actions) && Orderly(e, states[|actions|], a) ==> OrderlyRun(e, states', actions')
    ensures Healed(states, actions) && !a.Fail? && !a.WritePass? ==> Healed(states', actions')
  {
    hide Does, Init;
    states', actions' := states + [s'], actions + [a];
    assert actions'[..|actions|] == actions && states'[..|actions| + 1] == states;
    if OrderlyRun(e, states, actions) && Orderly(e, states[|actions|], a) {
      OrderlyExtends(e, states, actions, a, s');
    }
    forall i | 0 <= i < |actions'| ensures Does(e, states'[i], actions'[i], states'[i + 1]) {
      if i < |actions| {
        assert states'[i] == states[i] && states'[i + 1] == states[i + 1] && actions'[i] == actions[i];
      }
    }
  }

  /** A bind under way completes. */
  lemma Completes(e: Env, states0: seq<Sys>, actions0: seq<Action>, t: nat)
    returns (states: seq<Sys>, actions: seq<Action>)
    requires Run(e, states0, actions0) && t in states0[|actions0|].tasks && Binds(states0[|actions0|].tasks[t])
    ensures Run(e, states, actions) && states0 <= states && actions0 <= actions
    ensures var s0, s := states0[|actions0|], states[|actions|];
            && s.w.segments == s0.w.segments && s.tasks == s0.tasks - {t}
            && s.w.levels == s0.w.levels[s0.tasks[t].port := s0.tasks[t].seg.id]
  {
    hide OrderlyRun, Healed, Init, Orderly, Reflects;
    states, actions := states0, actions0;
    var s := states[|actions|];
    var port, seg := s.tasks[t].port, s.tasks[t].seg;
    if s.tasks[t].Allocated? {
      s := s.(w := if seg.physnet in e.forward then Ensured(s.w, PlaceOf(seg), seg.segmentationId) else s.w,
              tasks := s.tasks[t := Bridged(port, seg)]);
      states, actions := Extend(e, states, actions, Bridge(t), s);
    }
    s := s.(w := s.w.(levels := s.w.levels[port := seg.id]), tasks := s.tasks - {t});
    states, actions := Extend(e, states, actions, Commit(t), s);
  }

  /** A release with something to undo undoes it, although a port is bound on its place. */
  lemma Strands(e: Env, states0: seq<Sys>, actions0: seq<Action>, r: nat, port: string, seg: Segment)
    returns (states: seq<Sys>, actions: seq<Action>)
    requires Run(e, states0, actions0)
    requires var s := states0[|actions0|];
             && r in s.tasks && Hurts(e, s.w.segments, s.tasks[r]) && SegsOk(s.w.segments)
             && s.tasks[r].seg.kind == VlanSegment
             && seg in s.w.segments && VlanAt(seg, PlaceOf(s.tasks[r].seg)) && port in s.w.levels
             && s.w.levels[port] == seg.id
    ensures Run(e, states, actions) && states0 <= states && actions0 <= actions
    ensures port in states[|actions|].w.levels && !BoundOk(e, states[|actions|].w, port)
  {
    hide OrderlyRun, Healed, Init, Orderly, Reflects;
    states, actions := states0, actions0;
    var s := states[|actions|];
    var gone := s.tasks[r].seg;
    if s.tasks[r].Releasing? {
      s := s.(w := Removed(s.w, PlaceOf(gone)), tasks := s.tasks[r := Unbridged(gone)]);
      states, actions := Extend(e, states, actions, Unbridge(r), s);
    }
    if gone in s.w.segments {
      assert SameVlanSegment(gone, seg);
      s := s.(w := Released(s.w, gone.id), tasks := s.tasks - {r});
      states, actions := Extend(e, states, actions, Release(r), s);
    }
  }

  /** The exact condition, the other way round: from any state that orderly steps reach, a
      step that is not orderly has a continuation after which some bound port has lost its
      segment, or the localnet port that carries its VLAN. */
  lemma DisorderStrandsPort(e: Env, states0: seq<Sys>, actions0: seq<Action>, a: Action, s': Sys)
    returns (states: seq<Sys>, actions: seq<Action>, port: string)
    requires DashFree(e.base) && Run(e, states0, actions0) && OrderlyRun(e, states0, actions0)
    requires Does(e, states0[|actions0|], a, s') && !Orderly(e, states0[|actions0|], a)
    ensures Run(e, states, actions) && states0 + [s'] <= states && actions0 + [a] <= actions
    ensures port in states[|actions|].w.levels && !BoundOk(e, states[|actions|].w, port)
  {
    RunKeeps(e, states0, actions0);
    var s := states0[|actions0|];
    BaseKeeps(e, s, a, s');
    var r := Disturbed(e, s, a, s');
    states, actions := Extend(e, states0, actions0, a, s');
    states, actions, port := Meets(e, states, actions, r);
  }

  /** Such a step leaves a release with something to undo on a place that is not quiet. */
  lemma Disturbed(e: Env, s: Sys, a: Action, s': Sys) returns (r: nat)
    requires Does(e, s, a, s') && !Orderly(e, s, a)
    ensures r in s'.tasks && Hurts(e, s'.w.segments, s'.tasks[r]) && !Quiet(s'.w, s'.tasks, PlaceOf(s'.tasks[r].seg))
  {
    match a {
      case StartBind(t, port, seg) =>
        r :| r in s.tasks && PlaceOf(s.tasks[r].seg) == PlaceOf(seg) && Hurts(e, s.w.segments, s.tasks[r]);
        assert t in s'.tasks && Binds(s'.tasks[t]) && PlaceOf(s'.tasks[t].seg) == PlaceOf(s'.tasks[r].seg);
      case Check(t) =>
        r := t;
        forall u | u in s.tasks && Binds(s.tasks[u]) ensures u in s'.tasks && s'.tasks[u] == s.tasks[u] {
        }
    }
  }

  lemma Meets(e: Env, states0: seq<Sys>, actions0: seq<Action>, r: nat)
    returns (states: seq<Sys>, actions: seq<Action>, port: string)
    requires Run(e, states0, actions0) && Base(states0[|actions0|]) && r in states0[|actions0|].tasks
    requires var s := states0[|actions0|];
             Hurts(e, s.w.segments, s.tasks[r]) && !Quiet(s.w, s.tasks, PlaceOf(s.tasks[r].seg))
    ensures Run(e, states, actions) && states0 <= states && actions0 <= actions
    ensures port in states[|actions|].w.levels && !BoundOk(e, states[|actions|].w, port)
  {
    var s := states0[|actions0|];
    assert SegmentOk(s, s.tasks[r]);
    var place := PlaceOf(s.tasks[r].seg);
    var seg: Segment;
    states, actions := states0, actions0;
    if exists t :: t in s.tasks && Binds(s.tasks[t]) && PlaceOf(s.tasks[t].seg) == place {
      var t :| t in s.tasks && Binds(s.tasks[t]) && PlaceOf(s.tasks[t].seg) == place;
      assert SegmentOk(s, s.tasks[t]);
      seg, port := s.tasks[t].seg, s.tasks[t].port;
      states, actions := Completes(e, states, actions, t);
    } else {
      seg :| seg in s.w.segments && VlanAt(seg, place) && InUse(s.w.levels, seg.id);
      port :| port in s.w.levels && s.w.levels[port] == seg.id;
    }
    states, actions := Strands(e, states, actions, r, port, seg);
  }

  /** The trunk does not carry the VLAN, or its removal is pending. */
  predicate Losing(s: Sys, k: Key, tag: int) {
    tag in At(s.view, TrunkName(k.0, k.1)) ==>
      exists i :: 0 <= i < |s.w.events| && Concerns(s.w.events[i], k.1, tag) && !s.w.events[i].create
  }

  /** And no creation will bring it back: no segment lists it on the physical network. */
  ghost predicate Fading(s: Sys, k: Key, tag: int) {
    s.pass.Idle? && Losing(s, k, tag) && forall place: Place | place.1 == k.1 :: !Listed(s.w.segments, place, tag)
  }

  /** A bind that has not reached its localnet port meets a release of its segment. */
  predicate Meeting(s: Sys, r: nat, t: nat, seg: Segment) {
    && t in s.tasks && s.tasks[t].Allocated? && s.tasks[t].seg == seg
    && r in s.tasks && PastCheck(s.tasks[r]) && s.tasks[r].seg == seg
  }

  /** All orderly but the last step, a start or a check. */
  predicate OrderlyBefore(e: Env, states: seq<Sys>, actions: seq<Action>) {
    && |states| == |actions| + 1 && actions != []
    && OrderlyRun(e, states[..|actions|], actions[..|actions| - 1])
    && (actions[|actions| - 1].StartBind? || actions[|actions| - 1].Check?)
  }

  lemma FadingStep(e: Env, s: Sys, s': Sys, k: Key, tag: int)
    requires DashFree(e.base) && k in MyPairs(e.base, e.mine) && Fading(s, k, tag) && Does(e, s, Deliver, s')
    ensures Fading(s', k, tag)
  {
    var ev := s.w.events[0];
    TouchedAt(e, s.view, k, ev.place.1, ev.tag, ev.create);
    if tag in At(s'.view, TrunkName(k.0, k.1)) {
      assert tag in At(s.view, TrunkName(k.0, k.1));
      var i :| 0 <= i < |s.w.events| && Concerns(s.w.events[i], k.1, tag) && !s.w.events[i].create;
      assert i > 0 && s'.w.events[i - 1] == s.w.events[i];
    }
  }

  /** All pending events, delivered one by one. */
  lemma {:induction false} DeliverAll(e: Env, states0: seq<Sys>, actions0: seq<Action>, k: Key, tag: int)
    returns (states: seq<Sys>, actions: seq<Action>)
    requires DashFree(e.base) && k in MyPairs(e.base, e.mine) && Run(e, states0, actions0)
    requires Fading(states0[|actions0|], k, tag)
    ensures Run(e, states, actions) && states0 <= states && actions0 <= actions
              && (Healed(states0, actions0) ==> Healed(states, actions))
    ensures var s0, s := states0[|actions0|], states[|actions|];
            s.w == s0.w.(events := []) && tag !in At(s.view, TrunkName(k.0, k.1))
    decreases |states0[|actions0|].w.events|
  {
    states, actions := states0, actions0;
    var s := states[|actions|];
    if s.w.events != [] {
      hide MyPairs, DashFree, Init, TargetView, Reflects;
      var ev := s.w.events[0];
      var s' := s.(w := s.w.(events := s.w.events[1..]),
                   view := if ev.create && !Listed(s.w.segments, ev.place, ev.tag) then s.view
                           else TargetView(s.view, e.base, e.mine, ev.place.1, ev.tag, ev.create));
      FadingStep(e, s, s', k, tag);
      states, actions := Extend(e, states, actions, Deliver, s');
      states, actions := DeliverAll(e, states, actions, k, tag);
    }
  }

  lemma {:induction false} LastIn(events: seq<Event>, physnet: string, tag: int)
    ensures Last(events, physnet, tag).Some? ==>
              exists i :: 0 <= i < |events| && events[i] == Last(events, physnet, tag).value
    decreases |events|
  {
    if events != [] {
      LastIn(events[..|events| - 1], physnet, tag);
    }
  }

  /** The trunk, when the localnet port has just gone. */
  lemma TagGone(e: Env, s: Sys, k: Key, seg: Segment)
    requires SegsOk(s.w.segments) && Backed(s.w) && EventsOk(s.w) && ViewOk(e, s) && k in MyPairs(e.base, e.mine)
    requires seg in s.w.segments && VlanAt(seg, (seg.networkId, k.1)) && PlaceOf(seg) !in s.w.localnets
    ensures Losing(s, k, seg.segmentationId)
  {
    var tag := seg.segmentationId;
    forall q | q in s.w.localnets && q.1 == k.1 ensures s.w.localnets[q] != tag {
      var x :| x in s.w.segments && VlanAt(x, q) && x.segmentationId == s.w.localnets[q];
      assert x.segmentationId == tag ==> SameVlanSegment(x, seg);
    }
    assert EventOk(s.w, k.1, tag);
    assert Follows(s.w, k.1, At(s.view, TrunkName(k.0, k.1)));
    LastIn(s.w.events, k.1, tag);
  }

  /** The trunks suffer as well: when a bind that has not yet reached its localnet port
      meets a release of the segment, a run without any failed pass ends with every event
      delivered and a live localnet port whose VLAN is missing on the agent's trunk: the
      creation was skipped because the segment had gone. */
  lemma DisorderSplitsTrunk(e: Env, states0: seq<Sys>, actions0: seq<Action>, r: nat, t: nat, seg: Segment, k: Key)
    returns (states: seq<Sys>, actions: seq<Action>)
    requires DashFree(e.base) && k in MyPairs(e.base, e.mine) && k.1 in e.forward && seg.physnet == k.1
    requires Run(e, states0, actions0) && Healed(states0, actions0) && OrderlyBefore(e, states0, actions0)
    requires states0[|actions0|].pass.Idle? && Meeting(states0[|actions0|], r, t, seg)
    ensures Run(e, states, actions) && Healed(states, actions) && states0 <= states && actions0 <= actions
    ensures var s := states[|actions|];
            && s.w.events == [] && seg.segmentationId in Tags(s.w.localnets, k.1)
            && seg.segmentationId !in At(s.view, TrunkName(k.0, k.1))
  {
    var n := |actions0| - 1;
    RunKeeps(e, states0[..n + 1], actions0[..n]);
    assert Healed(states0[..n + 1], actions0[..n]);
    Before(e, states0[n], actions0[n], states0[n + 1], r, t, seg);
    states, actions := Removes(e, states0, actions0, r, t, seg, k);
    states, actions := BridgesAndReleases(e, states, actions, r, t, seg, k);
    var bridged := states[|actions|];
    assert PlaceOf(seg) in bridged.w.localnets && bridged.w.localnets[PlaceOf(seg)] == seg.segmentationId;
    states, actions := DeliverAll(e, states, actions, k, seg.segmentationId);
  }

  /** What still holds after that step. */
  ghost predicate Usable(e: Env, s: Sys, r: nat, t: nat, seg: Segment) {
    && SegsOk(s.w.segments) && Backed(s.w) && EventsOk(s.w) && ViewOk(e, s)
    && Meeting(s, r, t, seg) && seg in s.w.segments && seg.kind == VlanSegment
    && (s.tasks[r].Unbridged? ==> PlaceOf(seg) !in s.w.localnets)
  }

  lemma Before(e: Env, s: Sys, a: Action, s': Sys, r: nat, t: nat, seg: Segment)
    requires DriverInv(e, s) && ViewOk(e, s) && Does(e, s, a, s') && (a.StartBind? || a.Check?)
               && Meeting(s', r, t, seg)
    ensures Usable(e, s', r, t, seg)
  {
    BaseKeeps(e, s, a, s');
    assert SegmentOk(s', s'.tasks[t]);
    SameStores(s.w, s'.w);
    SteadyKeeps(e, s, s');
    forall q | q in s.w.localnets ensures Listed(s'.w.segments, q, s.w.localnets[q]) {
      var x :| x in s.w.segments && VlanAt(x, q) && x.segmentationId == s.w.localnets[q];
      assert x in s'.w.segments;
    }
    if s'.tasks[r].Unbridged? {
      assert SegmentOk(s, s.tasks[r]) && TaskOk(e, s, s.tasks[r]);
      if PlaceOf(seg) in s.w.localnets {
        var x :| x in s.w.segments && VlanAt(x, PlaceOf(seg)) && x.segmentationId == s.w.localnets[PlaceOf(seg)];
        assert SameVlanSegment(x, seg);
      }
    }
  }

  lemma Removes(e: Env, states0: seq<Sys>, actions0: seq<Action>, r: nat, t: nat, seg: Segment, k: Key)
    returns (states: seq<Sys>, actions: seq<Action>)
    requires Run(e, states0, actions0) && k in MyPairs(e.base, e.mine) && seg.physnet == k.1
    requires states0[|actions0|].pass.Idle? && Usable(e, states0[|actions0|], r, t, seg)
    ensures Run(e, states, actions) && states0 <= states && actions0 <= actions
              && (Healed(states0, actions0) ==> Healed(states, actions))
    ensures Unplugged(states[|actions|], r, t, seg) && Losing(states[|actions|], k, seg.segmentationId)
  {
    hide OrderlyRun, Orderly, Init, Reflects, Last;
    states, actions := states0, actions0;
    var s := states[|actions|];
    if s.tasks[r].Releasing? {
      var s' := s.(w := Removed(s.w, PlaceOf(seg)), tasks := s.tasks[r := Unbridged(seg)]);
      if PlaceOf(seg) in s.w.localnets { EventsAfterRemove(s.w, PlaceOf(seg)); } else { SameStores(s.w, s'.w); }
      SteadyKeeps(e, s, s');
      states, actions := Extend(e, states, actions, Unbridge(r), s');
      s := s';
    }
    TagGone(e, s, k, seg);
  }

  /** The localnet port is gone, the segment not yet. */
  predicate Unplugged(s: Sys, r: nat, t: nat, seg: Segment) {
    && s.pass.Idle? && SegsOk(s.w.segments) && seg in s.w.segments && seg.kind == VlanSegment
    && Meeting(s, r, t, seg) && s.tasks[r].Unbridged? && PlaceOf(seg) !in s.w.localnets
  }

  lemma BridgesAndReleases(e: Env, states0: seq<Sys>, actions0: seq<Action>, r: nat, t: nat, seg: Segment, k: Key)
    returns (states: seq<Sys>, actions: seq<Action>)
    requires Run(e, states0, actions0) && seg.physnet == k.1 && k.1 in e.forward
    requires Unplugged(states0[|actions0|], r, t, seg) && Losing(states0[|actions0|], k, seg.segmentationId)
    ensures Run(e, states, actions) && states0 <= states && actions0 <= actions
              && (Healed(states0, actions0) ==> Healed(states, actions))
    ensures Fading(states[|actions|], k, seg.segmentationId) && PlaceOf(seg) in states[|actions|].w.localnets
    ensures states[|actions|].w.localnets[PlaceOf(seg)] == seg.segmentationId
  {
    hide OrderlyRun, Orderly, Init, Reflects, Last;
    states, actions := states0, actions0;
    var s := states[|actions|];
    var s1 := s.(w := Ensured(s.w, PlaceOf(seg), seg.segmentationId),
        tasks := s.tasks[t := Bridged(s.tasks[t].port, seg)]);
    states, actions := Extend(e, states, actions, Bridge(t), s1);
    var s2 := s1.(w := Released(s1.w, seg.id), tasks := s1.tasks - {r});
    states, actions := Extend(e, states, actions, Release(r), s2);
    forall place: Place | place.1 == k.1 ensures !Listed(s2.w.segments, place, seg.segmentationId) {
      forall x | x in s2.w.segments && VlanAt(x, place) ensures x.segmentationId != seg.segmentationId {
        assert x.segmentationId == seg.segmentationId ==> SameVlanSegment(x, seg);
      }
    }
    assert s.w.events <= s2.w.events;
  }

  // ----- A pass that reads the two databases at different times --------------------

  /** The exact condition for a read, other half: when OVN no longer fits the segments read
      before, the pass puts a VLAN on the trunks of that physical network that no localnet
      port carries, and no pending event takes it off again. */
  lemma StaleReadAddsVlan(e: Env, states0: seq<Sys>, actions0: seq<Action>, db: Databases)
    returns (states: seq<Sys>, actions: seq<Action>, x: Segment)
    requires DashFree(e.base) && Run(e, states0, actions0) && OrderlyRun(e, states0, actions0)
    requires states0[|actions0|].pass.Segments? && !Fits(states0[|actions0|])
    requires Reflects(e, states0[|actions0|].w.localnets, db)
    ensures Run(e, states, actions) && OrderlyRun(e, states, actions) && states0 <= states && actions0 <= actions
    ensures x in states0[|actions0|].pass.segs && states[|actions|].w == states0[|actions0|].w
    ensures x.segmentationId !in Tags(states[|actions|].w.localnets, x.physnet)
    ensures forall k | k in MyPairs(e.base, e.mine) && k.1 == x.physnet ::
              x.segmentationId in Replay(states[|actions|].w.events, k.1,
                  At(states[|actions|].view, TrunkName(k.0, k.1)))
  {
    hide DriverInv, PassOk, ViewOk, ReadOk, Init, OrderlyRun, Healed, ReadWell, Carries, Last, Tags, Replay, MyPairs,
         PassView, RequiredVlans, DashFree;
    RunKeeps(e, states0, actions0);
    var s := states0[|actions0|];
    var segs := s.pass.segs;
    x :| x in segs && x.kind == VlanSegment && PlaceOf(x) in s.w.localnets
         && !(Carries(s.w.localnets, PlaceOf(x), x.segmentationId)
             || Last(s.w.events, x.physnet, x.segmentationId).Some?);
    NotATag(s, x);
    var s1 := s.(pass := Both(db, segs));
    states, actions := Extend(e, states0, actions0, ReadPorts(db), s1);
    ReadPortsKeeps(e, s, db, s1);
    var s2 := s1.(view := PassView(s1.view, db, segs, e.mine), pass := Idle);
    states, actions := Extend(e, states, actions, WritePass, s2);
    FullPassHeals(e, s1, s2);
    forall k | k in MyPairs(e.base, e.mine) && k.1 == x.physnet
      ensures x.segmentationId in Replay(s2.w.events, k.1, At(s2.view, TrunkName(k.0, k.1)))
    {
      MyPairsValid(e, k);
      StillRequired(e, s, db, x, k);
      ReplayIs(s2.w.events, k.1, At(s2.view, TrunkName(k.0, k.1)), x.segmentationId);
    }
  }

  lemma MyPairsValid(e: Env, k: Key)
    requires k in MyPairs(e.base, e.mine)
    ensures k in ValidPairs(e.base)
  {
  }

  lemma NotATag(s: Sys, x: Segment)
    requires PassOk(s) && s.pass.Segments? && x in s.pass.segs && x.kind == VlanSegment
    requires !Carries(s.w.localnets, PlaceOf(x), x.segmentationId)
               && Last(s.w.events, x.physnet, x.segmentationId).None?
    ensures x.segmentationId !in Tags(s.w.localnets, x.physnet)
  {
    TagCarried(s.w.localnets, x.physnet, x.segmentationId);
    hide PassOk, Last, Carries;
    forall q: Place | q.1 == x.physnet && Carries(s.w.localnets, q, x.segmentationId) ensures q == PlaceOf(x) {
      CarrierIs(s, x, q);
    }
  }

  lemma CarrierIs(s: Sys, x: Segment, q: Place)
    requires PassOk(s) && s.pass.Segments? && x in s.pass.segs && x.kind == VlanSegment && q.1 == x.physnet
    requires Carries(s.w.localnets, q, x.segmentationId) && Last(s.w.events, x.physnet, x.segmentationId).None?
    ensures q == PlaceOf(x)
  {
    var y :| y in SetOf(s.pass.segs) && VlanAt(y, q) && y.segmentationId == x.segmentationId;
    assert SameVlanSegment(x, y) && x in SetOf(s.pass.segs);
  }

  lemma StillRequired(e: Env, s: Sys, db: Databases, x: Segment, k: Key)
    requires s.pass.Segments? && x in s.pass.segs && x.kind == VlanSegment && PlaceOf(x) in s.w.localnets
    requires Reflects(e, s.w.localnets, db) && k in ValidPairs(e.base) && k.1 == x.physnet
    ensures x.segmentationId in RequiredVlans(db, s.pass.segs, k)
  {
    assert HasLocalnetPort(db, x.networkId, k.1) && Requires(db, x, k);
  }

  /** A release of `x` that only has the segment left to release; `y` can take its place. */
  predicate Reusable(e: Env, s: Sys, r: nat, t: nat, x: Segment, y: Segment) {
    && s.pass.Idle? && s.w.events == [] && r in s.tasks && s.tasks[r] == Unbridged(x) && x in s.w.segments
    && t !in s.tasks
    && (forall u | u in s.tasks && u != r && PlaceOf(s.tasks[u].seg) == PlaceOf(x) :: !PastCheck(s.tasks[u]))
    && y.kind == VlanSegment && PlaceOf(y) == PlaceOf(x) && y.physnet in e.forward && y.id !in s.used
    && (forall z | z in s.w.segments && z.kind == VlanSegment && z.physnet == y.physnet ::
        z.segmentationId != y.segmentationId)
  }

  /** It does happen, by orderly steps alone: a pass lists the segments, the last port's release
      completes, the next bind gets a new segment and its localnet port, and the pass then
      takes that port for the old segment's. */
  lemma SlowPassReadsStale(e: Env, states0: seq<Sys>, actions0: seq<Action>, segs: seq<Segment>, r: nat, t: nat,
      port: string,
                           x: Segment, y: Segment) returns (states: seq<Sys>, actions: seq<Action>)
    requires DashFree(e.base) && Run(e, states0, actions0) && OrderlyRun(e, states0, actions0)
    requires Reusable(e, states0[|actions0|], r, t, x, y)
    requires forall seg :: seg in segs <==> seg in states0[|actions0|].w.segments
    ensures Run(e, states, actions) && OrderlyRun(e, states, actions) && states0 <= states && actions0 <= actions
    ensures Healed(states0, actions0) ==> Healed(states, actions)
    ensures states[|actions|].pass.Segments? && !Fits(states[|actions|])
  {
    RunKeeps(e, states0, actions0);
    var s0 := states0[|actions0|];
    ReusableMeans(e, s0, r, t, x, y);
    states, actions := ListsAndReleases(e, states0, actions0, segs, r, x);
    states, actions := BindsAgain(e, states, actions, t, port, x, y);
  }

  lemma BindsAgain(e: Env, states0: seq<Sys>, actions0: seq<Action>, t: nat, port: string, x: Segment, y: Segment)
    returns (states: seq<Sys>, actions: seq<Action>)
    requires Run(e, states0, actions0) && OrderlyRun(e, states0, actions0) && Vacant(e, states0[|actions0|], t, x, y)
    ensures Run(e, states, actions) && OrderlyRun(e, states, actions) && states0 <= states && actions0 <= actions
    ensures Healed(states0, actions0) ==> Healed(states, actions)
    ensures states[|actions|].pass.Segments? && !Fits(states[|actions|])
  {
    hide Healed, ReadWell, Init, OrderlyRun, Reflects, InUse;
    var s2 := states0[|actions0|];
    states, actions := states0, actions0;
    var w3 := s2.w.(segments := s2.w.segments + {y});
    var s3 := s2.(w := w3, tasks := s2.tasks[t := Allocated(port, y)], used := s2.used + {y.id});
    states, actions := Extend(e, states, actions, StartBind(t, port, y), s3);
    var s4 := s3.(w := Ensured(w3, PlaceOf(y), y.segmentationId), tasks := s3.tasks[t := Bridged(port, y)]);
    states, actions := Extend(e, states, actions, Bridge(t), s4);
    assert s4.w.events == [] + [Event(true, PlaceOf(y), y.segmentationId)];
    LastSnoc([], Event(true, PlaceOf(y), y.segmentationId));
  }

  /** The pass knows `x`, which has gone; `y` is about to come. */
  predicate Vacant(e: Env, s: Sys, t: nat, x: Segment, y: Segment) {
    && s.pass.Segments? && x in s.pass.segs && x.kind == VlanSegment && s.w.events == [] && t !in s.tasks
    && PlaceOf(x) !in s.w.localnets && x.segmentationId != y.segmentationId
    && y.kind == VlanSegment && PlaceOf(y) == PlaceOf(x) && y.physnet in e.forward && Fresh(s, y)
    && (forall u | u in s.tasks && PlaceOf(s.tasks[u].seg) == PlaceOf(y) :: !PastCheck(s.tasks[u]))
  }

  lemma ListsAndReleases(e: Env, states0: seq<Sys>, actions0: seq<Action>, segs: seq<Segment>, r: nat, x: Segment)
    returns (states: seq<Sys>, actions: seq<Action>)
    requires Run(e, states0, actions0) && states0[|actions0|].pass.Idle?
    requires r in states0[|actions0|].tasks && states0[|actions0|].tasks[r] == Unbridged(x)
    requires forall seg :: seg in segs <==> seg in states0[|actions0|].w.segments
    ensures Run(e, states, actions) && states0 <= states && actions0 <= actions
    ensures OrderlyRun(e, states0, actions0) ==> OrderlyRun(e, states, actions)
    ensures Healed(states0, actions0) ==> Healed(states, actions)
    ensures var s := states0[|actions0|];
            states[|actions|] == s.(w := Released(s.w, x.id), tasks := s.tasks - {r}, pass := Segments(segs))
  {
    var s1 := states0[|actions0|].(pass := Segments(segs));
    states, actions := Extend(e, states0, actions0, ReadSegments(segs), s1);
    states, actions := Extend(e, states, actions, Release(r), s1.(w := Released(s1.w, x.id), tasks := s1.tasks - {r}));
  }

  lemma ReusableMeans(e: Env, s: Sys, r: nat, t: nat, x: Segment, y: Segment)
    requires DriverInv(e, s) && Reusable(e, s, r, t, x, y)
    ensures x.kind == VlanSegment && PlaceOf(x) !in s.w.localnets && x.segmentationId != y.segmentationId
    ensures forall z | z in s.w.segments && z.id != x.id && z.kind == VlanSegment && z.physnet == y.physnet ::
              z.segmentationId != y.segmentationId && z.networkId != y.networkId
  {
    assert SegmentOk(s, s.tasks[r]) && TaskOk(e, s, s.tasks[r]);
    forall z | z in s.w.segments && z.id != x.id && z.kind == VlanSegment && z.physnet == y.physnet
      ensures z.networkId != y.networkId
    {
      assert !SameVlanSegment(x, z);
    }
  }

  // ----- The last one out ---------------------------------------------------------

  /** Some bind or release has the segment in its hands. */
  predicate HasTask(tasks: map<nat, Task>, seg: Segment) {
    exists t :: t in tasks && tasks[t].seg == seg
  }

  /** No VLAN segment is forgotten. */
  predicate Kept(s: Sys) {
    forall seg | seg in s.w.segments && seg.kind == VlanSegment :: InUse(s.w.levels, seg.id) || HasTask(s.tasks, seg)
  }

  /** A bind that is given up, and a port that is bound elsewhere without leaving first, leave
      the segment to another port or to another bind or release. */
  predicate Tidy(s: Sys, a: Action) {
    match a
    case Abandon(t) => t in s.tasks ==> InUse(s.w.levels, s.tasks[t].seg.id) || HasTask(s.tasks - {t}, s.tasks[t].seg)
    case Commit(t) =>
      t in s.tasks && s.tasks[t].Bridged? && s.tasks[t].port in s.w.levels ==>
        forall x | x in s.w.segments && x.kind == VlanSegment && x.id == s.w.levels[s.tasks[t].port]
            && x.id != s.tasks[t].seg.id ::
          InUse(s.w.levels - {s.tasks[t].port}, x.id) || HasTask(s.tasks, x)
    case _ => true
  }

  predicate TidyRun(states: seq<Sys>, actions: seq<Action>)
    requires |states| == |actions| + 1
  {
    forall i | 0 <= i < |actions| :: Tidy(states[i], actions[i])
  }

  lemma HasTaskWithout(tasks: map<nat, Task>, t: nat, seg: Segment)
    requires t in tasks && tasks[t].seg != seg
    ensures HasTask(tasks - {t}, seg) <==> HasTask(tasks, seg)
  {
    if HasTask(tasks, seg) {
      var u :| u in tasks && tasks[u].seg == seg;
      assert u in tasks - {t};
    }
  }

  lemma HasTaskWith(tasks: map<nat, Task>, t: nat, task: Task, seg: Segment)
    requires t in tasks ==> tasks[t].seg == task.seg
    ensures HasTask(tasks[t := task], seg) <==> HasTask(tasks, seg) || seg == task.seg
  {
    if HasTask(tasks, seg) {
      var u :| u in tasks && tasks[u].seg == seg;
      assert u in tasks[t := task];
    }
    assert t in tasks[t := task];
  }

  lemma InUseWith(levels: map<string, string>, port: string, id': string, id: string)
    ensures id != id' ==> (InUse(levels[port := id'], id) <==> InUse(levels - {port}, id))
    ensures InUse(levels, id) <==> InUse(levels - {port}, id) || (port in levels && levels[port] == id)
  {
    var other, new' := levels - {port}, levels[port := id'];
    forall p | p in levels && p != port ensures p in other && p in new' && other[p] == levels[p] == new'[p] {
    }
    forall p | p in new' && p != port ensures p in levels {
    }
  }

  lemma CommitKept(e: Env, s: Sys, t: nat, s': Sys)
    requires Base(s) && Kept(s) && Does(e, s, Commit(t), s')
    ensures Kept(s') <==> Tidy(s, Commit(t))
  {
    var port, seg := s.tasks[t].port, s.tasks[t].seg;
    assert SegmentOk(s, s.tasks[t]);
    assert s'.w.levels[port] == seg.id;
    forall x | x in s.w.segments && x.kind == VlanSegment && x != seg
      ensures HasTask(s'.tasks, x) <==> HasTask(s.tasks, x)
      ensures InUse(s'.w.levels, x.id) <==> InUse(s.w.levels - {port}, x.id)
      ensures InUse(s.w.levels, x.id)
         <==> InUse(s.w.levels - {port}, x.id) || (port in s.w.levels && s.w.levels[port] == x.id)
    {
      HasTaskWithout(s.tasks, t, x);
      assert x.id != seg.id;
      InUseWith(s.w.levels, port, seg.id, x.id);
    }
  }

  lemma AbandonKept(e: Env, s: Sys, t: nat, s': Sys)
    requires Base(s) && Kept(s) && Does(e, s, Abandon(t), s')
    ensures Kept(s') <==> Tidy(s, Abandon(t))
  {
    assert SegmentOk(s, s.tasks[t]);
    forall x | x in s.w.segments && x != s.tasks[t].seg ensures HasTask(s'.tasks, x) <==> HasTask(s.tasks, x) {
      HasTaskWithout(s.tasks, t, x);
    }
  }

  /** The exact condition for a segment to be forgotten. */
  lemma KeptStep(e: Env, s: Sys, a: Action, s': Sys)
    requires Base(s) && Kept(s) && Does(e, s, a, s')
    ensures Kept(s') <==> Tidy(s, a)
  {
    match a {
      case Commit(t) => CommitKept(e, s, t, s');
      case Abandon(t) => AbandonKept(e, s, t, s');
      case _ => OtherKept(e, s, a, s');
    }
  }

  lemma OtherKept(e: Env, s: Sys, a: Action, s': Sys)
    requires Base(s) && Kept(s) && Does(e, s, a, s') && !a.Commit? && !a.Abandon?
    ensures Kept(s')
  {
    hide HasTask, Reflects;
    forall x | x in s'.w.segments && x.kind == VlanSegment ensures InUse(s'.w.levels, x.id) || HasTask(s'.tasks, x) {
      match a {
        case StartBind(t, port, seg) => HasTaskWith(s.tasks, t, Allocated(port, seg), x);
        case Bridge(t) => HasTaskWith(s.tasks, t, Bridged(s.tasks[t].port, s.tasks[t].seg), x);
        case Leave(t, port, seg) =>
          HasTaskWith(s.tasks, t, Left(seg), x);
          if x != seg && InUse(s.w.levels, x.id) {
            var p :| p in s.w.levels && s.w.levels[p] == x.id;
            assert p in s'.w.levels;
          }
        case Check(t) =>
          assert SegmentOk(s, s.tasks[t]);
          if LastOut(s.w.levels, Some(s.tasks[t].seg)) {
            HasTaskWith(s.tasks, t, Releasing(s.tasks[t].seg), x);
          } else if x != s.tasks[t].seg {
            HasTaskWithout(s.tasks, t, x);
          }
        case Unbridge(t) => HasTaskWith(s.tasks, t, Unbridged(s.tasks[t].seg), x);
        case Release(t) => HasTaskWithout(s.tasks, t, x);
        case _ =>
      }
    }
  }

  lemma {:induction false} RunKept(e: Env, states: seq<Sys>, actions: seq<Action>)
    requires DashFree(e.base) && Run(e, states, actions) && OrderlyRun(e, states, actions) && TidyRun(states, actions)
    requires forall x | x in states[0].w.segments :: x.kind != VlanSegment
    ensures Kept(states[|actions|])
    decreases |actions|
  {
    hide Does, DashFree, Orderly, Tidy, TaskOk, BoundOk, Base;
    var n := |actions|;
    if n > 0 {
      RunKept(e, states[..n], actions[..n - 1]);
      RunKeeps(e, states[..n], actions[..n - 1]);
      KeptStep(e, states[n - 1], actions[n - 1], states[n]);
    }
  }

  predicate BoundAt(w: World, place: Place) {
    exists x :: x in w.segments && VlanAt(x, place) && InUse(w.levels, x.id)
  }

  /** Reference counting, after any orderly and tidy run that began without VLAN segments:
      a place on which nothing is under way has a VLAN segment if and only if a port is
      bound there, and has a localnet port only then; where some chassis maps the physical
      network, if and only if. So both are there from the first port to the last. */
  lemma LastOneOut(e: Env, states: seq<Sys>, actions: seq<Action>, place: Place)
    requires DashFree(e.base) && Run(e, states, actions) && OrderlyRun(e, states, actions) && TidyRun(states, actions)
    requires forall x | x in states[0].w.segments :: x.kind != VlanSegment
    requires forall t | t in states[|actions|].tasks :: PlaceOf(states[|actions|].tasks[t].seg) != place
    ensures var w := states[|actions|].w;
            && ((exists x :: x in w.segments && VlanAt(x, place)) <==> BoundAt(w, place))
            && (place in w.localnets ==> BoundAt(w, place))
            && (place.1 in e.forward ==> (place in w.localnets <==> BoundAt(w, place)))
  {
    RunKeeps(e, states, actions);
    RunKept(e, states, actions);
    CountedAt(e, states[|actions|], place);
  }

  lemma CountedAt(e: Env, s: Sys, place: Place)
    requires DriverInv(e, s) && Kept(s) && forall t | t in s.tasks :: PlaceOf(s.tasks[t].seg) != place
    ensures var w := s.w;
            && ((exists x :: x in w.segments && VlanAt(x, place)) <==> BoundAt(w, place))
            && (place in w.localnets ==> BoundAt(w, place))
            && (place.1 in e.forward ==> (place in w.localnets <==> BoundAt(w, place)))
  {
    hide EventsOk, TaskOk, SegmentOk, SegsOk, BoundOk, Listed;
    var w := s.w;
    forall x | x in w.segments && VlanAt(x, place) ensures InUse(w.levels, x.id) {
      assert !HasTask(s.tasks, x);
    }
    if place in w.localnets {
      assert Listed(w.segments, place, w.localnets[place]);
      ListedAt(w.segments, place, w.localnets[place]);
    }
    if BoundAt(w, place) && place.1 in e.forward { BoundThere(e, s, place); }
  }

  lemma ListedAt(segments: set<Segment>, place: Place, tag: int)
    requires Listed(segments, place, tag)
    ensures exists x :: x in segments && VlanAt(x, place)
  {
  }

  lemma BoundThere(e: Env, s: Sys, place: Place)
    requires DriverInv(e, s) && BoundAt(s.w, place) && place.1 in e.forward
    ensures place in s.w.localnets
  {
    hide EventsOk, TaskOk, SegmentOk;
    var w := s.w;
    var x :| x in w.segments && VlanAt(x, place) && InUse(w.levels, x.id);
    var port :| port in w.levels && w.levels[port] == x.id;
    assert BoundOk(e, w, port);
  }

  lemma NobodyHas(e: Env, s: Sys, seg: Segment)
    requires DriverInv(e, s) && Fresh(s, seg)
    ensures !InUse(s.w.levels, seg.id) && !HasTask(s.tasks, seg)
  {
    forall u | u in s.tasks ensures s.tasks[u].seg != seg {
      assert SegmentOk(s, s.tasks[u]);
    }
    forall p | p in s.w.levels ensures s.w.levels[p] != seg.id {
      assert BoundOk(e, s.w, p);
    }
  }

  /** From any state such runs reach, a bind of a new segment that is given up leaves the
      segment, and the localnet port, with no port bound and nothing under way. */
  lemma AbandonedBindLeaks(e: Env, states0: seq<Sys>, actions0: seq<Action>, t: nat, port: string, seg: Segment)
    returns (states: seq<Sys>, actions: seq<Action>)
    requires DashFree(e.base) && Run(e, states0, actions0) && OrderlyRun(e, states0, actions0)
    requires var s := states0[|actions0|];
             t !in s.tasks && seg.kind == VlanSegment && Fresh(s, seg) && Orderly(e, s, StartBind(t, port, seg))
    ensures Run(e, states, actions) && OrderlyRun(e, states, actions) && states0 <= states && actions0 <= actions
    ensures var s := states[|actions|];
            && Forgotten(s, seg) && BridgedAt(e, s.w, seg)
            && s.tasks == states0[|actions0|].tasks && s.w.levels == states0[|actions0|].w.levels
  {
    hide DriverInv, PassOk, ViewOk, Init, OrderlyRun, BridgedAt;
    RunKeeps(e, states0, actions0);
    var s0 := states0[|actions0|];
    NobodyHas(e, s0, seg);
    states, actions := StartsAndBridges(e, states0, actions0, t, port, seg);
    var s := states[|actions|];
    assert s.tasks - {t} == s0.tasks;
    states, actions := Extend(e, states, actions, Abandon(t), s.(tasks := s0.tasks));
  }

  lemma StartsAndBridges(e: Env, states0: seq<Sys>, actions0: seq<Action>, t: nat, port: string, seg: Segment)
    returns (states: seq<Sys>, actions: seq<Action>)
    requires Run(e, states0, actions0) && OrderlyRun(e, states0, actions0)
    requires var s := states0[|actions0|];
             t !in s.tasks && seg.kind == VlanSegment && Fresh(s, seg) && Orderly(e, s, StartBind(t, port, seg))
    ensures Run(e, states, actions) && OrderlyRun(e, states, actions) && states0 <= states && actions0 <= actions
    ensures var s0, s := states0[|actions0|], states[|actions|];
            && s.tasks == s0.tasks[t := Bridged(port, seg)] && s.w.levels == s0.w.levels
            && seg in s.w.segments && BridgedAt(e, s.w, seg)
  {
    hide OrderlyRun, Healed, Init, Reflects;
    var s0 := states0[|actions0|];
    var w1 := s0.w.(segments := s0.w.segments + {seg});
    var s1 := s0.(w := w1, tasks := s0.tasks[t := Allocated(port, seg)], used := s0.used + {seg.id});
    states, actions := Extend(e, states0, actions0, StartBind(t, port, seg), s1);
    var s2 := s1.(w := if seg.physnet in e.forward then Ensured(w1, PlaceOf(seg), seg.segmentationId) else w1,
                  tasks := s1.tasks[t := Bridged(port, seg)]);
    states, actions := Extend(e, states, actions, Bridge(t), s2);
  }

  /** Nobody uses the segment or is about to. */
  predicate Forgotten(s: Sys, seg: Segment) {
    seg in s.w.segments && !InUse(s.w.levels, seg.id) && !HasTask(s.tasks, seg)
  }

  /** The port is all that keeps the segment. */
  predicate OnlyPort(s: Sys, port: string, seg: Segment) {
    && port in s.w.levels && seg in s.w.segments && s.w.levels[port] == seg.id
    && !InUse(s.w.levels - {port}, seg.id) && !HasTask(s.tasks, seg)
  }

  /** And a port that is bound to a segment `seg` while it is the last one on `x` leaves `x`. */
  lemma ReboundPortLeaks(e: Env, states0: seq<Sys>, actions0: seq<Action>, t: nat, port: string, x: Segment,
      seg: Segment)
    returns (states: seq<Sys>, actions: seq<Action>)
    requires Run(e, states0, actions0) && x.id != seg.id && seg.kind == VlanSegment
    requires OnlyPort(states0[|actions0|], port, x) && t !in states0[|actions0|].tasks
    requires seg in states0[|actions0|].w.segments || Fresh(states0[|actions0|], seg)
    ensures Run(e, states, actions) && states0 <= states && actions0 <= actions
    ensures Forgotten(states[|actions|], x)
    ensures states[|actions|].tasks == states0[|actions0|].tasks
    ensures states[|actions|].w.levels == states0[|actions0|].w.levels[port := seg.id]
  {
    var s0 := states0[|actions0|];
    var s1 := s0.(w := s0.w.(segments := s0.w.segments + {seg}), tasks := s0.tasks[t := Allocated(port, seg)],
                  used := s0.used + {seg.id});
    states, actions := Extend(e, states0, actions0, StartBind(t, port, seg), s1);
    states, actions := Completes(e, states, actions, t);
    assert s1.tasks - {t} == s0.tasks;
    forall p | p in s0.w.levels && p != port ensures s0.w.levels[p] != x.id {
      assert p in s0.w.levels - {port};
    }
  }

  // ----- The driver's calls are runs of these steps ---------------------------

  /** A bind that settled on `lower` without a failed call: two steps. */
  lemma BindIsTwoSteps(e: Env, d: Driver, s: Sys, t: nat, place: Place, port: string, before: seq<Segment>,
                       after: seq<Segment>, lower: Segment) returns (s1: Sys, s2: Sys)
    requires (forall seg :: seg in before <==> seg in s.w.segments) && t !in s.tasks
    requires Chose(before, after, place, lower) && (lower in after && lower !in before ==> lower.id !in s.used)
    requires d.Bridges(place.1) <==> place.1 in e.forward
    ensures Does(e, s, StartBind(t, port, lower), s1) && Does(e, s1, Bridge(t), s2)
    ensures s2.w == d.AfterBind(s.w, lower, place) && s2.tasks == s.tasks[t := Bridged(port, lower)]
  {
    s1 := s.(w := s.w.(segments := s.w.segments + {lower}), tasks := s.tasks[t := Allocated(port, lower)],
             used := s.used + {lower.id});
    s2 := s1.(w := d.AfterBind(s.w, lower, place), tasks := s1.tasks[t := Bridged(port, lower)]);
  }

  /** What the driver's release does to the world when no call fails. */
  predicate ReleasedBy(s: Sys, port: string, seg: Segment, s': Sys) {
    var left := s.w.(levels := s.w.levels - {port});
    && s'.tasks == s.tasks
    && s'.w == if LastOut(left.levels, Some(seg)) then Released(Removed(left, PlaceOf(seg)), seg.id) else left
  }

  /** A release without a failed call: two steps when another port is left, else four. */
  lemma ReleaseIsSteps(e: Env, s: Sys, t: nat, port: string, seg: Segment) returns (s1: Sys, s2: Sys, s3: Sys, s4: Sys)
    requires t !in s.tasks && port in s.w.levels && seg in s.w.segments && seg.kind == VlanSegment
               && seg.id == s.w.levels[port]
    ensures Does(e, s, Leave(t, port, seg), s1) && Does(e, s1, Check(t), s2)
    ensures LastOut(s.w.levels - {port}, Some(seg)) ==> Does(e, s2, Unbridge(t), s3) && Does(e, s3, Release(t), s4)
    ensures ReleasedBy(s, port, seg, if LastOut(s.w.levels - {port}, Some(seg)) then s4 else s2)
  {
    s1 := s.(w := s.w.(levels := s.w.levels - {port}), tasks := s.tasks[t := Left(seg)]);
    var last := LastOut(s1.w.levels, Some(seg));
    s2 := s1.(tasks := if last then s1.tasks[t := Releasing(seg)] else s1.tasks - {t});
    s3 := s2.(w := Removed(s2.w, PlaceOf(seg)), tasks := s2.tasks[t := Unbridged(seg)]);
    s4 := s3.(w := Released(s3.w, seg.id), tasks := s3.tasks - {t});
    assert s1.tasks - {t} == s.tasks && s3.tasks - {t} == s.tasks;
  }
}
