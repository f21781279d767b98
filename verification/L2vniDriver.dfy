/** The L2VNI ML2 driver: dynamic VLAN segments below overlay networks, and the OVN
    localnet ports that bridge them to a physical network. */
module L2vniDriver {
  import opened Wrappers
  import opened Ovn

  /** (network, physical network): what a localnet port is named after. */
  type Place = (string, string)

  /** A row event on a localnet port, as OVN delivers it to the agent. */
  datatype Event = Event(create: bool, place: Place, tag: int)

  /** The part of Neutron and OVN the driver works on. */
  datatype World = World(segments: set<Segment>, levels: map<string, string>, localnets: map<Place, int>,
      events: seq<Event>)

  datatype BindError = NoPhysnet | PartialSegment | AllocationFailed | NoSegmentationId

  datatype BindResult = Skipped | Refused(error: BindError) | Continue(overlay: Segment, lower: Segment)

  datatype VifType = Unbound | Other | AnyOther

  predicate VlanAt(s: Segment, place: Place) {
    s.kind == VlanSegment && s.networkId == place.0 && s.physnet == place.1
  }

  // ----- Effects on the world ----------------------------------------------

  /** The localnet port of `place` carries `tag` afterwards; a stale one is replaced. */
  function Ensured(w: World, place: Place, tag: int): World {
    if place in w.localnets && w.localnets[place] == tag then w
    else
      var gone := if place in w.localnets then [Event(false, place, w.localnets[place])] else [];
      w.(localnets := w.localnets[place := tag], events := w.events + gone + [Event(true, place, tag)])
  }

  function Removed(w: World, place: Place): World {
    if place !in w.localnets then w
    else w.(localnets := w.localnets - {place}, events := w.events + [Event(false, place, w.localnets[place])])
  }

  function Released(w: World, id: string): World {
    w.(segments := (set s | s in w.segments && s.id != id))
  }

  predicate InUse(levels: map<string, string>, id: string) {
    exists p :: p in levels && levels[p] == id
  }

  /** What OVN tells the agent is what happened to the localnet ports. */
  function Play(localnets: map<Place, int>, events: seq<Event>): map<Place, int>
    decreases |events|
  {
    if events == [] then localnets
    else
      var n := |events| - 1;
      var before := Play(localnets, events[..n]);
      if events[n].create then before[events[n].place := events[n].tag] else before - {events[n].place}
  }

  lemma PlaySnoc(localnets: map<Place, int>, events: seq<Event>, e: Event)
    ensures Play(localnets, events + [e])
         == if e.create then Play(localnets, events)[e.place := e.tag] else Play(localnets, events) - {e.place}
  {
  }

  // ----- Neutron's segment plugin ------------------------------------------

  class Plugin {
    var segments: seq<Segment>
    var levels: map<string, string>

    /** None, or a new segment whose VLAN nobody else has on that physical network
        (0 stands for a segment without a segmentation id). */
    method AllocateDynamicSegment(networkId: string, physnet: string) returns (r: Option<Segment>)
      modifies this`segments
      ensures r.None? ==> segments == old(segments)
      ensures r.Some? ==>
                Allocates(old(segments), r.value, (networkId, physnet)) && segments == old(segments) + [r.value]
    {
      var id: string, vlan: int := *, *;
      var s := Segment(id, networkId, VlanSegment, physnet, vlan);
      if Allocates(segments, s, (networkId, physnet)) {
        segments := segments + [s];
        return Some(s);
      }
      return None;
    }

    method ReleaseDynamicSegment(id: string)
      modifies this`segments
      ensures forall s :: s in segments <==> s in old(segments) && s.id != id
    {
      var kept: seq<Segment> := [];
      for i := 0 to |segments|
        modifies {}
        invariant forall s :: s in kept <==> s in segments[..i] && s.id != id
      {
        assert segments[..i + 1] == segments[..i] + [segments[i]];
        if segments[i].id != id { kept := kept + [segments[i]]; }
      }
      assert segments[..|segments|] == segments;
      segments := kept;
    }
  }

  predicate Allocates(segments: seq<Segment>, s: Segment, place: Place) {
    && VlanAt(s, place)
    && (forall s' | s' in segments :: s'.id != s.id)
    && (forall s' | s' in segments && s'.kind == VlanSegment && s'.physnet == s.physnet ::
        s'.segmentationId != s.segmentationId)
  }

  // ----- OVN northbound ----------------------------------------------------

  class Northbound {
    var localnets: map<Place, int>
    var events: seq<Event>
    var failures: nat

    method Call() returns (raised: bool)
      modifies this`failures
      ensures failures == old(failures) + if raised then 1 else 0
    {
      raised := *;
      if raised { failures := failures + 1; }
    }

    method Lookup(place: Place) returns (raised: bool, tag: Option<int>)
      modifies this`failures
      ensures failures == old(failures) + if raised then 1 else 0
      ensures !raised ==> tag == if place in localnets then Some(localnets[place]) else None
    {
      raised := Call();
      tag := if place in localnets then Some(localnets[place]) else None;
    }

    /** Deleting a port that is not there raises (`check_error`). */
    method Delete(place: Place) returns (raised: bool)
      modifies this
      ensures failures == old(failures) + if raised then 1 else 0
      ensures raised ==> localnets == old(localnets) && events == old(events)
      ensures !raised ==> place in old(localnets) && localnets == old(localnets) - {place}
                          && events == old(events) + [Event(false, place, old(localnets)[place])]
      ensures place !in old(localnets) ==> raised
    {
      raised := Call();
      if !raised {
        if place in localnets {
          events := events + [Event(false, place, localnets[place])];
          localnets := localnets - {place};
        } else {
          raised, failures := true, failures + 1;
        }
      }
    }

    method Create(place: Place, tag: int) returns (raised: bool)
      modifies this
      ensures failures == old(failures) + if raised then 1 else 0
      ensures raised ==> localnets == old(localnets) && events == old(events)
      ensures !raised ==> place !in old(localnets) && localnets == old(localnets)[place := tag]
                          && events == old(events) + [Event(true, place, tag)]
    {
      raised := Call();
      if !raised {
        if place !in localnets {
          events := events + [Event(true, place, tag)];
          localnets := localnets[place := tag];
        } else {
          raised, failures := true, failures + 1;
        }
      }
    }
  }

  // ----- The driver --------------------------------------------------------

  /** The first VLAN segment of the network on the physical network. */
  function LowerSegment(segments: seq<Segment>, place: Place): (r: Option<Segment>)
    ensures r.Some? ==> r.value in segments && VlanAt(r.value, place)
    ensures r.None? ==> forall s | s in segments :: !VlanAt(s, place)
  {
    if segments == [] then None
    else if VlanAt(segments[0], place) then Some(segments[0])
    else LowerSegment(segments[1..], place)
  }

  class Driver {
    const plugin: Plugin
    const nb: Northbound
    const hasClient: bool
    const createLocalnet: bool
    const defaultPhysnet: string
    const anchorNetwork: string
    /** Some chassis maps the physical network, or the check itself failed open. */
    const canForward: string -> bool

    constructor (plugin: Plugin, nb: Northbound, hasClient: bool, createLocalnet: bool, defaultPhysnet: string,
                 anchorNetwork: string, canForward: string -> bool)
      ensures this.plugin == plugin && this.nb == nb && this.hasClient == hasClient
      ensures this.createLocalnet == createLocalnet && this.defaultPhysnet == defaultPhysnet
      ensures this.anchorNetwork == anchorNetwork && this.canForward == canForward
    {
      this.plugin, this.nb, this.hasClient, this.createLocalnet := plugin, nb, hasClient, createLocalnet;
      this.defaultPhysnet, this.anchorNetwork, this.canForward := defaultPhysnet, anchorNetwork, canForward;
    }

    ghost function W(): World
      reads plugin, nb
    {
      World((set s | s in plugin.segments), plugin.levels, nb.localnets, nb.events)
    }

    predicate Bridges(physnet: string) {
      createLocalnet && hasClient && canForward(physnet)
    }

    /** The world once a bind settled on `lower`, when no call raised. */
    function AfterBind(w: World, lower: Segment, place: Place): (r: World)
      ensures Bridges(place.1) ==> place in r.localnets && r.localnets[place] == lower.segmentationId
      ensures r.localnets - {place} == w.localnets - {place} && r.levels == w.levels
    {
      var w' := w.(segments := w.segments + {lower});
      if Bridges(place.1) then Ensured(w', place, lower.segmentationId) else w'
    }

    /** Whatever was there before, also a port with a stale tag that an earlier
        removal failed to delete: when no call raises, the localnet port carries
        the VLAN. When one does, at worst the port is missing or as it was. */
    method EnsureLocalnetPort(place: Place, vlan: int)
      modifies nb
      ensures nb.failures >= old(nb.failures)
      ensures nb.failures == old(nb.failures) ==>
                W() == if Bridges(place.1) then Ensured(old(W()), place, vlan) else old(W())
      ensures nb.localnets - {place} == old(nb.localnets) - {place}
      ensures place in nb.localnets ==>
                nb.localnets[place] == vlan
                    || (place in old(nb.localnets) && nb.localnets[place] == old(nb.localnets)[place])
      ensures exists evs :: nb.events == old(nb.events) + evs && nb.localnets == Play(old(nb.localnets), evs)
    {
      assert nb.events == nb.events + [] && nb.localnets == Play(nb.localnets, []);
      if !createLocalnet || !hasClient || !canForward(place.1) { return; }
      ghost var evs: seq<Event> := [];
      var raised, tag := nb.Lookup(place);
      if raised { return; }
      if tag.Some? {
        if tag.value == vlan { return; }
        PlaySnoc(nb.localnets, evs, Event(false, place, tag.value));
        evs := evs + [Event(false, place, tag.value)];
        raised := nb.Delete(place);
        if raised { return; }
      }
      PlaySnoc(old(nb.localnets), evs, Event(true, place, vlan));
      raised := nb.Create(place, vlan);
      if !raised { evs := evs + [Event(true, place, vlan)]; }
      assert nb.events == old(nb.events) + evs && nb.localnets == Play(old(nb.localnets), evs);
    }

    method RemoveLocalnetPort(place: Place)
      modifies nb
      ensures nb.failures >= old(nb.failures)
      ensures nb.failures == old(nb.failures) ==>
                W() == if createLocalnet && hasClient then Removed(old(W()), place) else old(W())
      ensures W() == old(W()) || W() == Removed(old(W()), place)
    {
      if !createLocalnet || !hasClient { return; }
      var raised, tag := nb.Lookup(place);
      if raised || tag.None? { return; }
      raised := nb.Delete(place);
    }

    /** The physical network named by the port's profile, else the configured default. */
    function ChosenPhysnet(profile: string): string {
      if profile != "" then profile else defaultPhysnet
    }

    /** Binds the overlay segment to a VLAN segment of the same network on the chosen
        physical network, allocating one when there is none. */
    method BindPortSegment(overlay: Segment, networkId: string, profile: string) returns (r: BindResult)
      modifies plugin`segments, nb
      ensures nb.failures >= old(nb.failures) && !r.Skipped?
      ensures r == Refused(NoPhysnet) <==> ChosenPhysnet(profile) == ""
      ensures r.Refused? && r.error != NoSegmentationId ==> W() == old(W())
      ensures r == Refused(PartialSegment) <==>
                && ChosenPhysnet(profile) != ""
                && var lower := LowerSegment(old(plugin.segments), (networkId, ChosenPhysnet(profile)));
                   lower.Some? && lower.value.segmentationId == 0
      ensures r == Refused(NoSegmentationId) ==>
                exists s :: Allocates(old(plugin.segments), s, (networkId, ChosenPhysnet(profile)))
                            && s.segmentationId == 0 && plugin.segments == old(plugin.segments) + [s]
                            && nb.localnets == old(nb.localnets) && nb.events == old(nb.events)
      ensures r.Continue? ==>
                && r.overlay == overlay && r.lower in plugin.segments && r.lower.segmentationId != 0
                && Chose(old(plugin.segments), plugin.segments, (networkId, ChosenPhysnet(profile)), r.lower)
                && (nb.failures == old(nb.failures) ==>
                      W() == AfterBind(old(W()), r.lower, (networkId, ChosenPhysnet(profile))))
    {
      var physnet := profile;
      if physnet == "" {
        physnet := defaultPhysnet;
      }
      if physnet == "" {
        return Refused(NoPhysnet);
      }
      var place := (networkId, physnet);
      var lower := None;
      for i := 0 to |plugin.segments|
        modifies {}
        invariant lower.None? && LowerSegment(plugin.segments[i..], place) == LowerSegment(plugin.segments, place)
      {
        assert plugin.segments[i..][1..] == plugin.segments[i + 1..];
        if VlanAt(plugin.segments[i], place) {
          lower := Some(plugin.segments[i]);
          break;
        }
      }
      if lower.Some? {
        if lower.value.segmentationId == 0 {
          return Refused(PartialSegment);
        }
      } else {
        lower := plugin.AllocateDynamicSegment(networkId, physnet);
        if lower.None? {
          return Refused(AllocationFailed);
        }
      }
      var vlan := lower.value.segmentationId;
      if vlan == 0 {
        return Refused(NoSegmentationId);
      }
      EnsureLocalnetPort(place, vlan);
      return Continue(overlay, lower.value);
    }

    /** Only baremetal ports outside the anchor network are bound, to the first overlay
        segment on offer. */
    method BindPort(baremetal: bool, networkId: string, networkName: string, offered: seq<Segment>, profile: string)
      returns (r: BindResult)
      modifies plugin`segments, nb
      ensures nb.failures >= old(nb.failures)
      ensures r.Skipped? <==> !baremetal || networkName == anchorNetwork || forall s | s in offered ::
                s.kind != OverlaySegment
      ensures r.Skipped? ==> W() == old(W())
      ensures r.Continue? ==>
                && r.overlay in offered && r.overlay.kind == OverlaySegment && r.lower.segmentationId != 0
                && Chose(old(plugin.segments), plugin.segments, (networkId, ChosenPhysnet(profile)), r.lower)
                && (nb.failures == old(nb.failures) ==>
                      W() == AfterBind(old(W()), r.lower, (networkId, ChosenPhysnet(profile))))
    {
      if !baremetal || networkName == anchorNetwork { return Skipped; }
      for i := 0 to |offered|
        invariant W() == old(W()) && plugin.segments == old(plugin.segments) && nb.failures == old(nb.failures)
        invariant forall s | s in offered[..i] :: s.kind != OverlaySegment
      {
        if offered[i].kind == OverlaySegment {
          r := BindPortSegment(offered[i], networkId, profile);
          assert offered[i] in offered;
          return;
        }
        assert offered[..i + 1] == offered[..i] + [offered[i]];
      }
      assert offered[..|offered|] == offered;
      return Skipped;
    }

    /** The port is gone from its bottom segment; the last one to go takes the
        localnet port and the segment with it. The segment is released even when
        the removal raised. */
    method ReleaseUnused(segment: Option<Segment>, networkId: string)
      modifies plugin`segments, nb
      ensures nb.failures >= old(nb.failures)
      ensures !LastOut(old(plugin.levels), segment) ==> W() == old(W())
      ensures LastOut(old(plugin.levels), segment) ==>
                && forall s :: s in plugin.segments <==> s in old(plugin.segments) && s.id != segment.value.id
      ensures LastOut(old(plugin.levels), segment) && nb.failures == old(nb.failures) ==>
                W() == Released(if createLocalnet && hasClient && segment.value.physnet != ""
                                then Removed(old(W()), (networkId, segment.value.physnet))
                                    else old(W()), segment.value.id)
    {
      if segment.None? || segment.value.kind != VlanSegment { return; }
      if InUse(plugin.levels, segment.value.id) { return; }
      if segment.value.physnet != "" {
        RemoveLocalnetPort((networkId, segment.value.physnet));
      }
      plugin.ReleaseDynamicSegment(segment.value.id);
    }

    method UpdatePortPostcommit(baremetal: bool, vif: VifType, bottom: Option<Segment>, networkId: string)
      returns (provisioned: bool)
      modifies plugin`segments, nb
      ensures provisioned <==> baremetal && vif == Other
      ensures !(baremetal && vif == Unbound && LastOut(old(plugin.levels), bottom)) ==> W() == old(W())
      ensures baremetal && vif == Unbound && LastOut(old(plugin.levels), bottom) ==>
                && (forall s | s in plugin.segments :: s.id != bottom.value.id)
                && (nb.failures == old(nb.failures) && createLocalnet && hasClient && bottom.value.physnet != "" ==>
                      W() == Released(Removed(old(W()), (networkId, bottom.value.physnet)), bottom.value.id))
    {
      provisioned := false;
      if !baremetal { return; }
      if vif == Unbound {
        ReleaseUnused(bottom, networkId);
      }
      if vif == Other {
        provisioned := true;
      }
    }

    method DeletePortPostcommit(baremetal: bool, bottom: Option<Segment>, networkId: string)
      modifies plugin`segments, nb
      ensures !(baremetal && LastOut(old(plugin.levels), bottom)) ==> W() == old(W())
      ensures baremetal && LastOut(old(plugin.levels), bottom) ==>
                && (forall s | s in plugin.segments :: s.id != bottom.value.id)
                && (nb.failures == old(nb.failures) && createLocalnet && hasClient && bottom.value.physnet != "" ==>
                      W() == Released(Removed(old(W()), (networkId, bottom.value.physnet)), bottom.value.id))
    {
      if !baremetal { return; }
      ReleaseUnused(bottom, networkId);
    }
  }

  /** No port is left on the segment, and the segment is one the driver looks after. */
  predicate LastOut(levels: map<string, string>, segment: Option<Segment>) {
    segment.Some? && segment.value.kind == VlanSegment && !InUse(levels, segment.value.id)
  }

  /** The segment a bind settles on: the one there was, or a newly allocated one. */
  predicate Chose(before: seq<Segment>, after: seq<Segment>, place: Place, s: Segment) {
    if LowerSegment(before, place).Some? then after == before && s == LowerSegment(before, place).value
    else after == before + [s] && Allocates(before, s, place)
  }
}
