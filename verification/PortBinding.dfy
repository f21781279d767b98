/** Binding and unplugging of a port whose links end on several switches: everything is
    validated before any switch is touched, and each switch gets exactly its links. */
module PortBinding {
  import opened Wrappers

  datatype Link = Link(portId: string, switchId: string, switchInfo: string)

  datatype NetworkType = Vlan | Flat | Overlay | AnyOther

  datatype Segment = Segment(kind: NetworkType, physnet: string)

  /** One call of a driver: the device and the links it is given. */
  datatype Call = Call(device: string, links: seq<Link>)

  /** Devices by switch id or switch info, their physical networks (none: any), whether
      their driver loads, and the bond modes it supports. */
  datatype Inventory = Inventory(
    devices: map<string, string>, physnets: map<string, set<string>>, loadable: set<string>,
    bondModes: map<string, set<string>>)

  function DeviceOf(inv: Inventory, link: Link): Option<string> {
    if link.switchId != "" && link.switchId in inv.devices then Some(inv.devices[link.switchId])
    else if link.switchInfo != "" && link.switchInfo in inv.devices then Some(inv.devices[link.switchInfo])
    else None
  }

  predicate OnPhysnet(inv: Inventory, device: string, physnet: string) {
    device in inv.physnets && inv.physnets[device] != {} ==> physnet in inv.physnets[device]
  }

  predicate SupportsBond(inv: Inventory, device: string, bondMode: string) {
    bondMode != "" ==> device in inv.bondModes && bondMode in inv.bondModes[device]
  }

  // ----- Partition of the links by device ------------------------------------------------

  /** The links of one device, in their original order. */
  function LinksOf(inv: Inventory, links: seq<Link>, device: string): seq<Link> {
    if links == [] then []
    else
      var n := |links| - 1;
      LinksOf(inv, links[..n], device) + if DeviceOf(inv, links[n]) == Some(device) then [links[n]] else []
  }

  /** The devices in the order of their first link. */
  function Devices(inv: Inventory, links: seq<Link>): seq<string> {
    if links == [] then []
    else
      var n := |links| - 1;
      var before := Devices(inv, links[..n]);
      match DeviceOf(inv, links[n])
      case None => before
      case Some(d) => if d in before then before else before + [d]
  }

  /** What the drivers are called with. */
  function Plan(inv: Inventory, links: seq<Link>): (r: seq<Call>)
    ensures |r| == |Devices(inv, links)|
    ensures forall i | 0 <= i < |r| :: r[i] == Call(Devices(inv, links)[i], LinksOf(inv, links, Devices(inv, links)[i]))
  {
    var ds := Devices(inv, links);
    seq(|ds|, i requires 0 <= i < |ds| => Call(ds[i], LinksOf(inv, links, ds[i])))
  }

  lemma {:induction false} DevicesAre(inv: Inventory, links: seq<Link>, d: string)
    ensures d in Devices(inv, links) <==> exists l :: l in links && DeviceOf(inv, l) == Some(d)
    ensures forall i, j | 0 <= i < j < |Devices(inv, links)| :: Devices(inv, links)[i] != Devices(inv, links)[j]
  {
    if links != [] {
      var n := |links| - 1;
      assert links == links[..n] + [links[n]];
      DevicesAre(inv, links[..n], d);
    }
  }

  lemma {:induction false} LinksAre(inv: Inventory, links: seq<Link>, d: string, l: Link)
    ensures multiset(LinksOf(inv, links, d))[l] == if DeviceOf(inv, l) == Some(d) then multiset(links)[l] else 0
  {
    if links != [] {
      var n := |links| - 1;
      assert links == links[..n] + [links[n]];
      LinksAre(inv, links[..n], d, l);
    }
  }

  /** The calls partition the links that end on a known device: each device is called once,
      with at least one link; every link goes, as often as it is listed, to its device and
      to no other. */
  lemma PlanPartitions(inv: Inventory, links: seq<Link>)
    ensures forall i, j | 0 <= i < j < |Plan(inv, links)| :: Plan(inv, links)[i].device != Plan(inv, links)[j].device
    ensures forall i | 0 <= i < |Plan(inv, links)| :: Serves(inv, links, Plan(inv, links)[i])
    ensures forall l | l in links && DeviceOf(inv, l).Some? ::
              exists i :: 0 <= i < |Plan(inv, links)| && Plan(inv, links)[i].device == DeviceOf(inv, l).value
  {
    hide LinksOf, Serves, Plan;
    var ds := Devices(inv, links);
    forall i | 0 <= i < |ds| ensures Serves(inv, links, Plan(inv, links)[i]) {
      PlanServes(inv, links, ds[i]);
    }
    DevicesAre(inv, links, "");
    forall l | l in links && DeviceOf(inv, l).Some?
      ensures exists i :: 0 <= i < |Plan(inv, links)| && Plan(inv, links)[i].device == DeviceOf(inv, l).value
    {
      DevicesAre(inv, links, DeviceOf(inv, l).value);
      var i :| 0 <= i < |ds| && ds[i] == DeviceOf(inv, l).value;
      assert Plan(inv, links)[i].device == ds[i];
    }
  }

  /** The call has links, and exactly those of its device. */
  ghost predicate Serves(inv: Inventory, links: seq<Link>, c: Call) {
    && c.links != []
    && forall l :: multiset(c.links)[l] == if DeviceOf(inv, l) == Some(c.device) then multiset(links)[l] else 0
  }

  lemma PlanServes(inv: Inventory, links: seq<Link>, d: string)
    requires d in Devices(inv, links)
    ensures Serves(inv, links, Call(d, LinksOf(inv, links, d)))
  {
    forall l
      ensures multiset(LinksOf(inv, links, d))[l] == if DeviceOf(inv, l) == Some(d) then multiset(links)[l] else 0
    {
      LinksAre(inv, links, d, l);
    }
    DevicesAre(inv, links, d);
    var l :| l in links && DeviceOf(inv, l) == Some(d);
    LinksAre(inv, links, d, l);
    assert multiset(links)[l] > 0;
  }

  lemma NoLinks(inv: Inventory, links: seq<Link>, d: string)
    requires d !in Devices(inv, links)
    ensures LinksOf(inv, links, d) == []
  {
  }

  lemma {:induction false} NoneOf(inv: Inventory, links: seq<Link>, d: string)
    requires forall l | l in links :: DeviceOf(inv, l) != Some(d)
    ensures LinksOf(inv, links, d) == []
  {
    if links != [] {
      var n := |links| - 1;
      assert links[n] in links && forall l | l in links[..n] :: l in links;
      NoneOf(inv, links[..n], d);
    }
  }

  // ----- When a port is bound -------------------------------------------------------------

  predicate LinkOk(inv: Inventory, link: Link, physnet: string) {
    match DeviceOf(inv, link)
    case None => true
    case Some(d) => link.portId != "" && OnPhysnet(inv, d, physnet) && d in inv.loadable
  }

  /** The VLAN segment below an overlay network is left to other drivers. */
  predicate Hierarchical(networkSegments: seq<Segment>, segment: Segment) {
    segment.kind == Vlan && networkSegments != [] && networkSegments[0].kind == Overlay
  }

  predicate Accepts(inv: Inventory, networkSegments: seq<Segment>, segment: Segment, agentOk: bool,
                    links: seq<Link>, bondMode: string) {
    && !Hierarchical(networkSegments, segment) && agentOk
    && (forall l | l in links :: LinkOk(inv, l, segment.physnet))
    && Devices(inv, links) != []
    && (forall d | d in Devices(inv, links) :: SupportsBond(inv, d, bondMode))
  }

  datatype Outcome = Bound | NotBound | Raised

  class MechDriver {
    const inv: Inventory
    var created: seq<Call>
    var deleted: seq<Call>
    var bound: bool

    constructor (inv: Inventory)
      ensures this.inv == inv && created == [] && deleted == [] && !bound
    {
      this.inv, created, deleted, bound := inv, [], [], false;
    }

    /** The device table a loop over the links fills in; None when a link is refused. */
    method ByDevice(links: seq<Link>, physnet: string) returns (r: Option<seq<Call>>)
      ensures r.None? <==> exists l :: l in links && !LinkOk(inv, l, physnet)
      ensures r.Some? ==> r.value == Plan(inv, links)
    {
      var order: seq<string> := [];
      var table: map<string, seq<Link>> := map[];
      for i := 0 to |links|
        invariant forall l | l in links[..i] :: LinkOk(inv, l, physnet)
        invariant order == Devices(inv, links[..i])
        invariant forall d :: d in table <==> d in order
        invariant forall d | d in table :: table[d] == LinksOf(inv, links[..i], d)
      {
        var link := links[i];
        assert links[..i + 1][..i] == links[..i] && links[..i + 1] == links[..i] + [link];
        var device := DeviceOf(inv, link);
        forall d | d !in Devices(inv, links[..i]) ensures LinksOf(inv, links[..i], d) == [] {
          NoLinks(inv, links[..i], d);
        }
        if device.Some? {
          if link.portId == "" { assert link in links && !LinkOk(inv, link, physnet); return None; }
          if !OnPhysnet(inv, device.value, physnet) {
            assert link in links && !LinkOk(inv, link, physnet);
            return None;
          }
          if device.value !in table {
            order, table := order + [device.value], table[device.value := []];
          }
          if device.value !in inv.loadable { assert link in links && !LinkOk(inv, link, physnet); return None; }
          table := table[device.value := table[device.value] + [link]];
        }
      }
      assert links[..|links|] == links;
      r := Some(seq(|order|, i requires 0 <= i < |order| => Call(order[i], LinksOf(inv, links, order[i]))));
      assert r.value == Plan(inv, links);
    }

    method BondSupported(calls: seq<Call>, bondMode: string) returns (r: bool)
      ensures r <==> forall c | c in calls :: SupportsBond(inv, c.device, bondMode)
    {
      for i := 0 to |calls|
        invariant forall c | c in calls[..i] :: SupportsBond(inv, c.device, bondMode)
      {
        if !SupportsBond(inv, calls[i].device, bondMode) {
          assert calls[i] in calls;
          return false;
        }
        assert calls[..i + 1] == calls[..i] + [calls[i]];
      }
      assert calls[..|calls|] == calls;
      r := true;
    }

    lemma PlanSupports(links: seq<Link>, bondMode: string)
      ensures (forall c | c in Plan(inv, links) :: SupportsBond(inv, c.device, bondMode))
         <==> forall d | d in Devices(inv, links) :: SupportsBond(inv, d, bondMode)
    {
      var ds, plan := Devices(inv, links), Plan(inv, links);
      forall d | d in ds ensures exists c :: c in plan && c.device == d {
        var i :| 0 <= i < |ds| && ds[i] == d;
        assert plan[i] in plan;
      }
    }

    /** A port that is not bound has touched no switch. A bound one has called every device
        of its links once, with its links; a driver that raises stops the walk. */
    method TryToBind(networkSegments: seq<Segment>, segment: Segment, agentOk: bool, links: seq<Link>, bondMode: string)
      returns (r: Outcome)
      modifies this`created, this`bound
      ensures r == NotBound <==> !Accepts(inv, networkSegments, segment, agentOk, links, bondMode)
      ensures r == NotBound ==> created == old(created) && bound == old(bound)
      ensures r == Bound ==> bound && created == old(created) + Plan(inv, links)
      ensures r == Raised ==>
                bound == old(bound) && exists n ::
                0 < n <= |Plan(inv, links)| && created == old(created) + Plan(inv, links)[..n]
    {
      if Hierarchical(networkSegments, segment) { return NotBound; }
      if !agentOk { return NotBound; }
      var plan := ByDevice(links, segment.physnet);
      if plan.None? { return NotBound; }
      if plan.value == [] { return NotBound; }
      PlanSupports(links, bondMode);
      var supported := BondSupported(plan.value, bondMode);
      if !supported { return NotBound; }
      assert plan.value[..0] == [];
      for i := 0 to |plan.value|
        invariant created == old(created) + plan.value[..i] && bound == old(bound)
      {
        created := created + [plan.value[i]];
        assert plan.value[..i + 1] == plan.value[..i] + [plan.value[i]];
        var raised := *;
        if raised { return Raised; }
      }
      assert plan.value[..|plan.value|] == plan.value;
      bound := true;
      r := Bound;
    }

    /** Unplugging a port whose drivers load calls every device of its links once, with the
        links that plugging gave it, unless a driver does not support the bond mode. */
    method Unplug(links: seq<Link>, bondMode: string) returns (raised: bool)
      requires forall d | d in Devices(inv, links) :: d in inv.loadable
      modifies this`deleted
      ensures !(forall d | d in Devices(inv, links) :: SupportsBond(inv, d, bondMode)) ==>
                deleted == old(deleted) && !raised
      ensures (forall d | d in Devices(inv, links) :: SupportsBond(inv, d, bondMode)) && !raised ==>
                deleted == old(deleted) + Plan(inv, links)
      ensures exists n :: 0 <= n <= |Plan(inv, links)| && deleted == old(deleted) + Plan(inv, links)[..n]
    {
      raised := false;
      var plan := ByDeviceLoose(links);
      PlanSupports(links, bondMode);
      var supported := BondSupported(plan, bondMode);
      assert plan[..0] == [] && deleted == deleted + plan[..0];
      if !supported { return; }
      for i := 0 to |plan|
        invariant !raised && deleted == old(deleted) + plan[..i]
      {
        deleted := deleted + [plan[i]];
        assert plan[..i + 1] == plan[..i] + [plan[i]];
        raised := *;
        if raised { return; }
      }
      assert plan[..|plan|] == plan;
    }

    /** The same table without the checks. */
    method ByDeviceLoose(links: seq<Link>) returns (r: seq<Call>)
      ensures r == Plan(inv, links)
    {
      var order: seq<string> := [];
      var table: map<string, seq<Link>> := map[];
      for i := 0 to |links|
        invariant order == Devices(inv, links[..i])
        invariant forall d :: d in table <==> d in order
        invariant forall d | d in table :: table[d] == LinksOf(inv, links[..i], d)
      {
        var link := links[i];
        assert links[..i + 1][..i] == links[..i];
        forall d | d !in Devices(inv, links[..i]) ensures LinksOf(inv, links[..i], d) == [] {
          NoLinks(inv, links[..i], d);
        }
        var device := DeviceOf(inv, link);
        if device.Some? {
          if device.value !in table {
            order, table := order + [device.value], table[device.value := []];
          }
          table := table[device.value := table[device.value] + [link]];
        }
      }
      assert links[..|links|] == links;
      r := seq(|order|, i requires 0 <= i < |order| => Call(order[i], LinksOf(inv, links, order[i])));
      assert r == Plan(inv, links);
    }
  }
}
