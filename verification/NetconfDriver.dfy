/** The NETCONF/OpenConfig switch driver: builds configuration objects in place, fills in
    deferred aggregate ids and sends the payloads. */
module NetconfDriver {
  import opened Wrappers
  import opened OpenConfig
  import opened ConfigObjects
  import opened PortPayloads

  /** The switch behind its client: one successful `edit_config` call applies the payload
      to the running configuration; one that raises may or may not have got that far. */
  class Client {
    var running: Config

    method EditConfig(payload: seq<Node>) returns (raised: bool)
      modifies this
      ensures running == old(running) || running == Apply(old(running), payload)
      ensures !raised ==> running == Apply(old(running), payload)
    {
      raised := *;
      var applied := *;
      if applied || !raised { running := Apply(running, payload); }
    }

    method Get() returns (raised: bool, c: Config)
      ensures !raised ==> c == running
    {
      raised := *;
      c := running;
    }
  }

  datatype Outcome = Done | Raised | InvalidVlan | NoAggregate

  class Driver {
    const client: Client
    const settings: Settings

    constructor (client: Client, settings: Settings)
      ensures this.client == client && this.settings == settings
    {
      this.client, this.settings := client, settings;
    }

    /** The aggregates the links are in. */
    method GetAggregateIds(links: seq<string>) returns (raised: bool, ids: seq<string>)
      ensures !raised ==> Enumerates(ids, AggregateIds(client.running, Each(links, settings.rename)))
    {
      var c: Config;
      ids := [];
      raised, c := client.Get();
      if raised { return; }
      var all := AggregateIds(c, Each(links, settings.rename));
      var todo := all;
      while todo != {}
        invariant todo <= all && Enumerates(ids, all - todo)
        decreases todo
      {
        var a := Pick(todo);
        EnumeratesMore(ids, all - todo, a);
        assert all - todo + {a} == all - (todo - {a});
        todo, ids := todo - {a}, ids + [a];
      }
    }

    method CreatePort(port: Port, links: seq<string>) returns (r: Outcome, ghost id: string, ghost aggs: seq<string>)
      modifies client
      ensures r == InvalidVlan <==> port.segmentVlan.Some? && !AccessVlanOk(port.segmentVlan.value)
      ensures r.InvalidVlan? || r.NoAggregate? ==> client.running == old(client.running)
      ensures r == Done ==>
                && client.running == Play(old(client.running), CreateEdits(settings, port, links, id, aggs))
                && (ModeOf(settings, port.bondMode) == Lacp ==>
                      id in AggregationIds(settings.prefix, settings.lo, settings.hi)
                          && id !in InterfaceNames(old(client.running)))
                && (ModeOf(settings, port.bondMode) == PreConf ==>
                      aggs != [] && Enumerates(aggs, AggregateIds(old(client.running), Each(links, settings.rename))))
    {
      id, aggs := "", [];
      if port.segmentVlan.Some? {
        if !AccessVlanOk(port.segmentVlan.value) {
          return InvalidVlan, id, aggs;
        }
      }
      match ModeOf(settings, port.bondMode) {
        case NonBond => r := CreateNonBond(port, links);
        case Lacp => r, id := CreateLacpAggregate(port, links);
        case PreConf => r, aggs := CreatePreConfAggregate(port, links);
        case Unsupported => r := Done;
      }
    }

    method FillNonBondLink(iface: Interface, port: Port, link: string)
      requires iface.Value() == NewEntry(settings.rename(link), false)
      modifies iface
      ensures iface.Value() == NonBondLink(settings, port, link)
    {
      FillConfig(iface, port);
      if AccessVlan(port).Some? {
        iface.ethernet := Some(iface.ethernet.value.(switchedVlan := AccessVlan(port)));
      } else {
        iface.ethernet := None;
      }
    }

    /** State, MTU and description of a link. */
    method FillConfig(iface: Interface, port: Port)
      requires iface.config.Some?
      modifies iface`config
      ensures iface.config == Some(old(iface.config).value.(
                enabled := Some(port.adminUp), description := Description(port),
                mtu := if settings.portMtu then Some(port.mtu) else old(iface.config).value.mtu))
    {
      iface.config := Some(iface.config.value.(enabled := Some(port.adminUp)));
      if settings.portMtu {
        iface.config := Some(iface.config.value.(mtu := Some(port.mtu)));
      }
      iface.config := Some(iface.config.value.(description := Description(port)));
    }

    method CreateNonBond(port: Port, links: seq<string>) returns (r: Outcome)
      modifies client
      ensures r == Done || r == Raised
      ensures r == Done ==>
                client.running == Play(old(client.running), ListEdits(NonBondEntries(settings, port, links)))
    {
      var ifaces := new Interfaces();
      for i := 0 to |links|
        invariant ifaces.Valid() && fresh(ifaces) && |ifaces.items| == i
        invariant forall j | 0 <= j < i ::
                    fresh(ifaces.items[j]) && ifaces.items[j].Value() == NonBondLink(settings, port, links[j])
        invariant client.running == old(client.running)
      {
        var iface := ifaces.Add(settings.rename(links[i]), false);
        FillNonBondLink(iface, port, links[i]);
      }
      assert ifaces.Entries() == NonBondEntries(settings, port, links);
      TwoPayloads(client.running, ifaces.Entries(), []);
      var raised := client.EditConfig([InterfacesElement(ifaces.Entries())]);
      r := if raised then Raised else Done;
    }

    /** Everything is built with the marker; the id is chosen and filled in while the
        device is locked. */
    method CreateLacpAggregate(port: Port, links: seq<string>) returns (r: Outcome, ghost id: string)
      modifies client
      ensures r == Done || r == Raised
      ensures r == Done ==>
                && client.running == Play(old(client.running),
                                          ListEdits(LacpEntries(settings, port, links, id))
                                              + LacpListEdits([LacpProtocol(settings, port, id)]))
                && id in AggregationIds(settings.prefix, settings.lo, settings.hi)
                && id !in InterfaceNames(old(client.running))
    {
      hide ListEdits, LacpListEdits, Play, Apply, LacpAggregate, LacpLink, LacpProtocol, InterfacesElement,
           LacpElement, AggregationIds, InterfaceNames, Allocated, AllocatedLacp, Allocatable, NoReplace;
      r, id := Raised, "";
      var ifaces, lacp := BuildLacp(port, links);
      var raised, c := client.Get();
      if raised { return; }
      var free := GetFreeAggregateId(c, settings.prefix, settings.lo, settings.hi);
      if free.None? { return; }
      id := free.value;
      AllocatedEntries(settings, port, links, id);
      AllocateDeferred(free.value, ifaces, lacp);
      assert ifaces.Entries() == LacpEntries(settings, port, links, id);
      assert lacp.Entries() == [LacpProtocol(settings, port, id)];
      TwoPayloads(client.running, ifaces.Entries(), lacp.Entries());
      raised := client.EditConfig([InterfacesElement(ifaces.Entries()), LacpElement(lacp.Entries())]);
      r := if raised then Raised else Done;
    }

    method BuildLacp(port: Port, links: seq<string>) returns (ifaces: Interfaces, lacp: ConfigObjects.Lacp)
      ensures fresh(ifaces) && fresh(lacp) && ifaces.Valid() && lacp.Valid()
      ensures forall i | 0 <= i < |ifaces.items| :: fresh(ifaces.items[i])
      ensures forall i | 0 <= i < |lacp.items| :: fresh(lacp.items[i])
      ensures ifaces.Entries() == LacpEntries(settings, port, links, DEFERRED)
      ensures lacp.Entries() == [LacpProtocol(settings, port, DEFERRED)]
    {
      hide LacpLink, LacpAggregate, LacpProtocol;
      lacp := BuildProtocol(port);
      ifaces := BuildLacpLinks(port, links);
      var iface := ifaces.Add(DEFERRED, true);
      FillLacpAggregate(iface, port);
    }

    method BuildProtocol(port: Port) returns (lacp: ConfigObjects.Lacp)
      ensures fresh(lacp) && lacp.Valid() && |lacp.items| == 1 && fresh(lacp.items[0])
      ensures lacp.items[0].Value() == LacpProtocol(settings, port, DEFERRED)
    {
      lacp := new ConfigObjects.Lacp();
      var protocol := lacp.Add(DEFERRED);
      protocol.operation := Replace;
      protocol.config := Some(protocol.config.value.(interval := Some(if port.fastRate then "FAST" else "SLOW")));
      if settings.nexus {
        protocol.config := Some(protocol.config.value.(interval := None));
      }
    }

    method BuildLacpLinks(port: Port, links: seq<string>) returns (ifaces: Interfaces)
      ensures fresh(ifaces) && ifaces.Valid() && |ifaces.items| == |links|
      ensures forall j | 0 <= j < |links| ::
                fresh(ifaces.items[j]) && ifaces.items[j].Value() == LacpLink(settings, port, DEFERRED, links[j])
    {
      hide LacpLink;
      ifaces := new Interfaces();
      for i := 0 to |links|
        invariant ifaces.Valid() && fresh(ifaces) && |ifaces.items| == i
        invariant forall j | 0 <= j < i ::
                    fresh(ifaces.items[j]) && ifaces.items[j].Value() == LacpLink(settings, port, DEFERRED, links[j])
      {
        var iface := ifaces.Add(settings.rename(links[i]), false);
        FillLacpLink(iface, port, links[i]);
      }
    }

    method FillLacpLink(iface: Interface, port: Port, link: string)
      requires iface.Value() == NewEntry(settings.rename(link), false)
      modifies iface
      ensures iface.Value() == LacpLink(settings, port, DEFERRED, link)
    {
      iface.config := Some(iface.config.value.(op := Merge));
      FillConfig(iface, port);
      iface.ethernet := Some(iface.ethernet.value.(aggregateId := Some(DEFERRED)));
    }

    method FillLacpAggregate(iface: Interface, port: Port)
      requires iface.Value() == NewEntry(DEFERRED, true)
      modifies iface
      ensures iface.Value() == LacpAggregate(port, DEFERRED)
    {
      iface.config := Some(iface.config.value.(op := Merge, name := Some(DEFERRED)));
      iface.config := Some(iface.config.value.(enabled := Some(port.adminUp), description := Description(port)));
      iface.aggregation := Some(iface.aggregation.value.(lagType := Some("LACP")));
      if port.minLinks != 0 {
        iface.aggregation := Some(iface.aggregation.value.(minLinks := Some(port.minLinks)));
      }
      iface.aggregation := Some(iface.aggregation.value.(switchedVlan := AccessVlan(port)));
    }

    method CreatePreConfAggregate(port: Port, links: seq<string>) returns (r: Outcome, aggs: seq<string>)
      modifies client
      ensures r != InvalidVlan && (r == NoAggregate ==> client.running == old(client.running))
      ensures r == Done ==>
                && client.running == Play(old(client.running), ListEdits(PreConfEntries(port, aggs)))
                && aggs != [] && Enumerates(aggs, AggregateIds(old(client.running), Each(links, settings.rename)))
    {
      var raised: bool;
      raised, aggs := GetAggregateIds(links);
      if raised { return Raised, aggs; }
      if aggs == [] { return NoAggregate, aggs; }
      var ifaces := new Interfaces();
      for i := 0 to |aggs|
        invariant ifaces.Valid() && fresh(ifaces) && |ifaces.items| == i
        invariant forall j | 0 <= j < i ::
                    fresh(ifaces.items[j]) && ifaces.items[j].Value() == PreConfAggregate(port, aggs[j])
        invariant client.running == old(client.running)
      {
        var iface := ifaces.Add(aggs[i], true);
        iface.operation := Merge;
        iface.config := Some(iface.config.value.(enabled := Some(port.adminUp)));
        iface.aggregation := Some(iface.aggregation.value.(switchedVlan := AccessVlan(port)));
      }
      assert ifaces.Entries() == PreConfEntries(port, aggs);
      TwoPayloads(client.running, ifaces.Entries(), []);
      raised := client.EditConfig([InterfacesElement(ifaces.Entries())]);
      r := if raised then Raised else Done;
    }

    method DeletePort(port: Port, links: seq<string>) returns (r: Outcome, ghost aggs: seq<string>)
      modifies client
      ensures r != InvalidVlan && (r == NoAggregate ==> client.running == old(client.running))
      ensures r == Done ==>
                && client.running == Play(old(client.running), DeleteEdits(settings, port, links, aggs))
                && (ModeOf(settings, port.bondMode) == Lacp || ModeOf(settings, port.bondMode) == PreConf ==>
                      Enumerates(aggs, AggregateIds(old(client.running), Each(links, settings.rename))))
    {
      aggs := [];
      match ModeOf(settings, port.bondMode) {
        case NonBond => r := DeleteNonBond(port, links);
        case Lacp => r, aggs := DeleteLacpAggregate(port, links);
        case PreConf => r, aggs := DeletePreConfAggregate(port, links);
        case Unsupported => r := Done;
      }
    }

    method DeleteNonBond(port: Port, links: seq<string>) returns (r: Outcome)
      modifies client
      ensures r == Done || r == Raised
      ensures r == Done ==>
                client.running == Play(old(client.running), ListEdits(NonBondEntriesGone(settings, port, links)))
    {
      var ifaces := new Interfaces();
      for i := 0 to |links|
        invariant ifaces.Valid() && fresh(ifaces) && |ifaces.items| == i
        invariant forall j | 0 <= j < i ::
                    fresh(ifaces.items[j]) && ifaces.items[j].Value() == NonBondLinkGone(settings, port, links[j])
        invariant client.running == old(client.running)
      {
        var iface := ifaces.Add(settings.rename(links[i]), false);
        MarkRemoved(iface);
        if port.vlanNetwork {
          var vlan := iface.ethernet.value.switchedVlan.value;
          iface.ethernet := Some(iface.ethernet.value.(switchedVlan := Some(vlan.(op := Remove))));
        } else {
          iface.ethernet := None;
        }
      }
      assert ifaces.Entries() == NonBondEntriesGone(settings, port, links);
      TwoPayloads(client.running, ifaces.Entries(), []);
      var raised := client.EditConfig([InterfacesElement(ifaces.Entries())]);
      r := if raised then Raised else Done;
    }

    /** The name is a reference and cannot be removed, so each leaf is, with a dummy value. */
    method MarkRemoved(iface: Interface)
      requires iface.config.Some?
      modifies iface`config
      ensures iface.config == Some(LinkRemoval(settings).(name := old(iface.config).value.name,
                                                          mtu := if settings.portMtu then Some(0)
                                                              else old(iface.config).value.mtu))
    {
      iface.config := Some(iface.config.value.(op := Remove));
      iface.config := Some(iface.config.value.(description := Some(""), enabled := Some(false)));
      if settings.portMtu {
        iface.config := Some(iface.config.value.(mtu := Some(0)));
      }
    }

    method FillLacpLinkGone(iface: Interface, port: Port, link: string)
      requires iface.Value() == NewEntry(settings.rename(link), false)
      modifies iface
      ensures iface.Value() == LacpLinkGone(settings, port, link)
    {
      MarkRemoved(iface);
      iface.ethernet := Some(iface.ethernet.value.(op := Remove));
      if port.vlanNetwork {
        var vlan := iface.ethernet.value.switchedVlan.value;
        iface.ethernet := Some(iface.ethernet.value.(switchedVlan := Some(vlan.(op := Remove))));
      } else {
        iface.ethernet := Some(iface.ethernet.value.(switchedVlan := None));
      }
    }

    method DeleteLacpAggregate(port: Port, links: seq<string>) returns (r: Outcome, aggs: seq<string>)
      modifies client
      ensures r == Done || r == Raised
      ensures r == Done ==>
                && client.running == Play(old(client.running),
                                          LacpListEdits(LacpGones(aggs))
                                              + ListEdits(LacpEntriesGone(settings, port, links, aggs)))
                && Enumerates(aggs, AggregateIds(old(client.running), Each(links, settings.rename)))
    {
      var raised: bool;
      raised, aggs := GetAggregateIds(links);
      if raised { return Raised, aggs; }
      hide LacpLinkGone, AggregateGone, LacpGone, ListEdits, LacpListEdits, Play, Apply, InterfacesElement,
           LacpElement, NoReplace;
      var ifaces := BuildLinksGone(port, links);
      var lacp := new ConfigObjects.Lacp();
      RemoveAggregates(port, links, aggs, ifaces, lacp);
      assert ifaces.Entries() == LacpEntriesGone(settings, port, links, aggs);
      assert lacp.Entries() == LacpGones(aggs);
      GoneNoReplace(settings, port, links, aggs);
      TwoPayloads(client.running, ifaces.Entries(), lacp.Entries());
      raised := client.EditConfig([LacpElement(lacp.Entries()), InterfacesElement(ifaces.Entries())]);
      r := if raised then Raised else Done;
    }

    method BuildLinksGone(port: Port, links: seq<string>) returns (ifaces: Interfaces)
      ensures fresh(ifaces) && ifaces.Valid() && |ifaces.items| == |links|
      ensures forall j | 0 <= j < |links| ::
                fresh(ifaces.items[j]) && ifaces.items[j].Value() == LacpLinkGone(settings, port, links[j])
    {
      hide LacpLinkGone;
      ifaces := new Interfaces();
      for i := 0 to |links|
        invariant ifaces.Valid() && fresh(ifaces) && |ifaces.items| == i
        invariant forall j | 0 <= j < i ::
                    fresh(ifaces.items[j]) && ifaces.items[j].Value() == LacpLinkGone(settings, port, links[j])
      {
        var iface := ifaces.Add(settings.rename(links[i]), false);
        FillLacpLinkGone(iface, port, links[i]);
      }
    }

    method AddLacpGone(lacp: ConfigObjects.Lacp, id: string) returns (entry: LacpInterface)
      requires lacp.Valid()
      modifies lacp
      ensures lacp.Valid() && lacp.items == old(lacp.items) + [entry] && fresh(entry) && entry.Value() == LacpGone(id)
    {
      entry := lacp.Add(id);
      entry.operation := Remove;
      entry.config := None;
    }

    method AddAggregateGone(ifaces: Interfaces, id: string) returns (iface: Interface)
      requires ifaces.Valid()
      modifies ifaces
      ensures ifaces.Valid() && ifaces.items == old(ifaces.items) + [iface] && fresh(iface)
                && iface.Value() == AggregateGone(id)
    {
      iface := ifaces.Add(id, true);
      iface.operation := Remove;
      iface.config := None;
      iface.aggregation := None;
    }

    /** Adds the removals of the aggregates after those of the links. */
    method RemoveAggregates(port: Port, links: seq<string>, aggs: seq<string>, ifaces: Interfaces,
        lacp: ConfigObjects.Lacp)
      requires ifaces.Valid() && lacp.Valid() && lacp.items == [] && |ifaces.items| == |links|
      requires forall j | 0 <= j < |links| :: ifaces.items[j].Value() == LacpLinkGone(settings, port, links[j])
      modifies ifaces, lacp
      ensures |ifaces.items| == |links| + |aggs| && |lacp.items| == |aggs|
      ensures forall j | 0 <= j < |links| :: ifaces.items[j].Value() == LacpLinkGone(settings, port, links[j])
      ensures forall j | 0 <= j < |aggs| ::
                ifaces.items[|links| + j].Value() == AggregateGone(aggs[j])
                && lacp.items[j].Value() == LacpGone(aggs[j])
    {
      hide LacpLinkGone, AggregateGone, LacpGone;
      ghost var before := ifaces.items;
      ghost var added: seq<Interface> := [];
      for i := 0 to |aggs|
        invariant ifaces.Valid() && lacp.Valid() && |added| == i && |lacp.items| == i
        invariant ifaces.items == before + added
        invariant forall j | 0 <= j < |links| :: before[j].Value() == LacpLinkGone(settings, port, links[j])
        invariant forall j | 0 <= j < i :: fresh(added[j]) && added[j].Value() == AggregateGone(aggs[j])
        invariant forall j | 0 <= j < i :: fresh(lacp.items[j]) && lacp.items[j].Value() == LacpGone(aggs[j])
      {
        var entry := AddLacpGone(lacp, aggs[i]);
        var iface := AddAggregateGone(ifaces, aggs[i]);
        added := added + [iface];
      }
    }

    method DeletePreConfAggregate(port: Port, links: seq<string>) returns (r: Outcome, aggs: seq<string>)
      modifies client
      ensures r != InvalidVlan && (r == NoAggregate ==> client.running == old(client.running))
      ensures r == Done ==>
                && client.running == Play(old(client.running), ListEdits(PreConfEntriesGone(aggs)))
                && aggs != [] && Enumerates(aggs, AggregateIds(old(client.running), Each(links, settings.rename)))
    {
      var raised: bool;
      raised, aggs := GetAggregateIds(links);
      if raised { return Raised, aggs; }
      if aggs == [] { return NoAggregate, aggs; }
      var ifaces := new Interfaces();
      for i := 0 to |aggs|
        invariant ifaces.Valid() && fresh(ifaces) && |ifaces.items| == i
        invariant forall j | 0 <= j < i :: fresh(ifaces.items[j]) && ifaces.items[j].Value() == PreConfGone(aggs[j])
        invariant client.running == old(client.running)
      {
        var iface := ifaces.Add(aggs[i], true);
        iface.config := Some(iface.config.value.(enabled := Some(false)));
        iface.aggregation := Some(iface.aggregation.value.(
          switchedVlan := Some(iface.aggregation.value.switchedVlan.value.(op := Remove))));
      }
      assert ifaces.Entries() == PreConfEntriesGone(aggs);
      TwoPayloads(client.running, ifaces.Entries(), []);
      raised := client.EditConfig([InterfacesElement(ifaces.Entries())]);
      r := if raised then Raised else Done;
    }
  }
}
