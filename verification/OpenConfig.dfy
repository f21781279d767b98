/** OpenConfig objects, the payload trees they turn into, and what `edit-config` does
    with such a tree (section 7.2 of RFC 6241). A datastore maps leaf paths to text. */
module OpenConfig {
  import opened Wrappers
  import opened Names

  // ----- Payload trees ---------------------------------------------------------

  /** The operation attribute; the driver sends these three. */
  datatype Op = Merge | Replace | Remove

  /** An element's tag, and its key when it is an entry of a list. */
  datatype Label = Label(name: string, key: string)

  datatype Node =
    | Leaf(tag: Label, op: Option<Op>, text: string)
    | Box(tag: Label, op: Option<Op>, children: seq<Node>)

  type Path = seq<Label>

  type Config = map<Path, string>

  /** What a payload does to a datastore, one step at a time. */
  datatype Edit = Set(path: Path, text: string) | Clear(path: Path)

  /** An element without the attribute takes the operation of its parent. */
  function Edits(n: Node, at: Path, inherited: Op): seq<Edit>
    decreases n
  {
    var path := at + [n.tag];
    match if n.op.Some? then n.op.value else inherited
    case Remove => [Clear(path)]
    case Merge => (match n case Leaf(_, _, text) => [Set(path, text)] case Box(_, _, ns) => AllEdits(ns, path, Merge))
    case Replace =>
      match n
      case Leaf(_, _, text) => [Set(path, text)]
      case Box(_, _, ns) => [Clear(path)] + AllEdits(ns, path, Replace)
  }

  function AllEdits(ns: seq<Node>, at: Path, inherited: Op): seq<Edit>
    decreases ns
  {
    if ns == [] then [] else Edits(ns[0], at, inherited) + AllEdits(ns[1..], at, inherited)
  }

  function Do(c: Config, e: Edit): Config {
    match e
    case Set(path, text) => c[path := text]
    case Clear(path) => map p | p in c && !(path <= p) :: c[p]
  }

  function Play(c: Config, es: seq<Edit>): Config
    decreases |es|
  {
    if es == [] then c else Do(Play(c, es[..|es| - 1]), es[|es| - 1])
  }

  /** `edit-config` with these trees; the default operation is merge. */
  function Apply(c: Config, payload: seq<Node>): Config {
    Play(c, AllEdits(payload, [], Merge))
  }

  lemma {:induction false} PlayConcat(c: Config, a: seq<Edit>, b: seq<Edit>)
    ensures Play(c, a + b) == Play(Play(c, a), b)
    decreases |b|
  {
    if b == [] {
      assert a + b == a;
    } else {
      var n := |b| - 1;
      assert (a + b)[..|a + b| - 1] == a + b[..n];
      PlayConcat(c, a, b[..n]);
    }
  }

  // ----- When one payload undoes another ---------------------------------------

  predicate Touches(e: Edit, p: Path) {
    match e
    case Set(path, _) => path == p
    case Clear(path) => path <= p
  }

  predicate Covered(e: Edit, d: Edit) {
    match e
    case Set(path, _) => Touches(d, path)
    case Clear(path) => d.Clear? && d.path <= path
  }

  /** Whatever `c` does is overwritten by something in `d`. */
  predicate Undone(c: seq<Edit>, d: seq<Edit>) {
    forall e | e in c :: exists f :: f in d && Covered(e, f)
  }

  ghost predicate SameAt(a: Config, b: Config, p: Path) {
    (p in a <==> p in b) && (p in a && p in b ==> a[p] == b[p])
  }

  /** The last edit that touches a path decides. */
  lemma {:induction false} PlayAt(a: Config, b: Config, es: seq<Edit>, p: Path)
    requires SameAt(a, b, p) || exists e :: e in es && Touches(e, p)
    ensures SameAt(Play(a, es), Play(b, es), p)
    decreases |es|
  {
    if es != [] {
      var n := |es| - 1;
      if !Touches(es[n], p) {
        assert forall e | e in es && e != es[n] :: e in es[..n];
        PlayAt(a, b, es[..n], p);
      }
    }
  }

  lemma {:induction false} PlayElsewhere(a: Config, es: seq<Edit>, p: Path)
    requires forall e | e in es :: !Touches(e, p)
    ensures SameAt(Play(a, es), a, p)
    decreases |es|
  {
    if es != [] {
      var n := |es| - 1;
      assert !Touches(es[n], p);
      PlayElsewhere(a, es[..n], p);
    }
  }

  /** Create then delete is just delete, on every datastore. */
  lemma UndoneMeansDelete(cfg: Config, c: seq<Edit>, d: seq<Edit>)
    requires Undone(c, d)
    ensures Play(Play(cfg, c), d) == Play(cfg, d)
  {
    forall p ensures SameAt(Play(Play(cfg, c), d), Play(cfg, d), p) {
      if exists e :: e in d && Touches(e, p) {
        PlayAt(Play(cfg, c), cfg, d, p);
      } else {
        forall e | e in c ensures !Touches(e, p) {
          var f :| f in d && Covered(e, f);
          assert !Touches(f, p);
        }
        PlayElsewhere(cfg, c, p);
        PlayAt(Play(cfg, c), cfg, d, p);
      }
    }
    ConfigEqual(Play(Play(cfg, c), d), Play(cfg, d));
  }

  lemma ConfigEqual(a: Config, b: Config)
    requires forall p :: SameAt(a, b, p)
    ensures a == b
  {
    forall p ensures p in a <==> p in b { assert SameAt(a, b, p); }
    forall p | p in a ensures a[p] == b[p] { assert SameAt(a, b, p); }
  }

  // ----- Interface and LACP groups -----------------------------------------------

  const DEFERRED := "deferred"

  datatype ConfigGroup = ConfigGroup(
    op: Op, name: Option<string>, description: Option<string>, enabled: Option<bool>, mtu: Option<int>)

  /** The `config` container of a switched-vlan. */
  datatype SwitchedVlan = SwitchedVlan(op: Op, mode: Option<string>, accessVlan: Option<int>)

  datatype EthernetGroup = EthernetGroup(op: Op, aggregateId: Option<string>, switchedVlan: Option<SwitchedVlan>)

  datatype AggregationGroup = AggregationGroup(
    op: Op, lagType: Option<string>, minLinks: Option<int>, switchedVlan: Option<SwitchedVlan>)

  /** An entry of the interfaces list. */
  datatype Entry =
    | Ethernet(name: string, config: Option<ConfigGroup>, ethernet: Option<EthernetGroup>)
    | Aggregate(name: string, op: Op, config: Option<ConfigGroup>, aggregation: Option<AggregationGroup>)

  datatype LacpConfig = LacpConfig(op: Op, name: string, interval: Option<string>, mode: string)

  datatype LacpEntry = LacpEntry(name: string, op: Op, config: Option<LacpConfig>)

  // ----- Elements ------------------------------------------------------------------

  function Tag(name: string): Label {
    Label(name, "")
  }

  function OptLeaf(tag: string, op: Option<Op>, text: Option<string>): seq<Node> {
    if text.None? then [] else [Leaf(Tag(tag), op, text.value)]
  }

  function BoolText(b: Option<bool>): Option<string> {
    if b.None? then None else Some(if b.value then "true" else "false")
  }

  function IntText(n: Option<int>): Option<string> {
    if n.None? then None else Some(Decimal(n.value))
  }

  /** The operation is repeated on each leaf. */
  function ConfigElement(c: ConfigGroup): Node {
    Box(Tag("config"), None,
        OptLeaf("name", Some(c.op), c.name) + OptLeaf("description", Some(c.op), c.description)
        + (OptLeaf("enabled", Some(c.op), BoolText(c.enabled)) + OptLeaf("mtu", Some(c.op), IntText(c.mtu))))
  }

  function SwitchedVlanElement(v: SwitchedVlan): Node {
    Box(Tag("switched-vlan"), None,
        [Box(Tag("config"), Some(v.op),
             OptLeaf("interface-mode", None, v.mode) + OptLeaf("access-vlan", None, IntText(v.accessVlan)))])
  }

  function OptSwitchedVlan(v: Option<SwitchedVlan>): seq<Node> {
    if v.None? then [] else [SwitchedVlanElement(v.value)]
  }

  function EthernetElement(e: EthernetGroup): Node {
    Box(Tag("ethernet"), None,
        [Box(Tag("config"), Some(e.op), OptLeaf("aggregate-id", None, e.aggregateId))]
            + OptSwitchedVlan(e.switchedVlan))
  }

  function AggregationElement(a: AggregationGroup): Node {
    Box(Tag("aggregation"), None,
        [Box(Tag("config"), Some(a.op), OptLeaf("lag-type", None, a.lagType)
            + OptLeaf("min-links", None, IntText(a.minLinks)))]
        + OptSwitchedVlan(a.switchedVlan))
  }

  function OptConfig(c: Option<ConfigGroup>): seq<Node> {
    if c.None? then [] else [ConfigElement(c.value)]
  }

  function EntryElement(e: Entry): Node {
    match e
    case Ethernet(name, config, ethernet) =>
      Box(Label("interface", name), None,
          [Leaf(Tag("name"), None, name)]
          + (OptConfig(config) + if ethernet.None? then [] else [EthernetElement(ethernet.value)]))
    case Aggregate(name, op, config, aggregation) =>
      Box(Label("interface", name), Some(op),
          [Leaf(Tag("name"), None, name)]
          + (OptConfig(config) + if aggregation.None? then [] else [AggregationElement(aggregation.value)]))
  }

  function InterfacesElement(es: seq<Entry>): Node {
    Box(Tag("interfaces"), None, seq(|es|, i requires 0 <= i < |es| => EntryElement(es[i])))
  }

  function LacpEntryElement(e: LacpEntry): Node {
    Box(Label("interface", e.name), Some(e.op),
        (if e.name == "" then [] else [Leaf(Tag("name"), None, e.name)])
        + if e.config.None? then [] else [LacpConfigElement(e.config.value)])
  }

  function LacpConfigElement(c: LacpConfig): Node {
    Box(Tag("config"), Some(c.op),
        OptLeaf("name", None, Some(c.name))
            + (OptLeaf("interval", None, c.interval) + OptLeaf("lacp-mode", None, Some(c.mode))))
  }

  /** Without entries the inner container is left out. */
  function LacpElement(es: seq<LacpEntry>): Node {
    Box(Tag("lacp"), None,
        if es == [] then []
        else [Box(Tag("interfaces"), None, seq(|es|, i requires 0 <= i < |es| => LacpEntryElement(es[i])))])
  }

  // ----- Their edits ---------------------------------------------------------------

  const INTERFACES := [Tag("interfaces")]
  const LACP_INTERFACES := [Tag("lacp"), Tag("interfaces")]

  function InterfacePath(name: string): Path {
    INTERFACES + [Label("interface", name)]
  }

  function LacpPath(name: string): Path {
    LACP_INTERFACES + [Label("interface", name)]
  }

  /** A container with an operation: what it clears, and the leaves below it. */
  function GroupEdits(op: Op, path: Path, leaves: seq<Edit>): seq<Edit> {
    match op
    case Remove => [Clear(path)]
    case Merge => leaves
    case Replace => [Clear(path)] + leaves
  }

  function LeafEdit(op: Op, path: Path, text: Option<string>): seq<Edit> {
    if text.None? then [] else if op == Remove then [Clear(path)] else [Set(path, text.value)]
  }

  function ConfigEdits(c: ConfigGroup, at: Path): seq<Edit> {
    LeafEdit(c.op, at + [Tag("name")], c.name) + LeafEdit(c.op, at + [Tag("description")], c.description)
    + (LeafEdit(c.op, at + [Tag("enabled")], BoolText(c.enabled)) + LeafEdit(c.op, at + [Tag("mtu")], IntText(c.mtu)))
  }

  function SwitchedVlanEdits(v: Option<SwitchedVlan>, at: Path): seq<Edit> {
    if v.None? then []
    else
      var path := at + [Tag("switched-vlan")] + [Tag("config")];
      GroupEdits(v.value.op, path,
                 LeafEdit(Merge, path + [Tag("interface-mode")], v.value.mode)
                 + LeafEdit(Merge, path + [Tag("access-vlan")], IntText(v.value.accessVlan)))
  }

  function EthernetEdits(e: EthernetGroup, at: Path): seq<Edit> {
    var path := at + [Tag("ethernet")];
    GroupEdits(e.op, path + [Tag("config")],
        LeafEdit(Merge, path + [Tag("config")] + [Tag("aggregate-id")], e.aggregateId))
    + SwitchedVlanEdits(e.switchedVlan, path)
  }

  function AggregationEdits(a: AggregationGroup, at: Path): seq<Edit> {
    var path := at + [Tag("aggregation")];
    GroupEdits(a.op, path + [Tag("config")],
               LeafEdit(Merge, path + [Tag("config")] + [Tag("lag-type")], a.lagType)
               + LeafEdit(Merge, path + [Tag("config")] + [Tag("min-links")], IntText(a.minLinks)))
    + SwitchedVlanEdits(a.switchedVlan, path)
  }

  function OptConfigEdits(c: Option<ConfigGroup>, at: Path): seq<Edit> {
    if c.None? then [] else ConfigEdits(c.value, at + [Tag("config")])
  }

  function EntryEdits(e: Entry): seq<Edit> {
    var path := InterfacePath(e.name);
    var name := [Set(path + [Tag("name")], e.name)];
    match e
    case Ethernet(_, config, ethernet) =>
      name + (OptConfigEdits(config, path) + if ethernet.None? then [] else EthernetEdits(ethernet.value, path))
    case Aggregate(_, op, config, aggregation) =>
      GroupEdits(op, path,
                 name + (OptConfigEdits(config, path)
                         + if aggregation.None? then [] else AggregationEdits(aggregation.value, path)))
  }

  function LacpEdits(e: LacpEntry): seq<Edit> {
    var path := LacpPath(e.name);
    GroupEdits(e.op, path,
               (if e.name == "" then [] else [Set(path + [Tag("name")], e.name)])
               + if e.config.None? then [] else LacpGroupEdits(e.config.value, path + [Tag("config")]))
  }

  function LacpGroupEdits(c: LacpConfig, at: Path): seq<Edit> {
    GroupEdits(c.op, at,
               LeafEdit(Merge, at + [Tag("name")], Some(c.name))
               + (LeafEdit(Merge, at + [Tag("interval")], c.interval)
                   + LeafEdit(Merge, at + [Tag("lacp-mode")], Some(c.mode))))
  }

  function ListEdits(es: seq<Entry>): seq<Edit> {
    if es == [] then [] else ListEdits(es[..|es| - 1]) + EntryEdits(es[|es| - 1])
  }

  function LacpListEdits(es: seq<LacpEntry>): seq<Edit> {
    if es == [] then [] else LacpListEdits(es[..|es| - 1]) + LacpEdits(es[|es| - 1])
  }

  lemma {:induction false} AllEditsConcat(a: seq<Node>, b: seq<Node>, at: Path, inherited: Op)
    ensures AllEdits(a + b, at, inherited) == AllEdits(a, at, inherited) + AllEdits(b, at, inherited)
  {
    if a == [] {
      assert a + b == b;
    } else {
      assert (a + b)[1..] == a[1..] + b;
      AllEditsConcat(a[1..], b, at, inherited);
    }
  }

  lemma OneEdit(n: Node, at: Path, inherited: Op)
    ensures AllEdits([n], at, inherited) == Edits(n, at, inherited)
  {
  }

  /** A leaf below a container that is not itself removed. */
  lemma OptLeafEdits(tag: string, op: Option<Op>, text: Option<string>, at: Path, inherited: Op)
    requires inherited != Remove
    ensures AllEdits(OptLeaf(tag, op, text), at, inherited)
         == LeafEdit(if op.Some? then op.value else inherited, at + [Tag(tag)], text)
    ensures LeafEdit(inherited, at + [Tag(tag)], text) == LeafEdit(Merge, at + [Tag(tag)], text)
  {
  }

  lemma ConfigElementEdits(c: ConfigGroup, at: Path, inherited: Op)
    requires inherited != Remove
    ensures inherited == Merge ==> Edits(ConfigElement(c), at, inherited) == ConfigEdits(c, at + [Tag("config")])
  {
    var path := at + [Tag("config")];
    var a, b := OptLeaf("name", Some(c.op), c.name), OptLeaf("description", Some(c.op), c.description);
    var d, e := OptLeaf("enabled", Some(c.op), BoolText(c.enabled)), OptLeaf("mtu", Some(c.op), IntText(c.mtu));
    AllEditsConcat(a, b, path, inherited);
    AllEditsConcat(d, e, path, inherited);
    AllEditsConcat(a + b, d + e, path, inherited);
    OptLeafEdits("name", Some(c.op), c.name, path, inherited);
    OptLeafEdits("description", Some(c.op), c.description, path, inherited);
    OptLeafEdits("enabled", Some(c.op), BoolText(c.enabled), path, inherited);
    OptLeafEdits("mtu", Some(c.op), IntText(c.mtu), path, inherited);
  }

  lemma GroupIs(name: string, op: Op, children: seq<Node>, at: Path, leaves: seq<Edit>)
    requires op != Remove ==> AllEdits(children, at + [Tag(name)], op) == leaves
    ensures Edits(Box(Tag(name), Some(op), children), at, Merge) == GroupEdits(op, at + [Tag(name)], leaves)
    ensures Edits(Box(Tag(name), Some(op), children), at, Replace) == GroupEdits(op, at + [Tag(name)], leaves)
  {
  }

  lemma TwoLeaves(t1: string, v1: Option<string>, t2: string, v2: Option<string>, at: Path, inherited: Op)
    requires inherited != Remove
    ensures AllEdits(OptLeaf(t1, None, v1) + OptLeaf(t2, None, v2), at, inherited)
         == LeafEdit(Merge, at + [Tag(t1)], v1) + LeafEdit(Merge, at + [Tag(t2)], v2)
  {
    AllEditsConcat(OptLeaf(t1, None, v1), OptLeaf(t2, None, v2), at, inherited);
    OptLeafEdits(t1, None, v1, at, inherited);
    OptLeafEdits(t2, None, v2, at, inherited);
  }

  lemma OptSwitchedVlanEdits(v: Option<SwitchedVlan>, at: Path)
    ensures AllEdits(OptSwitchedVlan(v), at, Merge) == SwitchedVlanEdits(v, at)
  {
    if v.Some? {
      var path := at + [Tag("switched-vlan")];
      var leaves := OptLeaf("interface-mode", None, v.value.mode)
          + OptLeaf("access-vlan", None, IntText(v.value.accessVlan));
      if v.value.op != Remove {
        TwoLeaves("interface-mode", v.value.mode, "access-vlan", IntText(v.value.accessVlan), path + [Tag("config")],
            v.value.op);
      }
      GroupIs("config", v.value.op, leaves, path,
              LeafEdit(Merge, path + [Tag("config")] + [Tag("interface-mode")], v.value.mode)
              + LeafEdit(Merge, path + [Tag("config")] + [Tag("access-vlan")], IntText(v.value.accessVlan)));
      OneEdit(Box(Tag("config"), Some(v.value.op), leaves), path, Merge);
      OneEdit(SwitchedVlanElement(v.value), at, Merge);
    }
  }

  lemma EthernetElementEdits(e: EthernetGroup, at: Path)
    ensures Edits(EthernetElement(e), at, Merge) == EthernetEdits(e, at)
  {
    var path := at + [Tag("ethernet")];
    var config := Box(Tag("config"), Some(e.op), OptLeaf("aggregate-id", None, e.aggregateId));
    if e.op != Remove { OptLeafEdits("aggregate-id", None, e.aggregateId, path + [Tag("config")], e.op); }
    GroupIs("config", e.op, OptLeaf("aggregate-id", None, e.aggregateId), path,
            LeafEdit(Merge, path + [Tag("config")] + [Tag("aggregate-id")], e.aggregateId));
    AllEditsConcat([config], OptSwitchedVlan(e.switchedVlan), path, Merge);
    OneEdit(config, path, Merge);
    OptSwitchedVlanEdits(e.switchedVlan, path);
  }

  lemma AggregationElementEdits(a: AggregationGroup, at: Path)
    ensures Edits(AggregationElement(a), at, Merge) == AggregationEdits(a, at)
  {
    var path := at + [Tag("aggregation")];
    var leaves := OptLeaf("lag-type", None, a.lagType) + OptLeaf("min-links", None, IntText(a.minLinks));
    var config := Box(Tag("config"), Some(a.op), leaves);
    if a.op != Remove {
      TwoLeaves("lag-type", a.lagType, "min-links", IntText(a.minLinks), path + [Tag("config")], a.op);
    }
    GroupIs("config", a.op, leaves, path,
            LeafEdit(Merge, path + [Tag("config")] + [Tag("lag-type")], a.lagType)
            + LeafEdit(Merge, path + [Tag("config")] + [Tag("min-links")], IntText(a.minLinks)));
    AllEditsConcat([config], OptSwitchedVlan(a.switchedVlan), path, Merge);
    OneEdit(config, path, Merge);
    OptSwitchedVlanEdits(a.switchedVlan, path);
  }

  lemma OptConfigElementEdits(c: Option<ConfigGroup>, at: Path)
    ensures AllEdits(OptConfig(c), at, Merge) == OptConfigEdits(c, at)
  {
    if c.Some? {
      ConfigElementEdits(c.value, at, Merge);
      OneEdit(ConfigElement(c.value), at, Merge);
    }
  }

  /** An entry with its name first, then its configuration, then the rest. */
  lemma ThreeParts(name: Node, config: Option<ConfigGroup>, rest: seq<Node>, at: Path)
    ensures AllEdits([name] + (OptConfig(config) + rest), at, Merge)
         == Edits(name, at, Merge) + (OptConfigEdits(config, at) + AllEdits(rest, at, Merge))
  {
    AllEditsConcat([name], OptConfig(config) + rest, at, Merge);
    AllEditsConcat(OptConfig(config), rest, at, Merge);
    OneEdit(name, at, Merge);
    OptConfigElementEdits(config, at);
  }

  /** The driver never replaces a whole interface. */
  predicate NoReplace(e: Entry) {
    e.Aggregate? ==> e.op != Replace
  }

  lemma EntryElementEdits(e: Entry)
    requires NoReplace(e)
    ensures Edits(EntryElement(e), INTERFACES, Merge) == EntryEdits(e)
  {
    var path := InterfacePath(e.name);
    var name := Leaf(Tag("name"), None, e.name);
    match e {
      case Ethernet(_, config, ethernet) =>
        var rest := if ethernet.None? then [] else [EthernetElement(ethernet.value)];
        ThreeParts(name, config, rest, path);
        if ethernet.Some? {
          OneEdit(EthernetElement(ethernet.value), path, Merge);
          EthernetElementEdits(ethernet.value, path);
        }
      case Aggregate(_, op, config, aggregation) =>
        var rest := if aggregation.None? then [] else [AggregationElement(aggregation.value)];
        ThreeParts(name, config, rest, path);
        if aggregation.Some? {
          OneEdit(AggregationElement(aggregation.value), path, Merge);
          AggregationElementEdits(aggregation.value, path);
        }
    }
  }

  lemma LacpConfigEdits(c: LacpConfig, at: Path, inherited: Op)
    requires inherited != Remove
    ensures Edits(LacpConfigElement(c), at, inherited) == LacpGroupEdits(c, at + [Tag("config")])
  {
    var path := at + [Tag("config")];
    if c.op != Remove {
      TwoLeaves("interval", c.interval, "lacp-mode", Some(c.mode), path, c.op);
      OptLeafEdits("name", None, Some(c.name), path, c.op);
      AllEditsConcat(OptLeaf("name", None, Some(c.name)),
                     OptLeaf("interval", None, c.interval) + OptLeaf("lacp-mode", None, Some(c.mode)), path, c.op);
    }
  }

  lemma LacpElementEdits(e: LacpEntry)
    ensures Edits(LacpEntryElement(e), LACP_INTERFACES, Merge) == LacpEdits(e)
  {
    if e.op != Remove {
      var path := LacpPath(e.name);
      var name := if e.name == "" then [] else [Leaf(Tag("name"), None, e.name)];
      var rest := if e.config.None? then [] else [LacpConfigElement(e.config.value)];
      AllEditsConcat(name, rest, path, e.op);
      if e.name != "" { OneEdit(name[0], path, e.op); }
      if e.config.Some? {
        OneEdit(rest[0], path, e.op);
        LacpConfigEdits(e.config.value, path, e.op);
      }
    }
  }

  /** What the interfaces container does, entry by entry. */
  lemma {:induction false} InterfacesEdits(es: seq<Entry>)
    requires forall e | e in es :: NoReplace(e)
    ensures AllEdits(seq(|es|, i requires 0 <= i < |es| => EntryElement(es[i])), INTERFACES, Merge) == ListEdits(es)
    decreases |es|
  {
    hide EntryElement, EntryEdits, Edits;
    var ns := seq(|es|, i requires 0 <= i < |es| => EntryElement(es[i]));
    if es != [] {
      var n := |es| - 1;
      var init := es[..n];
      InterfacesEdits(init);
      var firsts := seq(|init|, i requires 0 <= i < |init| => EntryElement(init[i]));
      assert ns == firsts + [EntryElement(es[n])];
      AllEditsConcat(firsts, [EntryElement(es[n])], INTERFACES, Merge);
      OneEdit(EntryElement(es[n]), INTERFACES, Merge);
      EntryElementEdits(es[n]);
    }
  }

  lemma {:induction false} LacpInterfacesEdits(es: seq<LacpEntry>)
    ensures AllEdits(seq(|es|, i requires 0 <= i < |es| => LacpEntryElement(es[i])), LACP_INTERFACES, Merge)
              == LacpListEdits(es)
    decreases |es|
  {
    hide LacpEntryElement, LacpEdits, Edits;
    var ns := seq(|es|, i requires 0 <= i < |es| => LacpEntryElement(es[i]));
    if es != [] {
      var n := |es| - 1;
      var init := es[..n];
      LacpInterfacesEdits(init);
      var firsts := seq(|init|, i requires 0 <= i < |init| => LacpEntryElement(init[i]));
      assert ns == firsts + [LacpEntryElement(es[n])];
      AllEditsConcat(firsts, [LacpEntryElement(es[n])], LACP_INTERFACES, Merge);
      OneEdit(LacpEntryElement(es[n]), LACP_INTERFACES, Merge);
      LacpElementEdits(es[n]);
    }
  }

  /** The payload trees mean exactly these edits. */
  lemma PayloadEdits(es: seq<Entry>, ls: seq<LacpEntry>)
    requires forall e | e in es :: NoReplace(e)
    ensures AllEdits([InterfacesElement(es)], [], Merge) == ListEdits(es)
    ensures AllEdits([LacpElement(ls)], [], Merge) == LacpListEdits(ls)
  {
    InterfacesEdits(es);
    LacpInterfacesEdits(ls);
    assert [] + [Tag("interfaces")] == INTERFACES;
    OneEdit(InterfacesElement(es), [], Merge);
    OneEdit(LacpElement(ls), [], Merge);
    if ls != [] {
      var inner := Box(Tag("interfaces"), None, seq(|ls|, i requires 0 <= i < |ls| => LacpEntryElement(ls[i])));
      OneEdit(inner, [Tag("lacp")], Merge);
      assert [] + [Tag("lacp")] == [Tag("lacp")];
      assert [Tag("lacp")] + [Tag("interfaces")] == LACP_INTERFACES;
      assert LacpElement(ls) == Box(Tag("lacp"), None, [inner]);
    }
  }
}
