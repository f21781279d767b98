/** Names the agent and the ML2 driver give to Neutron and OVN objects, and the
    code that parses those names back (`rsplit`, `split` with a limit, `split`
    on a separator). */
module Names {
  import opened Wrappers

  const TRUNK_PREFIX := "l2vni-trunk-"
  const ANCHOR_PREFIX := "l2vni-anchor-"
  const SUBPORT_PREFIX := "l2vni-subport-"
  const GROUP_PREFIX := "l2vni-ha-group-"
  const LOCALNET := "-localnet-"
  const SWITCH_PREFIX := "neutron-"

  function TrunkName(systemId: string, physnet: string): string {
    TRUNK_PREFIX + (systemId + "-" + physnet)
  }

  function AnchorPortName(systemId: string, physnet: string): string {
    ANCHOR_PREFIX + (systemId + "-" + physnet)
  }

  lemma AnchorNameOf(a: string, b: string, physnet: string)
    ensures AnchorPortName(a, physnet) == AnchorPortName(b, physnet) ==> a == b
  {
    if AnchorPortName(a, physnet) == AnchorPortName(b, physnet) {
      assert AnchorPortName(a, physnet)[|ANCHOR_PREFIX|..] == a + "-" + physnet;
      assert AnchorPortName(b, physnet)[|ANCHOR_PREFIX|..] == b + "-" + physnet;
      assert (a + "-" + physnet)[..|a|] == a && (b + "-" + physnet)[..|b|] == b;
    }
  }

  function SubportName(systemId: string, physnet: string, vlan: string): string {
    SUBPORT_PREFIX + (systemId + "-" + physnet + "-vlan" + vlan)
  }

  lemma SubportNameIsNoAnchor(systemId: string, physnet: string, vlan: string)
    ensures !(ANCHOR_PREFIX <= SubportName(systemId, physnet, vlan))
  {
    var i := |"l2vni-"|;
    assert SubportName(systemId, physnet, vlan)[i] == SUBPORT_PREFIX[i] && ANCHOR_PREFIX[i] != SUBPORT_PREFIX[i];
  }

  function GroupNetworkName(group: string): string {
    GROUP_PREFIX + group
  }

  function SwitchName(networkId: string): string {
    SWITCH_PREFIX + networkId
  }

  function LocalnetPortName(networkId: string, physnet: string): string {
    SwitchName(networkId) + LOCALNET + physnet
  }

  predicate StartsWith(s: string, prefix: string) {
    prefix <= s
  }

  /** Decimal text, as `str` and format strings print integers. */
  function Decimal(n: int): string
    decreases if n < 0 then 1 - n else n
  {
    if n < 0 then "-" + Decimal(-n)
    else if n < 10 then ["0123456789"[n]]
    else Decimal(n / 10) + ["0123456789"[n % 10]]
  }

  predicate IsDigits(s: string) {
    forall c | c in s :: '0' <= c <= '9'
  }

  /** The number a digit string denotes. */
  function Number(s: string): int
    requires IsDigits(s)
  {
    if s == "" then 0
    else
      var last := |s| - 1;
      assert forall c | c in s[..last] :: c in s;
      10 * Number(s[..last]) + (s[last] as int - '0' as int)
  }

  lemma NumberSnoc(t: string, c: char)
    requires IsDigits(t + [c])
    ensures IsDigits(t) && Number(t + [c]) == 10 * Number(t) + (c as int - '0' as int)
  {
    assert (t + [c])[..|t|] == t;
    assert forall d | d in t :: d in t + [c];
    assert c in t + [c];
  }

  lemma DigitValue(k: nat)
    requires k < 10
    ensures '0' <= "0123456789"[k] <= '9' && "0123456789"[k] as int - '0' as int == k
  {
  }

  lemma {:induction false} DecimalDigits(n: nat)
    ensures IsDigits(Decimal(n)) && Number(Decimal(n)) == n && Decimal(n) != ""
  {
    var last := "0123456789"[n % 10];
    DigitValue(n % 10);
    var front := if n < 10 then "" else Decimal(n / 10);
    if n >= 10 { DecimalDigits(n / 10); }
    assert Decimal(n) == front + [last];
    hide Decimal, Number;
    assert IsDigits(front + [last]);
    NumberSnoc(front, last);
    if n < 10 { NumberOfNothing(); }
  }

  lemma NumberOfNothing()
    ensures Number("") == 0
  {
  }

  lemma DecimalInjective(a: nat, b: nat)
    requires Decimal(a) == Decimal(b)
    ensures a == b
  {
    DecimalDigits(a);
    DecimalDigits(b);
  }

  // ----- rsplit('-', 1) and trunk names ---------------------------------

  /** `s.rsplit('-', 1)`; None when it yields a single part. */
  function RSplitDash(s: string): (r: Option<(string, string)>) {
    if s == "" then None
    else
      var last := |s| - 1;
      if s[last] == '-' then Some((s[..last], ""))
      else
        match RSplitDash(s[..last])
        case None => None
        case Some(parts) => Some((parts.0, parts.1 + [s[last]]))
  }

  lemma {:induction false} RSplitDashSound(s: string)
    ensures RSplitDash(s).None? <==> '-' !in s
    ensures RSplitDash(s).Some? ==>
              var (left, right) := RSplitDash(s).value;
              s == left + "-" + right && '-' !in right
  {
    if s != "" {
      var last := |s| - 1;
      assert s == s[..last] + [s[last]];
      RSplitDashSound(s[..last]);
    }
  }

  /** The split point of the last dash is unique. */
  lemma LastDashUnique(a: string, b: string, c: string, d: string)
    requires a + "-" + b == c + "-" + d
    requires '-' !in b && '-' !in d
    ensures a == c && b == d
  {
    var s := a + "-" + b;
    assert s[|a|] == '-' && s[|c|] == '-';
    assert forall j :: |a| < j < |s| ==> s[j] == b[j - |a| - 1];
    assert forall j :: |c| < j < |s| ==> s[j] == d[j - |c| - 1];
    assert |a| == |c|;
    assert a == s[..|a|] && c == s[..|c|];
    assert b == s[|a| + 1..] && d == s[|c| + 1..];
  }

  /** What cleanup reads back from a trunk name; None when it skips the trunk. */
  function ParseTrunkName(name: string): Option<(string, string)> {
    if StartsWith(name, TRUNK_PREFIX) then RSplitDash(name[|TRUNK_PREFIX|..]) else None
  }

  /** Trunk names parse back to the pair they were built from exactly when the
      physical network has no dash; the system id may hold any number of them. */
  lemma TrunkNameRoundTrip(systemId: string, physnet: string)
    ensures ParseTrunkName(TrunkName(systemId, physnet)) == Some((systemId, physnet))
       <==> '-' !in physnet
  {
    var rest := systemId + "-" + physnet;
    assert TrunkName(systemId, physnet)[|TRUNK_PREFIX|..] == rest;
    RSplitDashSound(rest);
    assert rest[|systemId|] == '-';
    if '-' !in physnet {
      var (left, right) := RSplitDash(rest).value;
      LastDashUnique(systemId, physnet, left, right);
    }
  }

  lemma TrunkNameInjective(s1: string, p1: string, s2: string, p2: string)
    requires '-' !in p1 && '-' !in p2
    requires TrunkName(s1, p1) == TrunkName(s2, p2)
    ensures s1 == s2 && p1 == p2
  {
    TrunkNameRoundTrip(s1, p1);
    TrunkNameRoundTrip(s2, p2);
  }

  /** With a dash in a physical network two different pairs share one name. */
  lemma TrunkNameCollides()
    ensures TrunkName("node", "a-b") == TrunkName("node-a", "b")
    ensures ParseTrunkName(TrunkName("node", "a-b")) == Some(("node-a", "b"))
  {
    assert TrunkName("node", "a-b") == TrunkName("node-a", "b");
    TrunkNameRoundTrip("node-a", "b");
  }

  /** Whatever parses came from that very name. */
  lemma ParsedTrunkName(name: string)
    requires ParseTrunkName(name).Some?
    ensures var (systemId, physnet) := ParseTrunkName(name).value;
            name == TrunkName(systemId, physnet) && '-' !in physnet
  {
    RSplitDashSound(name[|TRUNK_PREFIX|..]);
    assert name == TRUNK_PREFIX + name[|TRUNK_PREFIX|..];
  }

  // ----- split('-', n) and HA group networks ----------------------------

  /** Index of the first dash, or the length when there is none. */
  function FirstDash(s: string): (i: nat)
    ensures i <= |s|
    ensures i < |s| ==> s[i] == '-'
    ensures '-' !in s[..i]
  {
    if s == "" then 0
    else if s[0] == '-' then 0
    else
      var j := FirstDash(s[1..]);
      assert s[..1 + j] == [s[0]] + s[1..][..j];
      1 + j
  }

  /** `s.split('-', n)`. */
  function SplitDash(s: string, n: nat): seq<string>
    decreases n
  {
    var i := FirstDash(s);
    if n == 0 || i == |s| then [s]
    else [s[..i]] + SplitDash(s[i + 1..], n - 1)
  }

  lemma SplitDashStep(a: string, rest: string, n: nat)
    requires '-' !in a && 0 < n
    ensures SplitDash(a + "-" + rest, n) == [a] + SplitDash(rest, n - 1)
  {
    var s := a + "-" + rest;
    var i := FirstDash(s);
    assert s[|a|] == '-';
    assert forall j :: 0 <= j < |a| ==> s[j] == a[j];
    assert forall j :: 0 <= j < i ==> s[j] == s[..i][j];
    assert i == |a|;
    assert s[..i] == a && s[i + 1..] == rest;
  }

  /** What network cleanup reads back; None when it skips the network. */
  function ParseGroupNetworkName(name: string): Option<string> {
    if !StartsWith(name, GROUP_PREFIX) then None
    else
      var parts := SplitDash(name, 3);
      if |parts| < 4 then None else Some(parts[3])
  }

  lemma SplitThreeDashes(a: string, b: string, c: string, rest: string)
    requires '-' !in a && '-' !in b && '-' !in c
    ensures SplitDash(a + "-" + (b + "-" + (c + "-" + rest)), 3) == [a] + ([b] + ([c] + [rest]))
  {
    var tail2 := c + "-" + rest;
    var tail1 := b + "-" + tail2;
    calc {
      SplitDash(a + "-" + tail1, 3);
      { SplitDashStep(a, tail1, 3); }
      [a] + SplitDash(tail1, 2);
      { SplitDashStep(b, tail2, 2); }
      [a] + ([b] + SplitDash(tail2, 1));
      { SplitDashStep(c, rest, 1); }
      [a] + ([b] + ([c] + SplitDash(rest, 0)));
    }
  }

  lemma GroupNetworkNameParts(group: string)
    ensures GroupNetworkName(group) == "l2vni" + "-" + ("ha" + "-" + ("group" + "-" + group))
  {
  }

  /** Group networks parse back for every group name, dashes included. */
  lemma GroupNetworkRoundTrip(group: string)
    ensures ParseGroupNetworkName(GroupNetworkName(group)) == Some(group)
  {
    hide SplitDash, FirstDash;
    GroupNetworkNameParts(group);
    SplitThreeDashes("l2vni", "ha", "group", group);
    assert StartsWith(GroupNetworkName(group), GROUP_PREFIX);
  }

  // ----- split('-localnet-') in the event handler -----------------------

  /** Index of the first occurrence of the localnet separator at or after
      `from`; the length when there is none. */
  function FindLocalnet(s: string, from: nat): (i: nat)
    requires from <= |s|
    ensures from <= i <= |s|
    ensures i < |s| ==> LOCALNET <= s[i..]
    ensures forall j :: from <= j < i ==> !(LOCALNET <= s[j..])
    decreases |s| - from
  {
    if from == |s| then from
    else if LOCALNET <= s[from..] then from
    else FindLocalnet(s, from + 1)
  }

  /** `s.split('-localnet-')`: occurrences are taken left to right and do not overlap. */
  function SplitLocalnet(s: string): (parts: seq<string>)
    ensures |parts| >= 1
    decreases |s|
  {
    var i := FindLocalnet(s, 0);
    if i == |s| then [s]
    else [s[..i]] + SplitLocalnet(s[i + |LOCALNET|..])
  }

  /** The network id the event handler extracts; None when it ignores the row
      (match_fn also insists on the switch prefix). */
  function ExtractNetworkId(portName: string): Option<string> {
    var parts := SplitLocalnet(portName);
    if |parts| != 2 || !StartsWith(parts[0], SWITCH_PREFIX) then None
    else Some(parts[0][|SWITCH_PREFIX|..])
  }

  lemma NoEarlierLocalnet(networkId: string, physnet: string, j: nat)
    requires 'l' !in networkId && j < |SwitchName(networkId)|
    ensures !(LOCALNET <= LocalnetPortName(networkId, physnet)[j..])
  {
    var s := LocalnetPortName(networkId, physnet);
    var k := |SwitchName(networkId)|;
    assert s[k] == '-' && s[j..][1] == s[j + 1];
    assert j + 1 < k ==> s[j + 1] == SwitchName(networkId)[j + 1];
    assert 'l' !in SwitchName(networkId);
    assert LOCALNET[1] == 'l';
  }

  lemma LocalnetFirstOccurrence(networkId: string, physnet: string)
    requires 'l' !in networkId
    ensures FindLocalnet(LocalnetPortName(networkId, physnet), 0) == |SwitchName(networkId)|
  {
    var s := LocalnetPortName(networkId, physnet);
    var k := |SwitchName(networkId)|;
    assert s[k..] == LOCALNET + physnet;
    forall j: nat | j < k ensures !(LOCALNET <= s[j..]) {
      NoEarlierLocalnet(networkId, physnet, j);
    }
    assert LOCALNET <= s[k..];
  }

  /** The name the driver gives to a localnet port is read back by the event
      handler as the same network, for every network id without the letter `l`
      (UUIDs are hexadecimal), exactly when the physical network does not
      itself hold the separator. */
  lemma LocalnetNameRoundTrip(networkId: string, physnet: string)
    requires 'l' !in networkId
    ensures ExtractNetworkId(LocalnetPortName(networkId, physnet)) == Some(networkId)
       <==> SplitLocalnet(physnet) == [physnet]
  {
    var s := LocalnetPortName(networkId, physnet);
    var k := |SwitchName(networkId)|;
    LocalnetFirstOccurrence(networkId, physnet);
    assert s[..k] == SwitchName(networkId);
    assert s[k + |LOCALNET|..] == physnet;
    assert SplitLocalnet(s) == [SwitchName(networkId)] + SplitLocalnet(physnet);
    assert SwitchName(networkId)[|SWITCH_PREFIX|..] == networkId;
    var i := FindLocalnet(physnet, 0);
    if i < |physnet| {
      assert |SplitLocalnet(physnet)| >= 2;
    }
  }

  /** Localnet ports of different places have different names. */
  lemma LocalnetNameInjective(n1: string, p1: string, n2: string, p2: string)
    requires 'l' !in n1 && 'l' !in n2 && LocalnetPortName(n1, p1) == LocalnetPortName(n2, p2)
    ensures n1 == n2 && p1 == p2
  {
    LocalnetFirstOccurrence(n1, p1);
    LocalnetFirstOccurrence(n2, p2);
    var s, k := LocalnetPortName(n1, p1), |SwitchName(n1)|;
    assert k == |SwitchName(n2)|;
    assert s[..k] == SwitchName(n1) == SwitchName(n2);
    assert s[k + |LOCALNET|..] == p1 == p2;
    assert SwitchName(n1)[|SWITCH_PREFIX|..] == n1 && SwitchName(n2)[|SWITCH_PREFIX|..] == n2;
  }
}
