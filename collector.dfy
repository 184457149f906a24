/**
 * The record normalisation of `AWSNetworkMapper`: each `collect_*` body turns the raw records
 * of one API response into flat records, one per raw record and in the same order.
 * The API calls themselves are replaced by their responses, passed in as raw datatypes in
 * which a dictionary key that may be absent is an `Option`. A missing list (`x.get('Tags', [])`)
 * is the empty sequence.
 */
module Collector {
  import opened Wrappers
  import opened Text
  import opened Seqs
  import opened Records
  import Cells
  import Formatter

  // ---------------------------------------------------------------------------------------
  // Tags
  // ---------------------------------------------------------------------------------------

  datatype RawTag = RawTag(key: Option<string>, value: Option<string>)

  /** The value of the first tag whose key is `key`; `''` when there is none or it has no value. */
  function TagValue(tags: seq<RawTag>, key: string): string
    decreases |tags|
  {
    if tags == [] then ""
    else if tags[0].key == Some(key) then tags[0].value.GetOr("")
    else TagValue(tags[1..], key)
  }

  /** With no tag carrying the key (in particular with no tags at all) the value is `''`. */
  lemma {:induction false} TagValueNoMatch(tags: seq<RawTag>, key: string)
    requires forall i :: 0 <= i < |tags| ==> tags[i].key != Some(key)
    ensures TagValue(tags, key) == ""
    decreases |tags|
  {
    if tags != [] {
      assert tags[0].key != Some(key);
      var t := tags[1..];
      forall i | 0 <= i < |t| ensures t[i].key != Some(key) {
        assert t[i] == tags[i + 1];
      }
      TagValueNoMatch(t, key);
    }
  }

  /**
   * The first tag with the key decides, whatever follows it: the value is that tag's value,
   * or `''` when it has none.
   */
  lemma {:induction false} TagValueAt(tags: seq<RawTag>, key: string, i: nat)
    requires i < |tags| && tags[i].key == Some(key)
    requires forall j :: 0 <= j < i ==> tags[j].key != Some(key)
    ensures TagValue(tags, key) == tags[i].value.GetOr("")
    decreases i
  {
    if i > 0 {
      assert tags[0].key != Some(key);
      var t := tags[1..];
      assert t[i - 1] == tags[i];
      forall j | 0 <= j < i - 1 ensures t[j].key != Some(key) {
        assert t[j] == tags[j + 1];
      }
      TagValueAt(t, key, i - 1);
    }
  }

  /** `get_tag_value`: a search loop that returns at the first matching key. */
  method GetTagValue(tags: seq<RawTag>, key: string) returns (v: string)
    ensures v == TagValue(tags, key)
  {
    if tags == [] {
      return "";
    }
    var i := 0;
    while i < |tags|
      invariant 0 <= i <= |tags|
      invariant TagValue(tags[i..], key) == TagValue(tags, key)
    {
      if tags[i].key == Some(key) {
        return tags[i].value.GetOr("");
      }
      assert tags[i..][1..] == tags[i + 1..];
      i := i + 1;
    }
    return "";
  }

  // ---------------------------------------------------------------------------------------
  // VPCs and subnets
  // ---------------------------------------------------------------------------------------

  datatype RawVpc = RawVpc(vpcId: string, tags: seq<RawTag>, cidrBlock: string, state: string, isDefault: bool)

  function NormalizeVpc(v: RawVpc): Vpc {
    Vpc(v.vpcId, TagValue(v.tags, "Name"), v.cidrBlock, v.state, v.isDefault)
  }

  method CollectVpcs(raw: seq<RawVpc>) returns (vpcs: seq<Vpc>)
    ensures |vpcs| == |raw|
    ensures forall k :: 0 <= k < |raw| ==> vpcs[k] == NormalizeVpc(raw[k])
  {
    vpcs := [];
    for i := 0 to |raw|
      invariant |vpcs| == i
      invariant forall k :: 0 <= k < i ==> vpcs[k] == NormalizeVpc(raw[k])
    {
      var v := raw[i];
      var name := GetTagValue(v.tags, "Name");
      vpcs := vpcs + [Vpc(v.vpcId, name, v.cidrBlock, v.state, v.isDefault)];
    }
  }

  /** A subnet as the API returns it; the free-address count is a number. */
  datatype RawSubnet = RawSubnet(
    subnetId: string, tags: seq<RawTag>, vpcId: string, cidrBlock: string,
    availabilityZone: string, availableIpAddressCount: nat)

  const SUBNET_TYPE := "Private"

  /** Every subnet is reported as private, and its address count as its decimal text. */
  function NormalizeSubnet(s: RawSubnet): (r: Subnet)
    ensures r.subnetType == "Private"
    ensures r.availableIpAddressCount == NatToString(s.availableIpAddressCount)
    ensures DecimalValue(r.availableIpAddressCount) == s.availableIpAddressCount
  {
    NatToStringRoundTrip(s.availableIpAddressCount);
    Subnet(s.subnetId, TagValue(s.tags, "Name"), s.vpcId, s.cidrBlock, s.availabilityZone,
           NatToString(s.availableIpAddressCount), SUBNET_TYPE)
  }

  method CollectSubnets(raw: seq<RawSubnet>) returns (subnets: seq<Subnet>)
    ensures |subnets| == |raw|
    ensures forall k :: 0 <= k < |raw| ==> subnets[k] == NormalizeSubnet(raw[k])
  {
    subnets := [];
    for i := 0 to |raw|
      invariant |subnets| == i
      invariant forall k :: 0 <= k < i ==> subnets[k] == NormalizeSubnet(raw[k])
    {
      var s := raw[i];
      var name := GetTagValue(s.tags, "Name");
      subnets := subnets + [Subnet(s.subnetId, name, s.vpcId, s.cidrBlock, s.availabilityZone,
                                   NatToString(s.availableIpAddressCount), SUBNET_TYPE)];
    }
  }

  // ---------------------------------------------------------------------------------------
  // Route tables
  // ---------------------------------------------------------------------------------------

  datatype RawAssociation = RawAssociation(subnetId: Option<string>, main: Option<bool>)

  datatype RawRoute = RawRoute(
    destinationCidrBlock: Option<string>, destinationPrefixListId: Option<string>,
    gatewayId: Option<string>, natGatewayId: Option<string>, transitGatewayId: Option<string>,
    networkInterfaceId: Option<string>, vpcPeeringConnectionId: Option<string>,
    instanceId: Option<string>, state: Option<string>)

  datatype RawRouteTable = RawRouteTable(
    routeTableId: string, tags: seq<RawTag>, vpcId: string,
    associations: seq<RawAssociation>, routes: seq<RawRoute>)

  /** The subnet ids of the associations that have one, in order. */
  function SubnetIds(assocs: seq<RawAssociation>): (ids: seq<string>)
    ensures |ids| <= |assocs|
    decreases |assocs|
  {
    if assocs == [] then []
    else
      var last := assocs[|assocs| - 1];
      SubnetIds(assocs[..|assocs| - 1]) + (if last.subnetId.Some? then [last.subnetId.value] else [])
  }

  /** An id is listed exactly when some association carries it, and associations without one are skipped. */
  lemma {:induction false} SubnetIdsMembers(assocs: seq<RawAssociation>)
    ensures forall x :: x in SubnetIds(assocs) <==> exists i :: 0 <= i < |assocs| && assocs[i].subnetId == Some(x)
    ensures (forall i :: 0 <= i < |assocs| ==> assocs[i].subnetId.Some?) ==> |SubnetIds(assocs)| == |assocs|
    decreases |assocs|
  {
    if assocs != [] {
      var init := assocs[..|assocs| - 1];
      SubnetIdsMembers(init);
      assert forall i :: 0 <= i < |init| ==> init[i] == assocs[i];
    }
  }

  /** The subnet ids of a concatenation are those of each part, in order. */
  lemma {:induction false} SubnetIdsConcat(a: seq<RawAssociation>, b: seq<RawAssociation>)
    ensures SubnetIds(a + b) == SubnetIds(a) + SubnetIds(b)
    decreases |b|
  {
    if b == [] {
      assert a + b == a;
    } else {
      assert (a + b)[..|a + b| - 1] == a + b[..|b| - 1];
      SubnetIdsConcat(a, b[..|b| - 1]);
    }
  }

  /** `any(assoc.get('Main', False) for assoc in associations)`. */
  function IsMain(assocs: seq<RawAssociation>): (m: bool)
    ensures m <==> exists i :: 0 <= i < |assocs| && assocs[i].main == Some(true)
    decreases |assocs|
  {
    if assocs == [] then false
    else
      var rest := IsMain(assocs[1..]);
      assert forall i :: 1 <= i < |assocs| ==> assocs[1..][i - 1] == assocs[i];
      assocs[0].main.GetOr(false) || rest
  }

  /** The route's target ids, in the order the source tries them. */
  function TargetCandidates(r: RawRoute): seq<Option<string>> {
    [r.gatewayId, r.natGatewayId, r.transitGatewayId, r.networkInterfaceId,
     r.vpcPeeringConnectionId, r.instanceId]
  }

  /** The value of the first present candidate, or `default` when none is present. */
  function FirstPresent(candidates: seq<Option<string>>, default: string): (v: string)
    ensures (forall i :: 0 <= i < |candidates| ==> candidates[i].None?) ==> v == default
    ensures forall i :: (0 <= i < |candidates| && candidates[i].Some?
                         && (forall j :: 0 <= j < i ==> candidates[j].None?)) ==> v == candidates[i].value
    decreases |candidates|
  {
    if candidates == [] then default
    else if candidates[0].Some? then candidates[0].value
    else
      var v := FirstPresent(candidates[1..], default);
      assert forall i :: 1 <= i < |candidates| ==> candidates[1..][i - 1] == candidates[i];
      v
  }

  /** The `if 'GatewayId' in route ... else: target = 'local'` chain. */
  function RouteTarget(r: RawRoute): string {
    if r.gatewayId.Some? then r.gatewayId.value
    else if r.natGatewayId.Some? then r.natGatewayId.value
    else if r.transitGatewayId.Some? then r.transitGatewayId.value
    else if r.networkInterfaceId.Some? then r.networkInterfaceId.value
    else if r.vpcPeeringConnectionId.Some? then r.vpcPeeringConnectionId.value
    else if r.instanceId.Some? then r.instanceId.value
    else "local"
  }

  /** The target is the first present id in priority order, and `'local'` when there is none. */
  lemma RouteTargetPriority(r: RawRoute)
    ensures RouteTarget(r) == FirstPresent(TargetCandidates(r), "local")
  {
    var c := TargetCandidates(r);
    if c[0].None? && c[1].None? && c[2].None? && c[3].None? && c[4].None? && c[5].None? {
      assert forall i :: 0 <= i < |c| ==> c[i].None?;
    } else {
      var i :| 0 <= i < |c| && c[i].Some? && (forall j :: 0 <= j < i ==> c[j].None?);
    }
  }

  /** The destination: the CIDR block, else the prefix list, else `'N/A'`. */
  function RouteDest(r: RawRoute): (d: string)
    ensures r.destinationCidrBlock.Some? ==> d == r.destinationCidrBlock.value
    ensures r.destinationCidrBlock.None? && r.destinationPrefixListId.Some? ==> d == r.destinationPrefixListId.value
    ensures r.destinationCidrBlock.None? && r.destinationPrefixListId.None? ==> d == "N/A"
  {
    r.destinationCidrBlock.GetOr(r.destinationPrefixListId.GetOr("N/A"))
  }

  const ARROW := " \U{2192} "
  const BLACKHOLE_SUFFIX := " (blackhole)"

  /** The key-route text of one route, or `None` when the route is not a key route. */
  function KeyRouteOf(r: RawRoute): (k: Option<string>)
    ensures r.state == Some("blackhole") ==> k == Some(RouteDest(r) + ARROW + RouteTarget(r) + BLACKHOLE_SUFFIX)
    ensures r.state != Some("blackhole") ==>
      (k.None? <==> r.destinationCidrBlock.Some? && RouteTarget(r) == "local")
    ensures r.state != Some("blackhole") && k.Some? ==> k.value == RouteDest(r) + ARROW + RouteTarget(r)
  {
    var dest := RouteDest(r);
    var target := RouteTarget(r);
    var state := r.state.GetOr("active");
    if state == "blackhole" then Some(dest + ARROW + target + BLACKHOLE_SUFFIX)
    else if r.destinationCidrBlock != Some(dest) || target != "local" then Some(dest + ARROW + target)
    else None
  }

  function KeyRoutes(routes: seq<RawRoute>): (ks: seq<string>)
    ensures |ks| <= |routes|
    decreases |routes|
  {
    if routes == [] then []
    else
      var k := KeyRouteOf(routes[|routes| - 1]);
      KeyRoutes(routes[..|routes| - 1]) + (if k.Some? then [k.value] else [])
  }

  /** The key routes of a concatenation are those of each part in order: input order is kept. */
  lemma {:induction false} KeyRoutesConcat(a: seq<RawRoute>, b: seq<RawRoute>)
    ensures KeyRoutes(a + b) == KeyRoutes(a) + KeyRoutes(b)
    decreases |b|
  {
    if b == [] {
      assert a + b == a;
    } else {
      assert (a + b)[..|a + b| - 1] == a + b[..|b| - 1];
      KeyRoutesConcat(a, b[..|b| - 1]);
    }
  }

  /** A blackhole route is always kept, whatever its destination and target. */
  lemma BlackholeKept(r: RawRoute)
    requires r.state == Some("blackhole")
    ensures KeyRoutes([r]) == [RouteDest(r) + ARROW + RouteTarget(r) + BLACKHOLE_SUFFIX]
  {
    assert [r][..0] == [];
  }

  /** `key_routes`, appended route by route. */
  method CollectKeyRoutes(routes: seq<RawRoute>) returns (keyRoutes: seq<string>)
    ensures keyRoutes == KeyRoutes(routes)
  {
    keyRoutes := [];
    for i := 0 to |routes|
      invariant keyRoutes == KeyRoutes(routes[..i])
    {
      assert routes[..i + 1][..i] == routes[..i];
      var route := routes[i];
      var dest := route.destinationCidrBlock.GetOr(route.destinationPrefixListId.GetOr("N/A"));
      var target: string;
      if route.gatewayId.Some? {
        target := route.gatewayId.value;
      } else if route.natGatewayId.Some? {
        target := route.natGatewayId.value;
      } else if route.transitGatewayId.Some? {
        target := route.transitGatewayId.value;
      } else if route.networkInterfaceId.Some? {
        target := route.networkInterfaceId.value;
      } else if route.vpcPeeringConnectionId.Some? {
        target := route.vpcPeeringConnectionId.value;
      } else if route.instanceId.Some? {
        target := route.instanceId.value;
      } else {
        target := "local";
      }
      var state := route.state.GetOr("active");
      if state == "blackhole" {
        keyRoutes := keyRoutes + [dest + ARROW + target + BLACKHOLE_SUFFIX];
      } else if route.destinationCidrBlock != Some(dest) || target != "local" {
        keyRoutes := keyRoutes + [dest + ARROW + target];
      }
    }
    assert routes[..|routes|] == routes;
  }

  function NormalizeRouteTable(rt: RawRouteTable): RouteTable {
    RouteTable(rt.routeTableId, TagValue(rt.tags, "Name"), rt.vpcId,
               SubnetIds(rt.associations), IsMain(rt.associations), KeyRoutes(rt.routes))
  }

  method CollectRouteTables(raw: seq<RawRouteTable>) returns (tables: seq<RouteTable>)
    ensures |tables| == |raw|
    ensures forall k :: 0 <= k < |raw| ==> tables[k] == NormalizeRouteTable(raw[k])
  {
    tables := [];
    for i := 0 to |raw|
      invariant |tables| == i
      invariant forall k :: 0 <= k < i ==> tables[k] == NormalizeRouteTable(raw[k])
    {
      var rt := raw[i];
      var subnetIds := SubnetIds(rt.associations);
      var isMain := IsMain(rt.associations);
      var keyRoutes := CollectKeyRoutes(rt.routes);
      var name := GetTagValue(rt.tags, "Name");
      tables := tables + [RouteTable(rt.routeTableId, name, rt.vpcId, subnetIds, isMain, keyRoutes)];
    }
  }

  // ---------------------------------------------------------------------------------------
  // Gateways
  // ---------------------------------------------------------------------------------------

  datatype RawIgwAttachment = RawIgwAttachment(vpcId: string, state: string)

  datatype RawInternetGateway = RawInternetGateway(
    internetGatewayId: string, tags: seq<RawTag>, attachments: seq<RawIgwAttachment>)

  /** Only the first attachment counts; without one the gateway is `'Not attached'` and `'detached'`. */
  function NormalizeInternetGateway(g: RawInternetGateway): (r: InternetGateway)
    ensures g.attachments == [] ==> r.attachedVpc == "Not attached" && r.state == "detached"
    ensures g.attachments != [] ==> r.attachedVpc == g.attachments[0].vpcId && r.state == g.attachments[0].state
    ensures r.internetGatewayId == g.internetGatewayId && r.name == TagValue(g.tags, "Name")
  {
    var attachedVpc := if g.attachments != [] then g.attachments[0].vpcId else "Not attached";
    var state := if g.attachments != [] then g.attachments[0].state else "detached";
    InternetGateway(g.internetGatewayId, TagValue(g.tags, "Name"), state, attachedVpc)
  }

  method CollectInternetGateways(raw: seq<RawInternetGateway>) returns (igws: seq<InternetGateway>)
    ensures |igws| == |raw|
    ensures forall k :: 0 <= k < |raw| ==> igws[k] == NormalizeInternetGateway(raw[k])
  {
    igws := [];
    for i := 0 to |raw|
      invariant |igws| == i
      invariant forall k :: 0 <= k < i ==> igws[k] == NormalizeInternetGateway(raw[k])
    {
      var g := raw[i];
      var attachedVpc := if g.attachments != [] then g.attachments[0].vpcId else "Not attached";
      var state := if g.attachments != [] then g.attachments[0].state else "detached";
      var name := GetTagValue(g.tags, "Name");
      igws := igws + [InternetGateway(g.internetGatewayId, name, state, attachedVpc)];
    }
  }

  datatype RawNatAddress = RawNatAddress(publicIp: Option<string>, privateIp: Option<string>)

  datatype RawNatGateway = RawNatGateway(
    natGatewayId: string, tags: seq<RawTag>, vpcId: string, subnetId: string,
    state: string, addresses: seq<RawNatAddress>)

  /** The addresses come from the first address entry only, each `'N/A'` when it is absent. */
  function NormalizeNatGateway(g: RawNatGateway): (r: NatGateway)
    ensures g.addresses == [] ==> r.publicIp == "N/A" && r.privateIp == "N/A"
    ensures g.addresses != [] ==>
      r.publicIp == g.addresses[0].publicIp.GetOr("N/A") && r.privateIp == g.addresses[0].privateIp.GetOr("N/A")
    ensures r.natGatewayId == g.natGatewayId && r.name == TagValue(g.tags, "Name")
  {
    var publicIp := if g.addresses != [] then g.addresses[0].publicIp.GetOr("N/A") else "N/A";
    var privateIp := if g.addresses != [] then g.addresses[0].privateIp.GetOr("N/A") else "N/A";
    NatGateway(g.natGatewayId, TagValue(g.tags, "Name"), g.vpcId, g.subnetId, g.state, publicIp, privateIp)
  }

  method CollectNatGateways(raw: seq<RawNatGateway>) returns (nats: seq<NatGateway>)
    ensures |nats| == |raw|
    ensures forall k :: 0 <= k < |raw| ==> nats[k] == NormalizeNatGateway(raw[k])
  {
    nats := [];
    for i := 0 to |raw|
      invariant |nats| == i
      invariant forall k :: 0 <= k < i ==> nats[k] == NormalizeNatGateway(raw[k])
    {
      var g := raw[i];
      var publicIp := if g.addresses != [] then g.addresses[0].publicIp.GetOr("N/A") else "N/A";
      var privateIp := if g.addresses != [] then g.addresses[0].privateIp.GetOr("N/A") else "N/A";
      var name := GetTagValue(g.tags, "Name");
      nats := nats + [NatGateway(g.natGatewayId, name, g.vpcId, g.subnetId, g.state, publicIp, privateIp)];
    }
  }

  /** A transit gateway's `Options`; a missing `Options` has neither key. ASNs are held as decimal text. */
  datatype RawTgwOptions = RawTgwOptions(amazonSideAsn: Option<string>, associationDefaultRouteTableId: Option<string>)

  datatype RawTransitGateway = RawTransitGateway(
    transitGatewayId: string, tags: seq<RawTag>, state: string, options: RawTgwOptions)

  function NormalizeTransitGateway(g: RawTransitGateway): (r: TransitGateway)
    ensures g.options.amazonSideAsn.None? ==> r.amazonSideAsn == "N/A"
    ensures g.options.amazonSideAsn.Some? ==> r.amazonSideAsn == g.options.amazonSideAsn.value
    ensures g.options.associationDefaultRouteTableId.None? ==> r.defaultRouteTableId == "N/A"
    ensures g.options.associationDefaultRouteTableId.Some? ==>
      r.defaultRouteTableId == g.options.associationDefaultRouteTableId.value
  {
    TransitGateway(g.transitGatewayId, TagValue(g.tags, "Name"), g.state,
                   g.options.amazonSideAsn.GetOr("N/A"), g.options.associationDefaultRouteTableId.GetOr("N/A"))
  }

  method CollectTransitGateways(raw: seq<RawTransitGateway>) returns (tgws: seq<TransitGateway>)
    ensures |tgws| == |raw|
    ensures forall k :: 0 <= k < |raw| ==> tgws[k] == NormalizeTransitGateway(raw[k])
  {
    tgws := [];
    for i := 0 to |raw|
      invariant |tgws| == i
      invariant forall k :: 0 <= k < i ==> tgws[k] == NormalizeTransitGateway(raw[k])
    {
      var g := raw[i];
      var options := g.options;
      var name := GetTagValue(g.tags, "Name");
      tgws := tgws + [TransitGateway(g.transitGatewayId, name, g.state, options.amazonSideAsn.GetOr("N/A"),
                                     options.associationDefaultRouteTableId.GetOr("N/A"))];
    }
  }

  datatype RawVpcAttachment = RawVpcAttachment(vpcId: string)

  datatype RawVpnGateway = RawVpnGateway(
    vpnGatewayId: string, tags: seq<RawTag>, state: string, gatewayType: string,
    amazonSideAsn: Option<string>, vpcAttachments: seq<RawVpcAttachment>)

  /** The attached VPC is the first attachment's, `'Not attached'` without one; a missing ASN is `'N/A'`. */
  function NormalizeVpnGateway(g: RawVpnGateway): (r: VpnGateway)
    ensures g.vpcAttachments == [] ==> r.attachedVpc == "Not attached"
    ensures g.vpcAttachments != [] ==> r.attachedVpc == g.vpcAttachments[0].vpcId
    ensures g.amazonSideAsn.None? ==> r.amazonSideAsn == "N/A"
    ensures g.amazonSideAsn.Some? ==> r.amazonSideAsn == g.amazonSideAsn.value
  {
    var attachedVpc := if g.vpcAttachments != [] then g.vpcAttachments[0].vpcId else "Not attached";
    VpnGateway(g.vpnGatewayId, TagValue(g.tags, "Name"), g.state, g.gatewayType,
               g.amazonSideAsn.GetOr("N/A"), attachedVpc)
  }

  method CollectVpnGateways(raw: seq<RawVpnGateway>) returns (vgws: seq<VpnGateway>)
    ensures |vgws| == |raw|
    ensures forall k :: 0 <= k < |raw| ==> vgws[k] == NormalizeVpnGateway(raw[k])
  {
    vgws := [];
    for i := 0 to |raw|
      invariant |vgws| == i
      invariant forall k :: 0 <= k < i ==> vgws[k] == NormalizeVpnGateway(raw[k])
    {
      var g := raw[i];
      var attachedVpc := if g.vpcAttachments != [] then g.vpcAttachments[0].vpcId else "Not attached";
      var name := GetTagValue(g.tags, "Name");
      vgws := vgws + [VpnGateway(g.vpnGatewayId, name, g.state, g.gatewayType,
                                 g.amazonSideAsn.GetOr("N/A"), attachedVpc)];
    }
  }

  // ---------------------------------------------------------------------------------------
  // Security groups
  // ---------------------------------------------------------------------------------------

  /** A port as the source sees it: a number, or the text `'All'` when the key is absent. */
  datatype Port = PortNum(n: int) | PortAll

  function PortOf(p: Option<int>): (r: Port)
    ensures p.None? <==> r == PortAll
  {
    match p
    case Some(n) => PortNum(n)
    case None => PortAll
  }

  /** `f"{port}"`: the decimal text of a number (with its sign), or `All`. */
  function PortText(p: Port): string {
    match p
    case PortNum(n) => IntToString(n)
    case PortAll => "All"
  }

  datatype RawIpRange = RawIpRange(cidrIp: Option<string>)
  datatype RawGroupPair = RawGroupPair(groupId: Option<string>)

  datatype RawPermission = RawPermission(
    ipProtocol: Option<string>, fromPort: Option<int>, toPort: Option<int>,
    ipRanges: seq<RawIpRange>, groupPairs: seq<RawGroupPair>)

  datatype RawSecurityGroup = RawSecurityGroup(
    groupId: string, groupName: string, vpcId: Option<string>, permissions: seq<RawPermission>)

  const MAX_INBOUND_RULES := 5

  /** A missing protocol is `All`, and so is the wildcard `-1`. */
  function ProtocolText(p: Option<string>): string {
    var protocol := p.GetOr("All");
    if protocol == "-1" then "All" else protocol
  }

  /** The protocol shown is `All` exactly when it is absent, `-1` or itself `All`; otherwise it is shown as given. */
  lemma ProtocolTextAll(p: Option<string>)
    ensures ProtocolText(p) == "All" <==> (p.None? || p == Some("-1") || p == Some("All"))
    ensures ProtocolText(p) != "All" ==> p == Some(ProtocolText(p))
  {
  }

  /** One port when both ends are equal, `from-to` otherwise. */
  function PortRange(fromPort: Port, toPort: Port): string {
    if fromPort == toPort then PortText(fromPort) else PortText(fromPort) + "-" + PortText(toPort)
  }

  function CidrSource(r: RawIpRange): string {
    r.cidrIp.GetOr("")
  }

  function GroupSource(g: RawGroupPair): string {
    g.groupId.GetOr("self")
  }

  /** The CIDR sources (`''` when absent) followed by the group sources (`'self'` when absent). */
  function Sources(rule: RawPermission): seq<string> {
    MapSeq(rule.ipRanges, CidrSource) + MapSeq(rule.groupPairs, GroupSource)
  }

  /** One source per address range, then one per group reference, each in the rule's order. */
  lemma SourcesLayout(rule: RawPermission)
    ensures |Sources(rule)| == |rule.ipRanges| + |rule.groupPairs|
    ensures forall k :: 0 <= k < |rule.ipRanges| ==> Sources(rule)[k] == rule.ipRanges[k].cidrIp.GetOr("")
    ensures forall k :: 0 <= k < |rule.groupPairs| ==>
      Sources(rule)[|rule.ipRanges| + k] == rule.groupPairs[k].groupId.GetOr("self")
  {
  }

  /** `', '.join(sources) if sources else 'All'`. */
  function SourceText(sources: seq<string>): string {
    if sources != [] then Join(sources, ", ") else "All"
  }

  /** `"{protocol}/{port_range} from {source}"`. */
  function RuleSummary(rule: RawPermission): string {
    ProtocolText(rule.ipProtocol) + "/" + PortRange(PortOf(rule.fromPort), PortOf(rule.toPort))
      + " from " + SourceText(Sources(rule))
  }

  /** `permissions[:5]`. */
  function FirstRules(permissions: seq<RawPermission>): (shown: seq<RawPermission>)
    ensures |shown| == if |permissions| <= MAX_INBOUND_RULES then |permissions| else MAX_INBOUND_RULES
    ensures shown == permissions[..|shown|]
  {
    if |permissions| <= MAX_INBOUND_RULES then permissions else permissions[..MAX_INBOUND_RULES]
  }

  /** One summary per rule among the first five, in order. */
  function InboundRules(permissions: seq<RawPermission>): (rs: seq<string>)
    ensures |rs| <= MAX_INBOUND_RULES
    ensures |rs| == if |permissions| <= MAX_INBOUND_RULES then |permissions| else MAX_INBOUND_RULES
    ensures forall k :: 0 <= k < |rs| ==> rs[k] == RuleSummary(permissions[k])
  {
    MapSeq(FirstRules(permissions), RuleSummary)
  }

  /** A rule without any source is shown as open to all, and a rule without protocol or ports as all traffic. */
  lemma OpenRuleSummary(rule: RawPermission)
    requires rule.ipRanges == [] && rule.groupPairs == []
    requires rule.ipProtocol.None? && rule.fromPort.None? && rule.toPort.None?
    ensures RuleSummary(rule) == "All/All from All"
  {
  }

  /** `sources`, built by two append loops. */
  method CollectSources(rule: RawPermission) returns (sources: seq<string>)
    ensures sources == Sources(rule)
  {
    ghost var cidrs := MapSeq(rule.ipRanges, CidrSource);
    ghost var groups := MapSeq(rule.groupPairs, GroupSource);
    sources := [];
    for i := 0 to |rule.ipRanges|
      invariant sources == cidrs[..i]
    {
      sources := sources + [rule.ipRanges[i].cidrIp.GetOr("")];
    }
    assert cidrs[..|cidrs|] == cidrs;
    for i := 0 to |rule.groupPairs|
      invariant sources == cidrs + groups[..i]
    {
      assert groups[..i + 1] == groups[..i] + [groups[i]];
      sources := sources + [rule.groupPairs[i].groupId.GetOr("self")];
    }
    assert groups[..|groups|] == groups;
  }

  /** One rule's summary, assembled from its protocol, its ports and its sources. */
  method SummarizeRule(rule: RawPermission) returns (summary: string)
    ensures summary == RuleSummary(rule)
  {
    var protocol := rule.ipProtocol.GetOr("All");
    if protocol == "-1" {
      protocol := "All";
    }
    var fromPort := PortOf(rule.fromPort);
    var toPort := PortOf(rule.toPort);
    var portRange := if fromPort == toPort then PortText(fromPort) else PortText(fromPort) + "-" + PortText(toPort);
    var sources := CollectSources(rule);
    var source := if sources != [] then Join(sources, ", ") else "All";
    summary := protocol + "/" + portRange + " from " + source;
  }

  /** `inbound_rules`, one summary appended per rule of the first five. */
  method SummarizeInbound(permissions: seq<RawPermission>) returns (rules: seq<string>)
    ensures rules == InboundRules(permissions)
  {
    rules := [];
    var shown := FirstRules(permissions);
    for i := 0 to |shown|
      invariant rules == MapSeq(shown[..i], RuleSummary)
    {
      var summary := SummarizeRule(shown[i]);
      MapSeqStep(shown, i, RuleSummary);
      rules := rules + [summary];
    }
    MapSeqAll(shown, RuleSummary);
  }

  /** A group outside any VPC is reported in `EC2-Classic`. */
  function NormalizeSecurityGroup(sg: RawSecurityGroup): (r: SecurityGroup)
    ensures sg.vpcId.None? ==> r.vpcId == "EC2-Classic"
    ensures sg.vpcId.Some? ==> r.vpcId == sg.vpcId.value
    ensures |r.inboundRules| <= MAX_INBOUND_RULES
  {
    SecurityGroup(sg.groupId, sg.groupName, sg.vpcId.GetOr("EC2-Classic"), InboundRules(sg.permissions))
  }

  method CollectSecurityGroups(raw: seq<RawSecurityGroup>) returns (sgs: seq<SecurityGroup>)
    ensures |sgs| == |raw|
    ensures forall k :: 0 <= k < |raw| ==> sgs[k] == NormalizeSecurityGroup(raw[k])
  {
    sgs := [];
    for i := 0 to |raw|
      invariant sgs == MapSeq(raw[..i], NormalizeSecurityGroup)
    {
      var sg := raw[i];
      var inbound := SummarizeInbound(sg.permissions);
      MapSeqStep(raw, i, NormalizeSecurityGroup);
      sgs := sgs + [SecurityGroup(sg.groupId, sg.groupName, sg.vpcId.GetOr("EC2-Classic"), inbound)];
    }
    MapSeqAll(raw, NormalizeSecurityGroup);
  }

  // ---------------------------------------------------------------------------------------
  // Network ACLs, peering, endpoints
  // ---------------------------------------------------------------------------------------

  datatype RawNaclAssociation = RawNaclAssociation(subnetId: string)

  datatype RawNetworkAcl = RawNetworkAcl(
    networkAclId: string, vpcId: string, associations: seq<RawNaclAssociation>, isDefault: Option<bool>)

  /** The type is `Default` exactly when the ACL says it is the default one; a missing flag means custom. */
  function NormalizeNetworkAcl(n: RawNetworkAcl): (r: NetworkAcl)
    ensures r.isDefault <==> n.isDefault == Some(true)
    ensures r.aclType == "Default" <==> r.isDefault
    ensures !r.isDefault ==> r.aclType == "Custom"
    ensures |r.subnetIds| == |n.associations|
    ensures forall k :: 0 <= k < |n.associations| ==> r.subnetIds[k] == n.associations[k].subnetId
  {
    var isDefault := n.isDefault.GetOr(false);
    NetworkAcl(n.networkAclId, n.vpcId, MapSeq(n.associations, (a: RawNaclAssociation) => a.subnetId),
               if isDefault then "Default" else "Custom", isDefault)
  }

  method CollectNetworkAcls(raw: seq<RawNetworkAcl>) returns (nacls: seq<NetworkAcl>)
    ensures |nacls| == |raw|
    ensures forall k :: 0 <= k < |raw| ==> nacls[k] == NormalizeNetworkAcl(raw[k])
  {
    nacls := [];
    for i := 0 to |raw|
      invariant |nacls| == i
      invariant forall k :: 0 <= k < i ==> nacls[k] == NormalizeNetworkAcl(raw[k])
    {
      var n := raw[i];
      var subnetIds := MapSeq(n.associations, (a: RawNaclAssociation) => a.subnetId);
      var isDefault := n.isDefault.GetOr(false);
      var aclType := if isDefault then "Default" else "Custom";
      nacls := nacls + [NetworkAcl(n.networkAclId, n.vpcId, subnetIds, aclType, isDefault)];
    }
  }

  /** A peer's `VpcInfo`; a missing `VpcInfo` has neither key. */
  datatype RawVpcInfo = RawVpcInfo(vpcId: Option<string>, cidrBlock: Option<string>)

  datatype RawVpcPeering = RawVpcPeering(
    vpcPeeringConnectionId: string, tags: seq<RawTag>, requester: RawVpcInfo,
    accepter: RawVpcInfo, statusCode: string)

  /** `"{vpc} ({cidr})"`, each part `'N/A'` when absent. */
  function PeerText(info: RawVpcInfo): (r: string)
    ensures var vpc, cidr := info.vpcId.GetOr("N/A"), info.cidrBlock.GetOr("N/A");
      |r| == |vpc| + |cidr| + 3 && r[..|vpc|] == vpc && r[|vpc|..|vpc| + 2] == " ("
      && r[|vpc| + 2..|r| - 1] == cidr && r[|r| - 1] == ')'
    ensures info.vpcId.None? ==> r[..5] == "N/A ("
    ensures info.cidrBlock.None? ==> r[|r| - 5..] == "(N/A)"
    ensures info.vpcId.Some? && info.cidrBlock.None? ==> r == info.vpcId.value + " (N/A)"
    ensures info.vpcId.None? && info.cidrBlock.Some? ==> r == "N/A (" + info.cidrBlock.value + ")"
    ensures info.vpcId.None? && info.cidrBlock.None? ==> r == "N/A (N/A)"
  {
    info.vpcId.GetOr("N/A") + " (" + info.cidrBlock.GetOr("N/A") + ")"
  }

  function NormalizeVpcPeering(p: RawVpcPeering): VpcPeering {
    VpcPeering(p.vpcPeeringConnectionId, TagValue(p.tags, "Name"), PeerText(p.requester),
               PeerText(p.accepter), p.statusCode)
  }

  method CollectVpcPeering(raw: seq<RawVpcPeering>) returns (peerings: seq<VpcPeering>)
    ensures |peerings| == |raw|
    ensures forall k :: 0 <= k < |raw| ==> peerings[k] == NormalizeVpcPeering(raw[k])
  {
    peerings := [];
    for i := 0 to |raw|
      invariant |peerings| == i
      invariant forall k :: 0 <= k < i ==> peerings[k] == NormalizeVpcPeering(raw[k])
    {
      var p := raw[i];
      var requester := p.requester;
      var accepter := p.accepter;
      var name := GetTagValue(p.tags, "Name");
      peerings := peerings + [VpcPeering(
        p.vpcPeeringConnectionId, name,
        requester.vpcId.GetOr("N/A") + " (" + requester.cidrBlock.GetOr("N/A") + ")",
        accepter.vpcId.GetOr("N/A") + " (" + accepter.cidrBlock.GetOr("N/A") + ")",
        p.statusCode)];
    }
  }

  datatype RawVpcEndpoint = RawVpcEndpoint(
    vpcEndpointId: string, tags: seq<RawTag>, endpointType: string, vpcId: string,
    serviceName: string, state: string)

  function NormalizeVpcEndpoint(e: RawVpcEndpoint): VpcEndpoint {
    VpcEndpoint(e.vpcEndpointId, TagValue(e.tags, "Name"), e.endpointType, e.vpcId, e.serviceName, e.state)
  }

  method CollectVpcEndpoints(raw: seq<RawVpcEndpoint>) returns (endpoints: seq<VpcEndpoint>)
    ensures |endpoints| == |raw|
    ensures forall k :: 0 <= k < |raw| ==> endpoints[k] == NormalizeVpcEndpoint(raw[k])
  {
    endpoints := [];
    for i := 0 to |raw|
      invariant |endpoints| == i
      invariant forall k :: 0 <= k < i ==> endpoints[k] == NormalizeVpcEndpoint(raw[k])
    {
      var e := raw[i];
      var name := GetTagValue(e.tags, "Name");
      endpoints := endpoints + [VpcEndpoint(e.vpcEndpointId, name, e.endpointType, e.vpcId, e.serviceName, e.state)];
    }
  }

  // ---------------------------------------------------------------------------------------
  // EC2 instances
  // ---------------------------------------------------------------------------------------

  datatype RawEni = RawEni(networkInterfaceId: Option<string>)

  /** One entry of an instance's `SecurityGroups` list; its `GroupId` is always present. */
  datatype RawGroupIdentifier = RawGroupIdentifier(groupId: string)

  function GroupIdOf(g: RawGroupIdentifier): string {
    g.groupId
  }

  datatype RawInstance = RawInstance(
    instanceId: string, tags: seq<RawTag>, instanceType: string, stateName: string,
    vpcId: Option<string>, subnetId: Option<string>, privateIpAddress: Option<string>,
    publicIpAddress: Option<string>, networkInterfaces: seq<RawEni>,
    sourceDestCheck: Option<bool>, securityGroups: seq<RawGroupIdentifier>)

  datatype RawReservation = RawReservation(instances: seq<RawInstance>)

  /** The instances of all reservations, reservation by reservation, each in its own order. */
  function Flatten(reservations: seq<RawReservation>): seq<RawInstance>
    decreases |reservations|
  {
    if reservations == [] then []
    else Flatten(reservations[..|reservations| - 1]) + reservations[|reservations| - 1].instances
  }

  /** Flattening a concatenation flattens each part in order. */
  lemma {:induction false} FlattenConcat(a: seq<RawReservation>, b: seq<RawReservation>)
    ensures Flatten(a + b) == Flatten(a) + Flatten(b)
    decreases |b|
  {
    if b == [] {
      assert a + b == a;
    } else {
      assert (a + b)[..|a + b| - 1] == a + b[..|b| - 1];
      FlattenConcat(a, b[..|b| - 1]);
    }
  }

  /** The outer loop's step: one more reservation adds its instances after those already seen. */
  lemma FlattenStep(reservations: seq<RawReservation>, r: nat)
    requires r < |reservations|
    ensures Flatten(reservations[..r + 1]) == Flatten(reservations[..r]) + reservations[r].instances
  {
    assert reservations[..r + 1][..r] == reservations[..r];
  }

  function InstanceCounts(reservations: seq<RawReservation>): (cs: seq<nat>)
    ensures |cs| == |reservations|
  {
    seq(|reservations|, i requires 0 <= i < |reservations| => |reservations[i].instances|)
  }

  /** There is one instance record for every instance of every reservation. */
  lemma {:induction false} FlattenLength(reservations: seq<RawReservation>)
    ensures |Flatten(reservations)| == Sum(InstanceCounts(reservations))
    decreases |reservations|
  {
    if reservations != [] {
      var init := reservations[..|reservations| - 1];
      FlattenLength(init);
      assert InstanceCounts(reservations)[..|reservations| - 1] == InstanceCounts(init);
    }
  }

  /**
   * An instance is a NAT instance exactly when its source/destination check is off; a missing
   * check counts as on. The primary interface is the first one, `'N/A'` without one.
   */
  function NormalizeInstance(i: RawInstance): (r: Ec2Instance)
    ensures r.isNatInstance == !r.sourceDestCheck
    ensures r.isNatInstance <==> i.sourceDestCheck == Some(false)
    ensures i.networkInterfaces == [] ==> r.primaryEniId == "N/A"
    ensures i.networkInterfaces != [] ==> r.primaryEniId == i.networkInterfaces[0].networkInterfaceId.GetOr("N/A")
    ensures |r.securityGroups| == |i.securityGroups|
    ensures forall k :: 0 <= k < |i.securityGroups| ==> r.securityGroups[k] == i.securityGroups[k].groupId
  {
    var primaryEni := if i.networkInterfaces != [] then i.networkInterfaces[0].networkInterfaceId else None;
    var sourceDestCheck := i.sourceDestCheck.GetOr(true);
    Ec2Instance(i.instanceId, TagValue(i.tags, "Name"), i.instanceType, i.stateName,
                i.vpcId.GetOr("N/A"), i.subnetId.GetOr("N/A"), i.privateIpAddress.GetOr("N/A"),
                i.publicIpAddress.GetOr("N/A"), primaryEni.GetOr("N/A"), MapSeq(i.securityGroups, GroupIdOf),
                !sourceDestCheck, sourceDestCheck)
  }

  /** The nested loop over reservations and their instances, one record appended per instance. */
  method CollectEc2Instances(reservations: seq<RawReservation>) returns (instances: seq<Ec2Instance>)
    ensures |instances| == |Flatten(reservations)|
    ensures forall k :: 0 <= k < |instances| ==> instances[k] == NormalizeInstance(Flatten(reservations)[k])
  {
    instances := [];
    for r := 0 to |reservations|
      invariant instances == MapSeq(Flatten(reservations[..r]), NormalizeInstance)
    {
      ghost var done := Flatten(reservations[..r]);
      var batch := reservations[r].instances;
      MapSeqAppendAll(done, batch[..0], NormalizeInstance);
      for j := 0 to |batch|
        invariant instances == MapSeq(done + batch[..j], NormalizeInstance)
      {
        var instance := batch[j];
        var primaryEni := if instance.networkInterfaces != [] then instance.networkInterfaces[0].networkInterfaceId else None;
        var sourceDestCheck := instance.sourceDestCheck.GetOr(true);
        var isNatInstance := !sourceDestCheck;
        var securityGroups := MapSeq(instance.securityGroups, GroupIdOf);
        var name := GetTagValue(instance.tags, "Name");
        MapSeqAppendStep(done, batch, j, NormalizeInstance);
        instances := instances + [Ec2Instance(
          instance.instanceId, name, instance.instanceType, instance.stateName,
          instance.vpcId.GetOr("N/A"), instance.subnetId.GetOr("N/A"),
          instance.privateIpAddress.GetOr("N/A"), instance.publicIpAddress.GetOr("N/A"),
          primaryEni.GetOr("N/A"), securityGroups, isNatInstance, sourceDestCheck)];
      }
      MapSeqAppendAll(done, batch, NormalizeInstance);
      FlattenStep(reservations, r);
    }
    PrefixAll(reservations);
  }

  /** An instance whose check is not reported off, and that has no `Name` tag, shows as `(unnamed)` and not NAT. */
  lemma UntaggedInstanceRow(i: RawInstance)
    requires forall t :: 0 <= t < |i.tags| ==> i.tags[t].key != Some("Name")
    requires i.sourceDestCheck != Some(false)
    ensures Formatter.Ec2Row(NormalizeInstance(i))[1] == Cells.UNNAMED
    ensures Formatter.Ec2Row(NormalizeInstance(i))[8] == "No"
  {
    TagValueNoMatch(i.tags, "Name");
  }

  // ---------------------------------------------------------------------------------------
  // Direct Connect
  // ---------------------------------------------------------------------------------------

  /**
   * The three Direct Connect responses, each `None` when its call fails. Any failure gives
   * three empty lists, whatever the other calls returned.
   */
  function CollectDirectConnect(connections: Option<seq<DxConnection>>, vifs: Option<seq<DxVirtualInterface>>,
                                gateways: Option<seq<DxGateway>>): (dx: DirectConnect)
    ensures connections.None? || vifs.None? || gateways.None? ==> dx == DirectConnect([], [], [])
    ensures connections.Some? && vifs.Some? && gateways.Some? ==>
      dx == DirectConnect(connections.value, vifs.value, gateways.value)
  {
    if connections.Some? && vifs.Some? && gateways.Some? then
      DirectConnect(connections.value, vifs.value, gateways.value)
    else
      DirectConnect([], [], [])
  }

  /** After a failed Direct Connect call, the report shows no Direct Connect section. */
  lemma DirectConnectFailureHidden(connections: Option<seq<DxConnection>>, vifs: Option<seq<DxVirtualInterface>>,
                                   gateways: Option<seq<DxGateway>>)
    requires connections.None? || vifs.None? || gateways.None?
    ensures !Formatter.HasDirectConnect(CollectDirectConnect(connections, vifs, gateways))
    ensures Formatter.DirectConnectText(CollectDirectConnect(connections, vifs, gateways)) == Formatter.NO_DIRECT_CONNECT
  {
    Formatter.DirectConnectPlaceholder(CollectDirectConnect(connections, vifs, gateways));
  }
}
