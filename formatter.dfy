/**
 * The per-kind formatters of `MarkdownFormatter`: each picks and orders the fields of its
 * records, applies the display rules of `Cells`, and hands the rows to `Table.FormatTable`;
 * `FormatAll` puts the sections together in a fixed order.
 */
module Formatter {
  import opened Wrappers
  import opened Text
  import opened Seqs
  import opened Records
  import opened Table
  import opened Cells

  // ---------------------------------------------------------------------------------------
  // Generic shape of a section built from one row per record
  // ---------------------------------------------------------------------------------------

  /**
   * A section that renders the records `items` through `row`: the placeholder when there are
   * none, otherwise the header line, the separator and one line per record in input order,
   * every line of the same length, each ending in a newline.
   */
  lemma SectionLayout<T>(headers: seq<string>, items: seq<T>, row: T -> seq<string>)
    requires |headers| > 0
    requires forall k :: 0 <= k < |items| ==> |row(items[k])| == |headers|
    ensures var rows := MapSeq(items, row);
      RowsFit(headers, rows) &&
      (items == [] ==> TableText(headers, rows) == NO_RESOURCES) &&
      (items != [] ==> TableText(headers, rows) == Terminated(Lines(headers, rows))) &&
      |Lines(headers, rows)| == |items| + 2 &&
      (forall k :: 0 <= k < |items| ==>
         Lines(headers, rows)[k + 2] == RowLine(row(items[k]), Widths(headers, rows))) &&
      (forall l :: l in Lines(headers, rows) ==>
         |l| == Sum(Widths(headers, rows)) + 3 * (|headers| - 1) + 4)
  {
    var rows := MapSeq(items, row);
    TableStructure(headers, rows);
    LinesUniform(headers, rows);
  }

  // ---------------------------------------------------------------------------------------
  // VPCs, subnets, gateways, peering, endpoints: one row per record
  // ---------------------------------------------------------------------------------------

  const VPC_HEADERS: seq<string> := ["VPC ID", "Name", "CIDR Block", "State", "Default"]

  function VpcRow(v: Vpc): (r: seq<string>)
    ensures |r| == |VPC_HEADERS|
    ensures r[1] != "" && (v.name != "" ==> r[1] == v.name)
    ensures r[4] == "Yes" <==> v.isDefault
    ensures r[0] == v.vpcId && r[2] == v.cidrBlock && r[3] == v.state
  {
    [v.vpcId, DisplayName(v.name), v.cidrBlock, v.state, YesNo(v.isDefault)]
  }

  function VpcsText(vpcs: seq<Vpc>): string {
    TableText(VPC_HEADERS, MapSeq(vpcs, VpcRow))
  }

  method FormatVpcs(vpcs: seq<Vpc>) returns (out: string)
    ensures out == VpcsText(vpcs)
    ensures vpcs == [] ==> out == "_No resources found_\n"
  {
    var rows := MapInOrder(vpcs, VpcRow);
    assert rows == MapSeq(vpcs, VpcRow);
    out := FormatTable(VPC_HEADERS, rows);
  }

  const SUBNET_HEADERS: seq<string> := ["Subnet ID", "Name", "VPC", "CIDR Block", "AZ", "Available IPs", "Type"]

  function SubnetRow(s: Subnet): (r: seq<string>)
    ensures |r| == |SUBNET_HEADERS|
    ensures r[1] != "" && (s.name != "" ==> r[1] == s.name)
    ensures r[0] == s.subnetId && r[2] == s.vpcId && r[3] == s.cidrBlock && r[4] == s.availabilityZone
    ensures r[5] == s.availableIpAddressCount && r[6] == s.subnetType
  {
    [s.subnetId, DisplayName(s.name), s.vpcId, s.cidrBlock, s.availabilityZone,
     s.availableIpAddressCount, s.subnetType]
  }

  function SubnetsText(subnets: seq<Subnet>): string {
    TableText(SUBNET_HEADERS, MapSeq(subnets, SubnetRow))
  }

  method FormatSubnets(subnets: seq<Subnet>) returns (out: string)
    ensures out == SubnetsText(subnets)
    ensures subnets == [] ==> out == "_No resources found_\n"
  {
    var rows := MapInOrder(subnets, SubnetRow);
    assert rows == MapSeq(subnets, SubnetRow);
    out := FormatTable(SUBNET_HEADERS, rows);
  }

  const ROUTE_TABLE_HEADERS: seq<string> := ["Route Table ID", "Name", "VPC", "Associated Subnets", "Key Routes"]

  /** What follows the name of the main route table. */
  const MAIN_MARK := " (Main)"

  /** The name cell of a route table: the name or `(unnamed)`, and `" (Main)"` after it for the main table. */
  function RouteTableName(rt: RouteTable): (r: string)
    ensures !rt.isMain ==> r == DisplayName(rt.name)
    ensures rt.isMain ==> r == DisplayName(rt.name) + MAIN_MARK
    ensures r != ""
    ensures |DisplayName(rt.name)| <= |r| && r[..|DisplayName(rt.name)|] == DisplayName(rt.name)
    ensures rt.isMain <==> |r| == |DisplayName(rt.name)| + |MAIN_MARK| && r[|r| - |MAIN_MARK|..] == MAIN_MARK
  {
    var name := DisplayName(rt.name);
    if rt.isMain then name + MAIN_MARK else name
  }

  function RouteTableRow(rt: RouteTable): (r: seq<string>)
    ensures |r| == |ROUTE_TABLE_HEADERS|
    ensures r[1] == RouteTableName(rt)
    ensures r[3] == SubnetSummary(rt.isMain, rt.subnetIds)
    ensures r[4] == KeyRoutesSummary(rt.keyRoutes)
    ensures r[0] == rt.routeTableId && r[2] == rt.vpcId
  {
    [rt.routeTableId, RouteTableName(rt), rt.vpcId,
     SubnetSummary(rt.isMain, rt.subnetIds), KeyRoutesSummary(rt.keyRoutes)]
  }

  function RouteTablesText(routeTables: seq<RouteTable>): string {
    TableText(ROUTE_TABLE_HEADERS, MapSeq(routeTables, RouteTableRow))
  }

  method FormatRouteTables(routeTables: seq<RouteTable>) returns (out: string)
    ensures out == RouteTablesText(routeTables)
    ensures routeTables == [] ==> out == "_No resources found_\n"
  {
    var rows := MapInOrder(routeTables, RouteTableRow);
    assert rows == MapSeq(routeTables, RouteTableRow);
    out := FormatTable(ROUTE_TABLE_HEADERS, rows);
  }

  const IGW_HEADERS: seq<string> := ["IGW ID", "Name", "State", "Attached VPC"]

  function InternetGatewayRow(g: InternetGateway): (r: seq<string>)
    ensures |r| == |IGW_HEADERS|
    ensures r[1] != "" && (g.name != "" ==> r[1] == g.name)
    ensures r[0] == g.internetGatewayId && r[2] == g.state && r[3] == g.attachedVpc
  {
    [g.internetGatewayId, DisplayName(g.name), g.state, g.attachedVpc]
  }

  function InternetGatewaysText(igws: seq<InternetGateway>): string {
    TableText(IGW_HEADERS, MapSeq(igws, InternetGatewayRow))
  }

  method FormatInternetGateways(igws: seq<InternetGateway>) returns (out: string)
    ensures out == InternetGatewaysText(igws)
    ensures igws == [] ==> out == "_No resources found_\n"
  {
    var rows := MapInOrder(igws, InternetGatewayRow);
    assert rows == MapSeq(igws, InternetGatewayRow);
    out := FormatTable(IGW_HEADERS, rows);
  }

  const NAT_HEADERS: seq<string> := ["NAT Gateway ID", "Name", "VPC", "Subnet", "State", "Public IP", "Private IP"]

  function NatGatewayRow(g: NatGateway): (r: seq<string>)
    ensures |r| == |NAT_HEADERS|
    ensures r[1] != "" && (g.name != "" ==> r[1] == g.name)
    ensures r[0] == g.natGatewayId && r[2] == g.vpcId && r[3] == g.subnetId && r[4] == g.state
    ensures r[5] == g.publicIp && r[6] == g.privateIp
  {
    [g.natGatewayId, DisplayName(g.name), g.vpcId, g.subnetId, g.state, g.publicIp, g.privateIp]
  }

  function NatGatewaysText(natGateways: seq<NatGateway>): string {
    TableText(NAT_HEADERS, MapSeq(natGateways, NatGatewayRow))
  }

  method FormatNatGateways(natGateways: seq<NatGateway>) returns (out: string)
    ensures out == NatGatewaysText(natGateways)
    ensures natGateways == [] ==> out == "_No resources found_\n"
  {
    var rows := MapInOrder(natGateways, NatGatewayRow);
    assert rows == MapSeq(natGateways, NatGatewayRow);
    out := FormatTable(NAT_HEADERS, rows);
  }

  const TGW_HEADERS: seq<string> := ["TGW ID", "Name", "State", "ASN", "Default Route Table"]

  function TransitGatewayRow(g: TransitGateway): (r: seq<string>)
    ensures |r| == |TGW_HEADERS|
    ensures r[1] != "" && (g.name != "" ==> r[1] == g.name)
    ensures r[0] == g.transitGatewayId && r[2] == g.state && r[3] == g.amazonSideAsn && r[4] == g.defaultRouteTableId
  {
    [g.transitGatewayId, DisplayName(g.name), g.state, g.amazonSideAsn, g.defaultRouteTableId]
  }

  function TransitGatewaysText(tgws: seq<TransitGateway>): string {
    TableText(TGW_HEADERS, MapSeq(tgws, TransitGatewayRow))
  }

  method FormatTransitGateways(tgws: seq<TransitGateway>) returns (out: string)
    ensures out == TransitGatewaysText(tgws)
    ensures tgws == [] ==> out == "_No resources found_\n"
  {
    var rows := MapInOrder(tgws, TransitGatewayRow);
    assert rows == MapSeq(tgws, TransitGatewayRow);
    out := FormatTable(TGW_HEADERS, rows);
  }

  const VPN_HEADERS: seq<string> := ["VGW ID", "Name", "State", "Type", "ASN", "Attached VPC"]

  function VpnGatewayRow(g: VpnGateway): (r: seq<string>)
    ensures |r| == |VPN_HEADERS|
    ensures r[1] != "" && (g.name != "" ==> r[1] == g.name)
    ensures r[0] == g.vpnGatewayId && r[2] == g.state && r[3] == g.gatewayType && r[4] == g.amazonSideAsn
    ensures r[5] == g.attachedVpc
  {
    [g.vpnGatewayId, DisplayName(g.name), g.state, g.gatewayType, g.amazonSideAsn, g.attachedVpc]
  }

  function VpnGatewaysText(vgws: seq<VpnGateway>): string {
    TableText(VPN_HEADERS, MapSeq(vgws, VpnGatewayRow))
  }

  method FormatVpnGateways(vgws: seq<VpnGateway>) returns (out: string)
    ensures out == VpnGatewaysText(vgws)
    ensures vgws == [] ==> out == "_No resources found_\n"
  {
    var rows := MapInOrder(vgws, VpnGatewayRow);
    assert rows == MapSeq(vgws, VpnGatewayRow);
    out := FormatTable(VPN_HEADERS, rows);
  }

  const PEERING_HEADERS: seq<string> := ["Peering Connection ID", "Name", "Requester VPC", "Accepter VPC", "Status"]

  function VpcPeeringRow(p: VpcPeering): (r: seq<string>)
    ensures |r| == |PEERING_HEADERS|
    ensures r[1] != "" && (p.name != "" ==> r[1] == p.name)
    ensures r[0] == p.vpcPeeringConnectionId && r[2] == p.requesterVpc && r[3] == p.accepterVpc && r[4] == p.status
  {
    [p.vpcPeeringConnectionId, DisplayName(p.name), p.requesterVpc, p.accepterVpc, p.status]
  }

  function VpcPeeringText(peerings: seq<VpcPeering>): string {
    TableText(PEERING_HEADERS, MapSeq(peerings, VpcPeeringRow))
  }

  method FormatVpcPeering(peerings: seq<VpcPeering>) returns (out: string)
    ensures out == VpcPeeringText(peerings)
    ensures peerings == [] ==> out == "_No resources found_\n"
  {
    var rows := MapInOrder(peerings, VpcPeeringRow);
    assert rows == MapSeq(peerings, VpcPeeringRow);
    out := FormatTable(PEERING_HEADERS, rows);
  }

  const ENDPOINT_HEADERS: seq<string> := ["Endpoint ID", "Name", "Type", "VPC", "Service", "State"]

  function VpcEndpointRow(e: VpcEndpoint): (r: seq<string>)
    ensures |r| == |ENDPOINT_HEADERS|
    ensures r[1] != "" && (e.name != "" ==> r[1] == e.name)
    ensures r[4] == ServiceDisplay(e.serviceName)
    ensures r[0] == e.vpcEndpointId && r[2] == e.endpointType && r[3] == e.vpcId && r[5] == e.state
  {
    [e.vpcEndpointId, DisplayName(e.name), e.endpointType, e.vpcId, ServiceDisplay(e.serviceName), e.state]
  }

  function VpcEndpointsText(endpoints: seq<VpcEndpoint>): string {
    TableText(ENDPOINT_HEADERS, MapSeq(endpoints, VpcEndpointRow))
  }

  method FormatVpcEndpoints(endpoints: seq<VpcEndpoint>) returns (out: string)
    ensures out == VpcEndpointsText(endpoints)
    ensures endpoints == [] ==> out == "_No resources found_\n"
  {
    var rows := MapInOrder(endpoints, VpcEndpointRow);
    assert rows == MapSeq(endpoints, VpcEndpointRow);
    out := FormatTable(ENDPOINT_HEADERS, rows);
  }

  // ---------------------------------------------------------------------------------------
  // Security groups: at most `limit` rows, and a note when the limit cuts the list
  // ---------------------------------------------------------------------------------------

  const SG_HEADERS: seq<string> := ["SG ID", "Name", "VPC", "Key Inbound Rules"]
  const DEFAULT_SG_LIMIT := 20

  function SecurityGroupRow(sg: SecurityGroup): (r: seq<string>)
    ensures |r| == |SG_HEADERS|
    ensures r[3] == InboundSummary(sg.inboundRules)
    ensures r[0] == sg.groupId && r[1] == sg.groupName && r[2] == sg.vpcId
  {
    [sg.groupId, sg.groupName, sg.vpcId, InboundSummary(sg.inboundRules)]
  }

  function SecurityGroupNote(total: nat, limit: int): string {
    "\nNote: There are " + NatToString(total) + " total security groups. The table above shows the first "
      + IntToString(limit) + ".\n"
  }

  /** What `format_security_groups(sgs, limit)` returns; `limit` slices as Python does. */
  function SecurityGroupsText(sgs: seq<SecurityGroup>, limit: int): string {
    TableText(SG_HEADERS, MapSeq(Prefix(sgs, limit), SecurityGroupRow))
      + (if |sgs| > limit then SecurityGroupNote(|sgs|, limit) else "")
  }

  method FormatSecurityGroups(sgs: seq<SecurityGroup>, limit: int) returns (out: string)
    ensures out == SecurityGroupsText(sgs, limit)
  {
    var shown := Prefix(sgs, limit);
    var rows := [];
    for i := 0 to |shown|
      invariant rows == MapSeq(shown[..i], SecurityGroupRow)
    {
      assert shown[..i + 1] == shown[..i] + [shown[i]];
      rows := rows + [SecurityGroupRow(shown[i])];
    }
    assert shown[..|shown|] == shown;
    out := FormatTable(SG_HEADERS, rows);
    if |sgs| > limit {
      out := out + SecurityGroupNote(|sgs|, limit);
    }
  }

  /**
   * With a non-negative limit the table shows the first `limit` groups in order (all of them
   * when there are fewer), and the text ends with the note, which names the true total and
   * the limit, exactly when the list is longer than the limit.
   */
  lemma SecurityGroupsLimit(sgs: seq<SecurityGroup>, limit: int)
    requires limit >= 0
    ensures var shown := Prefix(sgs, limit);
      |shown| <= limit && |shown| <= |sgs| && shown == sgs[..|shown|]
      && (|sgs| <= limit ==> shown == sgs)
    ensures var t := SecurityGroupsText(sgs, limit); var note := SecurityGroupNote(|sgs|, limit);
      (|sgs| > limit <==> |t| >= |note| && t[|t| - |note|..] == note)
  {
    var shown := Prefix(sgs, limit);
    var rows := MapSeq(shown, SecurityGroupRow);
    var table := TableText(SG_HEADERS, rows);
    var note := SecurityGroupNote(|sgs|, limit);
    var t := SecurityGroupsText(sgs, limit);
    if |sgs| <= limit {
      assert sgs[..|sgs|] == sgs;
      TableTextEnding(SG_HEADERS, rows);
      NoteEnding(note, NatToString(|sgs|), IntToString(limit));
      SuffixSecondLast(t, note);
    } else {
      assert t == table + note;
      assert t[|t| - |note|..] == note;
    }
  }

  /** A text that ends with `note` has the note's second-to-last character at the same place. */
  lemma SuffixSecondLast(t: string, note: string)
    requires |note| >= 2
    ensures |t| >= |note| && t[|t| - |note|..] == note ==> t[|t| - 2] == note[|note| - 2]
  {
    if |t| >= |note| && t[|t| - |note|..] == note {
      assert t[|t| - |note|..][|note| - 2] == t[|t| - 2];
    }
  }

  /**
   * A note that may follow a table: when the table and the note differ in their second-last
   * character, the text ends with the note exactly when it was appended.
   */
  lemma NoteAppended(table: string, note: string, present: bool)
    requires |table| >= 2 && |note| >= 2 && table[|table| - 2] != note[|note| - 2]
    ensures var t := table + (if present then note else "");
      |t| >= 2 && t[|t| - 2] == (if present then note[|note| - 2] else table[|table| - 2])
      && (present <==> |t| >= |note| && t[|t| - |note|..] == note)
  {
    var t := table + (if present then note else "");
    if present {
      assert t[|t| - |note|..] == note;
      assert t[|t| - 2] == note[|note| - 2];
    } else {
      assert t == table;
      SuffixSecondLast(t, note);
    }
  }

  /** A table of records followed by an optional note ending in `.`: never the placeholder's ending. */
  lemma TableWithNote<T>(headers: seq<string>, items: seq<T>, row: T -> seq<string>, note: string, present: bool)
    requires items != []
    requires forall k :: 0 <= k < |items| ==> |row(items[k])| == |headers|
    requires |note| >= 2 && note[|note| - 2] == '.'
    ensures RowsFit(headers, MapSeq(items, row))
    ensures var t := TableText(headers, MapSeq(items, row)) + (if present then note else "");
      |t| >= 2 && t[|t| - 2] != '_'
      && (present <==> |t| >= |note| && t[|t| - |note|..] == note)
  {
    var rows := MapSeq(items, row);
    TableTextEnding(headers, rows);
    NoteAppended(TableText(headers, rows), note, present);
  }

  lemma NoteEnding(note: string, total: string, limit: string)
    requires note == "\nNote: There are " + total + " total security groups. The table above shows the first " + limit + ".\n"
    ensures |note| >= 2 && note[|note| - 2] == '.'
  {
  }

  // ---------------------------------------------------------------------------------------
  // Network ACLs
  // ---------------------------------------------------------------------------------------

  const NACL_HEADERS: seq<string> := ["NACL ID", "VPC", "Subnets", "Type", "Rules"]
  const NACL_FOOTNOTE := "\nNote: All NACLs follow standard rule format (Rule 100: Allow all, Rule 32767: Deny all as default).\n"

  function NetworkAclRow(n: NetworkAcl): (r: seq<string>)
    ensures |r| == |NACL_HEADERS|
    ensures r[2] == NaclSubnetText(|n.subnetIds|)
    ensures r[4] == "Allow all inbound/outbound" <==> n.isDefault
    ensures r[4] == "Custom rules" <==> !n.isDefault
    ensures r[0] == n.networkAclId && r[1] == n.vpcId && r[3] == n.aclType
  {
    var rules := if n.isDefault then "Allow all inbound/outbound" else "Custom rules";
    [n.networkAclId, n.vpcId, NaclSubnetText(|n.subnetIds|), n.aclType, rules]
  }

  function NetworkAclsText(nacls: seq<NetworkAcl>): string {
    TableText(NACL_HEADERS, MapSeq(nacls, NetworkAclRow)) + NACL_FOOTNOTE
  }

  method FormatNetworkAcls(nacls: seq<NetworkAcl>) returns (out: string)
    ensures out == NetworkAclsText(nacls)
    ensures nacls == [] ==> out == "_No resources found_\n" + NACL_FOOTNOTE
  {
    var rows := MapInOrder(nacls, NetworkAclRow);
    assert rows == MapSeq(nacls, NetworkAclRow);
    out := FormatTable(NACL_HEADERS, rows);
    out := out + NACL_FOOTNOTE;
  }

  // ---------------------------------------------------------------------------------------
  // EC2 instances: terminated ones dropped, a note counting NAT instances
  // ---------------------------------------------------------------------------------------

  const EC2_HEADERS: seq<string> :=
    ["Instance ID", "Name", "Type", "State", "VPC", "Subnet", "Private IP", "Public IP", "NAT Instance"]
  const NO_EC2 := "_No EC2 instances found (excluding terminated instances)_\n"

  predicate IsTerminated(i: Ec2Instance) {
    i.state == "terminated" || i.state == "terminating"
  }

  /** The instances the EC2 table shows: those not terminated or terminating, in input order. */
  function Visible(instances: seq<Ec2Instance>): seq<Ec2Instance>
    decreases |instances|
  {
    if instances == [] then []
    else
      var last := instances[|instances| - 1];
      Visible(instances[..|instances| - 1]) + (if IsTerminated(last) then [] else [last])
  }

  /** `len([i for i in instances if i['IsNatInstance'] and i['State'] not in [...]])`. */
  function NatCount(instances: seq<Ec2Instance>): nat
    decreases |instances|
  {
    if instances == [] then 0
    else
      var last := instances[|instances| - 1];
      NatCount(instances[..|instances| - 1]) + (if last.isNatInstance && !IsTerminated(last) then 1 else 0)
  }

  function Ec2Row(i: Ec2Instance): (r: seq<string>)
    ensures |r| == |EC2_HEADERS|
    ensures r[1] != "" && (i.name != "" ==> r[1] == i.name)
    ensures r[8] == "Yes" <==> i.isNatInstance
    ensures r[0] == i.instanceId && r[2] == i.instanceType && r[3] == i.state && r[4] == i.vpcId
    ensures r[5] == i.subnetId && r[6] == i.privateIpAddress && r[7] == i.publicIpAddress
  {
    [i.instanceId, DisplayName(i.name), i.instanceType, i.state, i.vpcId, i.subnetId,
     i.privateIpAddress, i.publicIpAddress, YesNo(i.isNatInstance)]
  }

  function NatNote(count: nat): string {
    "\nNote: " + NatToString(count) + " NAT instance(s) detected (source/destination check disabled).\n"
  }

  function Ec2InstancesText(instances: seq<Ec2Instance>): string {
    var shown := Visible(instances);
    if shown == [] then NO_EC2
    else
      TableText(EC2_HEADERS, MapSeq(shown, Ec2Row))
        + (if NatCount(instances) > 0 then NatNote(NatCount(instances)) else "")
  }

  /** The loop of `format_ec2_instances`: one row per instance, terminated ones skipped. */
  method VisibleRows(instances: seq<Ec2Instance>) returns (rows: seq<seq<string>>)
    ensures rows == MapSeq(Visible(instances), Ec2Row)
  {
    rows := [];
    for k := 0 to |instances|
      invariant rows == MapSeq(Visible(instances[..k]), Ec2Row)
    {
      VisibleStep(instances, k);
      if IsTerminated(instances[k]) {
        continue;
      }
      MapSeqSnoc(Visible(instances[..k]), instances[k], Ec2Row);
      rows := rows + [Ec2Row(instances[k])];
    }
    assert instances[..|instances|] == instances;
  }

  method FormatEc2Instances(instances: seq<Ec2Instance>) returns (out: string)
    ensures out == Ec2InstancesText(instances)
  {
    var rows := VisibleRows(instances);
    if rows == [] {
      return NO_EC2;
    }
    Ec2RowsFit(Visible(instances));
    out := FormatTable(EC2_HEADERS, rows);
    Ec2TextWithTable(instances, out);
    var natInstances := NatCount(instances);
    if natInstances > 0 {
      out := out + NatNote(natInstances);
    }
  }

  /** EC2 rows have one cell per header. */
  lemma Ec2RowsFit(shown: seq<Ec2Instance>)
    ensures RowsFit(EC2_HEADERS, MapSeq(shown, Ec2Row))
  {
  }

  /** With some instance shown, the section is its table followed by the note when there are NAT instances. */
  lemma Ec2TextWithTable(instances: seq<Ec2Instance>, table: string)
    requires MapSeq(Visible(instances), Ec2Row) != []
    requires table == TableText(EC2_HEADERS, MapSeq(Visible(instances), Ec2Row))
    ensures Ec2InstancesText(instances)
      == table + (if NatCount(instances) > 0 then NatNote(NatCount(instances)) else "")
  {
  }

  /** One more instance extends the filtered prefix by that instance, unless it is terminated. */
  lemma VisibleStep(instances: seq<Ec2Instance>, k: nat)
    requires k < |instances|
    ensures Visible(instances[..k + 1])
      == Visible(instances[..k]) + (if IsTerminated(instances[k]) then [] else [instances[k]])
  {
    assert instances[..k + 1][..k] == instances[..k];
  }

  /** The filter keeps exactly the instances that are not terminated or terminating. */
  lemma {:induction false} VisibleMembers(instances: seq<Ec2Instance>)
    ensures forall x :: x in Visible(instances) <==> x in instances && !IsTerminated(x)
    ensures |Visible(instances)| <= |instances|
    decreases |instances|
  {
    if instances != [] {
      var init := instances[..|instances| - 1];
      VisibleMembers(init);
      assert instances == init + [instances[|instances| - 1]];
    }
  }

  /** The filter keeps input order: filtering a concatenation concatenates the filtered parts. */
  lemma {:induction false} VisibleConcat(a: seq<Ec2Instance>, b: seq<Ec2Instance>)
    ensures Visible(a + b) == Visible(a) + Visible(b)
    decreases |b|
  {
    if b == [] {
      assert a + b == a;
    } else {
      var b', last := b[..|b| - 1], b[|b| - 1];
      var tail := if IsTerminated(last) then [] else [last];
      VisibleConcat(a, b');
      assert (a + b)[..|a + b| - 1] == a + b';
      assert (a + b)[|a + b| - 1] == last;
      assert Visible(a + b) == Visible(a + b') + tail;
      assert Visible(b) == Visible(b') + tail;
    }
  }

  /** A list without terminated instances is shown as it is. */
  lemma {:induction false} VisibleAllLive(instances: seq<Ec2Instance>)
    requires forall k :: 0 <= k < |instances| ==> !IsTerminated(instances[k])
    ensures Visible(instances) == instances
    decreases |instances|
  {
    if instances != [] {
      var init := instances[..|instances| - 1];
      VisibleAllLive(init);
      assert instances == init + [instances[|instances| - 1]];
    }
  }

  /** Every NAT instance the note counts is one the table shows. */
  lemma {:induction false} NatCountBound(instances: seq<Ec2Instance>)
    ensures NatCount(instances) <= |Visible(instances)|
    decreases |instances|
  {
    if instances != [] {
      NatCountBound(instances[..|instances| - 1]);
    }
  }

  /**
   * The EC2 section is the special placeholder exactly when every instance is terminated or
   * terminating; otherwise it is the table of the remaining instances, followed by the NAT
   * note exactly when some remaining instance is a NAT instance, the note naming their number.
   */
  lemma Ec2InstancesSection(instances: seq<Ec2Instance>)
    ensures var t := Ec2InstancesText(instances);
      t == NO_EC2 <==> forall k :: 0 <= k < |instances| ==> IsTerminated(instances[k])
    ensures var t := Ec2InstancesText(instances); var note := NatNote(NatCount(instances));
      Visible(instances) != [] ==>
        (NatCount(instances) > 0 <==> |t| >= |note| && t[|t| - |note|..] == note)
  {
    VisibleMembers(instances);
    var shown := Visible(instances);
    if shown == [] {
      forall k | 0 <= k < |instances| ensures IsTerminated(instances[k]) {
        assert instances[k] in instances;
      }
    } else {
      assert shown[0] in shown;
      NatNoteEnding(NatCount(instances));
      TableWithNote(EC2_HEADERS, shown, Ec2Row, NatNote(NatCount(instances)), NatCount(instances) > 0);
      Ec2TextWithTable(instances, TableText(EC2_HEADERS, MapSeq(shown, Ec2Row)));
      assert NO_EC2[|NO_EC2| - 2] == '_';
    }
  }

  lemma NatNoteEnding(count: nat)
    ensures var note := NatNote(count); |note| >= 2 && note[|note| - 2] == '.'
  {
  }

  // ---------------------------------------------------------------------------------------
  // Direct Connect: up to three optional sub-tables
  // ---------------------------------------------------------------------------------------

  const DX_CONNECTION_HEADERS: seq<string> := ["Connection ID", "Name", "State", "Location", "Bandwidth", "AWS Device"]
  const DX_VIF_HEADERS: seq<string> := ["VIF ID", "Name", "Type", "VLAN", "State", "BGP Status", "Customer ASN"]
  const DX_GATEWAY_HEADERS: seq<string> := ["DX Gateway ID", "Name", "State", "ASN"]
  const DX_CONNECTIONS_HEADING := "### Direct Connect Connections\n"
  const DX_VIFS_HEADING := "### Virtual Interfaces (VIFs)\n"
  const DX_GATEWAYS_HEADING := "### Direct Connect Gateways\n"
  const NO_DIRECT_CONNECT := "_No Direct Connect resources found_\n"

  /** A Direct Connect name falls back to `(unnamed)` only when the key is absent; an empty name stays empty. */
  function DxConnectionRow(c: DxConnection): (r: seq<string>)
    ensures |r| == |DX_CONNECTION_HEADERS|
    ensures c.connectionName.None? ==> r[1] == UNNAMED
    ensures c.connectionName.Some? ==> r[1] == c.connectionName.value
    ensures c.awsDeviceV2.None? ==> r[5] == "N/A"
    ensures c.awsDeviceV2.Some? ==> r[5] == c.awsDeviceV2.value
    ensures r[0] == c.connectionId && r[2] == c.connectionState && r[3] == c.location && r[4] == c.bandwidth
  {
    [c.connectionId, c.connectionName.GetOr(UNNAMED), c.connectionState, c.location,
     c.bandwidth, c.awsDeviceV2.GetOr("N/A")]
  }

  function DxVirtualInterfaceRow(v: DxVirtualInterface): (r: seq<string>)
    ensures |r| == |DX_VIF_HEADERS|
    ensures v.virtualInterfaceName.None? ==> r[1] == UNNAMED
    ensures v.virtualInterfaceName.Some? ==> r[1] == v.virtualInterfaceName.value
    ensures v.bgpStatus.None? ==> r[5] == "N/A"
    ensures v.customerAsn.None? ==> r[6] == "N/A"
    ensures v.bgpStatus.Some? ==> r[5] == v.bgpStatus.value
    ensures v.customerAsn.Some? ==> r[6] == v.customerAsn.value
    ensures r[0] == v.virtualInterfaceId && r[2] == v.virtualInterfaceType && r[3] == v.vlan && r[4] == v.virtualInterfaceState
  {
    [v.virtualInterfaceId, v.virtualInterfaceName.GetOr(UNNAMED), v.virtualInterfaceType,
     v.vlan, v.virtualInterfaceState, v.bgpStatus.GetOr("N/A"), v.customerAsn.GetOr("N/A")]
  }

  function DxGatewayRow(g: DxGateway): (r: seq<string>)
    ensures |r| == |DX_GATEWAY_HEADERS|
    ensures g.directConnectGatewayName.None? ==> r[1] == UNNAMED
    ensures g.directConnectGatewayName.Some? ==> r[1] == g.directConnectGatewayName.value
    ensures r[0] == g.directConnectGatewayId && r[2] == g.directConnectGatewayState && r[3] == g.amazonSideAsn
  {
    [g.directConnectGatewayId, g.directConnectGatewayName.GetOr(UNNAMED),
     g.directConnectGatewayState, g.amazonSideAsn]
  }

  function DxConnectionsTable(connections: seq<DxConnection>): string {
    TableText(DX_CONNECTION_HEADERS, MapSeq(connections, DxConnectionRow))
  }

  function DxVirtualInterfacesTable(vifs: seq<DxVirtualInterface>): string {
    TableText(DX_VIF_HEADERS, MapSeq(vifs, DxVirtualInterfaceRow))
  }

  function DxGatewaysTable(gateways: seq<DxGateway>): string {
    TableText(DX_GATEWAY_HEADERS, MapSeq(gateways, DxGatewayRow))
  }

  /** The heading and table that one sub-collection adds to the output: nothing when it is empty. */
  function DxPart(nonEmpty: bool, heading: string, table: string): (p: seq<string>)
    ensures |p| == if nonEmpty then 2 else 0
    ensures nonEmpty ==> p[0] == heading && p[1] == table
  {
    if nonEmpty then [heading, table] else []
  }

  /** The `output` list of `format_direct_connect`: connections, then virtual interfaces, then gateways. */
  function DxFragments(dx: DirectConnect): seq<string> {
    DxPart(dx.connections != [], DX_CONNECTIONS_HEADING, DxConnectionsTable(dx.connections))
    + DxPart(dx.virtualInterfaces != [], DX_VIFS_HEADING, DxVirtualInterfacesTable(dx.virtualInterfaces))
    + DxPart(dx.dxGateways != [], DX_GATEWAYS_HEADING, DxGatewaysTable(dx.dxGateways))
  }

  function DirectConnectText(dx: DirectConnect): string {
    var output := DxFragments(dx);
    if output == [] then NO_DIRECT_CONNECT else Join(output, "\n")
  }

  method FormatDxConnections(connections: seq<DxConnection>) returns (out: string)
    ensures out == DxConnectionsTable(connections)
  {
    var rows := MapInOrder(connections, DxConnectionRow);
    assert rows == MapSeq(connections, DxConnectionRow);
    out := FormatTable(DX_CONNECTION_HEADERS, rows);
  }

  method FormatDxVirtualInterfaces(vifs: seq<DxVirtualInterface>) returns (out: string)
    ensures out == DxVirtualInterfacesTable(vifs)
  {
    var rows := MapInOrder(vifs, DxVirtualInterfaceRow);
    assert rows == MapSeq(vifs, DxVirtualInterfaceRow);
    out := FormatTable(DX_VIF_HEADERS, rows);
  }

  method FormatDxGateways(gateways: seq<DxGateway>) returns (out: string)
    ensures out == DxGatewaysTable(gateways)
  {
    var rows := MapInOrder(gateways, DxGatewayRow);
    assert rows == MapSeq(gateways, DxGatewayRow);
    out := FormatTable(DX_GATEWAY_HEADERS, rows);
  }

  method FormatDirectConnect(dx: DirectConnect) returns (out: string)
    ensures out == DirectConnectText(dx)
  {
    var output: seq<string> := [];
    if dx.connections != [] {
      var table := FormatDxConnections(dx.connections);
      output := output + [DX_CONNECTIONS_HEADING, table];
    }
    ghost var afterConnections := output;
    if dx.virtualInterfaces != [] {
      var table := FormatDxVirtualInterfaces(dx.virtualInterfaces);
      output := output + [DX_VIFS_HEADING, table];
    }
    ghost var afterVifs := output;
    if dx.dxGateways != [] {
      var table := FormatDxGateways(dx.dxGateways);
      output := output + [DX_GATEWAYS_HEADING, table];
    }
    assert afterConnections == DxPart(dx.connections != [], DX_CONNECTIONS_HEADING, DxConnectionsTable(dx.connections));
    assert afterVifs == afterConnections
      + DxPart(dx.virtualInterfaces != [], DX_VIFS_HEADING, DxVirtualInterfacesTable(dx.virtualInterfaces));
    assert output == afterVifs + DxPart(dx.dxGateways != [], DX_GATEWAYS_HEADING, DxGatewaysTable(dx.dxGateways));
    out := if output == [] then NO_DIRECT_CONNECT else Join(output, "\n");
  }

  /** Whether any of the three Direct Connect sub-collections has entries (`any(dx.values())`). */
  predicate HasDirectConnect(dx: DirectConnect) {
    dx.connections != [] || dx.virtualInterfaces != [] || dx.dxGateways != []
  }

  /** The headings `format_direct_connect` emits, in order: one per non-empty sub-collection. */
  function DxHeadings(dx: DirectConnect): seq<string> {
    Present(dx.connections != [], DX_CONNECTIONS_HEADING)
    + Present(dx.virtualInterfaces != [], DX_VIFS_HEADING)
    + Present(dx.dxGateways != [], DX_GATEWAYS_HEADING)
  }

  /** The tables `format_direct_connect` emits, in order: one per non-empty sub-collection. */
  function DxTables(dx: DirectConnect): seq<string> {
    Present(dx.connections != [], DxConnectionsTable(dx.connections))
    + Present(dx.virtualInterfaces != [], DxVirtualInterfacesTable(dx.virtualInterfaces))
    + Present(dx.dxGateways != [], DxGatewaysTable(dx.dxGateways))
  }

  /** The one-element list `[x]` when `b` holds, and the empty list otherwise. */
  function Present(b: bool, x: string): seq<string> {
    if b then [x] else []
  }

  /**
   * Three optional heading-and-table pairs, concatenated, alternate heading and table:
   * the `k`-th heading kept stands at `2 * k` and the `k`-th table kept right after it.
   */
  lemma {:induction false} PartsAlternate(bc: bool, hc: string, tc: string, bv: bool, hv: string, tv: string,
                                          bg: bool, hg: string, tg: string)
    ensures var f := DxPart(bc, hc, tc) + DxPart(bv, hv, tv) + DxPart(bg, hg, tg);
      var h := Present(bc, hc) + Present(bv, hv) + Present(bg, hg);
      var t := Present(bc, tc) + Present(bv, tv) + Present(bg, tg);
      |f| == 2 * |h| && |t| == |h|
      && forall k :: 0 <= k < |h| ==> f[2 * k] == h[k] && f[2 * k + 1] == t[k]
  {
    var c, v, g := DxPart(bc, hc, tc), DxPart(bv, hv, tv), DxPart(bg, hg, tg);
    var xc, xv, xg := Present(bc, hc), Present(bv, hv), Present(bg, hg);
    var yc, yv, yg := Present(bc, tc), Present(bv, tv), Present(bg, tg);
    var f, h, t := c + v + g, xc + xv + xg, yc + yv + yg;
    forall k | 0 <= k < |h| ensures f[2 * k] == h[k] && f[2 * k + 1] == t[k] {
      if k < |xc| {
        assert f[2 * k] == c[2 * k] && f[2 * k + 1] == c[2 * k + 1];
      } else if k < |xc| + |xv| {
        var j := k - |xc|;
        assert f[2 * k] == v[2 * j] && f[2 * k + 1] == v[2 * j + 1];
        assert h[k] == xv[j] && t[k] == yv[j];
      } else {
        var j := k - |xc| - |xv|;
        assert f[2 * k] == g[2 * j] && f[2 * k + 1] == g[2 * j + 1];
        assert h[k] == xg[j] && t[k] == yg[j];
      }
    }
  }

  /**
   * The Direct Connect section alternates heading and table, one pair per non-empty
   * sub-collection, in the order connections, virtual interfaces, gateways.
   */
  lemma DirectConnectHeadings(dx: DirectConnect)
    ensures |DxFragments(dx)| == 2 * |DxHeadings(dx)|
    ensures |DxTables(dx)| == |DxHeadings(dx)|
    ensures forall k :: 0 <= k < |DxHeadings(dx)| ==> DxFragments(dx)[2 * k] == DxHeadings(dx)[k]
    ensures forall k :: 0 <= k < |DxHeadings(dx)| ==> DxFragments(dx)[2 * k + 1] == DxTables(dx)[k]
  {
    PartsAlternate(dx.connections != [], DX_CONNECTIONS_HEADING, DxConnectionsTable(dx.connections),
                   dx.virtualInterfaces != [], DX_VIFS_HEADING, DxVirtualInterfacesTable(dx.virtualInterfaces),
                   dx.dxGateways != [], DX_GATEWAYS_HEADING, DxGatewaysTable(dx.dxGateways));
  }

  /** With three distinct headings, the table kept beside a heading is the one given with it. */
  lemma {:induction false} PresentPaired(bc: bool, hc: string, tc: string, bv: bool, hv: string, tv: string,
                                         bg: bool, hg: string, tg: string)
    requires hc != hv && hc != hg && hv != hg
    ensures var h := Present(bc, hc) + Present(bv, hv) + Present(bg, hg);
      var t := Present(bc, tc) + Present(bv, tv) + Present(bg, tg);
      |t| == |h| &&
      forall k :: 0 <= k < |h| ==>
        (h[k] == hc ==> t[k] == tc) && (h[k] == hv ==> t[k] == tv) && (h[k] == hg ==> t[k] == tg)
  {
    var xc, xv, xg := Present(bc, hc), Present(bv, hv), Present(bg, hg);
    var yc, yv, yg := Present(bc, tc), Present(bv, tv), Present(bg, tg);
    var h, t := xc + xv + xg, yc + yv + yg;
    forall k | 0 <= k < |h|
      ensures (h[k] == hc ==> t[k] == tc) && (h[k] == hv ==> t[k] == tv) && (h[k] == hg ==> t[k] == tg)
    {
      if k < |xc| {
        assert h[k] == hc && t[k] == tc;
      } else if k < |xc| + |xv| {
        assert h[k] == xv[k - |xc|] == hv && t[k] == yv[k - |xc|] == tv;
      } else {
        assert h[k] == xg[k - |xc| - |xv|] == hg && t[k] == yg[k - |xc| - |xv|] == tg;
      }
    }
  }

  /** Three distinct fragments, each kept with its table or dropped together with it. */
  lemma {:induction false} PartsPaired(bc: bool, hc: string, tc: string, bv: bool, hv: string, tv: string,
                                       bg: bool, hg: string, tg: string)
    requires hc != hv && hc != hg && hv != hg
    ensures var f := DxPart(bc, hc, tc) + DxPart(bv, hv, tv) + DxPart(bg, hg, tg);
      forall k :: 0 <= k < |f| / 2 ==>
        (f[2 * k] == hc ==> f[2 * k + 1] == tc) && (f[2 * k] == hv ==> f[2 * k + 1] == tv)
        && (f[2 * k] == hg ==> f[2 * k + 1] == tg)
  {
    PartsAlternate(bc, hc, tc, bv, hv, tv, bg, hg, tg);
    PresentPaired(bc, hc, tc, bv, hv, tv, bg, hg, tg);
  }

  /** The three Direct Connect headings differ from one another. */
  lemma DxHeadingsDistinct()
    ensures DX_CONNECTIONS_HEADING != DX_VIFS_HEADING
    ensures DX_CONNECTIONS_HEADING != DX_GATEWAYS_HEADING
    ensures DX_VIFS_HEADING != DX_GATEWAYS_HEADING
  {
    assert DX_CONNECTIONS_HEADING[4] == 'D' && DX_VIFS_HEADING[4] == 'V' && DX_GATEWAYS_HEADING[4] == 'D';
    assert DX_CONNECTIONS_HEADING[19] == 'C' && DX_GATEWAYS_HEADING[19] == 'G';
  }

  /**
   * Each Direct Connect heading is followed by the table of its own sub-collection:
   * connections by the connections table, virtual interfaces by theirs, gateways by theirs.
   */
  lemma DirectConnectPairs(dx: DirectConnect)
    ensures |DxFragments(dx)| == 2 * |DxHeadings(dx)|
    ensures forall k :: 0 <= k < |DxHeadings(dx)| ==>
      (DxFragments(dx)[2 * k] == DX_CONNECTIONS_HEADING ==>
         DxFragments(dx)[2 * k + 1] == DxConnectionsTable(dx.connections))
      && (DxFragments(dx)[2 * k] == DX_VIFS_HEADING ==>
         DxFragments(dx)[2 * k + 1] == DxVirtualInterfacesTable(dx.virtualInterfaces))
      && (DxFragments(dx)[2 * k] == DX_GATEWAYS_HEADING ==>
         DxFragments(dx)[2 * k + 1] == DxGatewaysTable(dx.dxGateways))
  {
    DirectConnectHeadings(dx);
    DxHeadingsDistinct();
    PartsPaired(dx.connections != [], DX_CONNECTIONS_HEADING, DxConnectionsTable(dx.connections),
                dx.virtualInterfaces != [], DX_VIFS_HEADING, DxVirtualInterfacesTable(dx.virtualInterfaces),
                dx.dxGateways != [], DX_GATEWAYS_HEADING, DxGatewaysTable(dx.dxGateways));
  }

  /** The section is the placeholder exactly when all three sub-collections are empty. */
  lemma DirectConnectPlaceholder(dx: DirectConnect)
    ensures DirectConnectText(dx) == NO_DIRECT_CONNECT <==> !HasDirectConnect(dx)
  {
    DirectConnectHeadings(dx);
    var f := DxFragments(dx);
    if HasDirectConnect(dx) {
      assert |DxHeadings(dx)| > 0;
      var h := DxHeadings(dx)[0];
      assert h[0] == '#';
      assert f[0] == h;
      JoinStartsWithFirst(f, "\n");
      assert DirectConnectText(dx)[0] == '#';
      assert NO_DIRECT_CONNECT[0] == '_';
    }
  }

  // ---------------------------------------------------------------------------------------
  // The whole document
  // ---------------------------------------------------------------------------------------

  const TITLE := "# AWS Network Configuration\n"
  const RULE := "---\n"

  /** The headings of the twelve sections that are always present, in the order the document has them. */
  const SECTION_HEADINGS: seq<string> := [
    "## VPCs\n", "\n## Subnets\n", "\n## Route Tables\n", "\n## Internet Gateways\n",
    "\n## NAT Gateways\n", "\n## Transit Gateways\n", "\n## VPN Gateways\n", "\n## EC2 Instances\n",
    "\n## Security Groups\n", "\n## Network ACLs\n", "\n## VPC Peering Connections\n", "\n## VPC Endpoints\n"]
  const DX_HEADING := "\n## Direct Connect Configuration\n"

  const REGION_LABEL := "**Region:** "
  const DATE_LABEL := "**Date:** "
  const ACCOUNT_LABEL := "**Account:** "
  /** Two trailing spaces: Markdown's hard line break, when a newline follows. */
  const HARD_BREAK := "  "

  function HeaderFragments(m: Metadata): seq<string> {
    [TITLE, REGION_LABEL + m.region + HARD_BREAK, DATE_LABEL + m.date + HARD_BREAK,
     ACCOUNT_LABEL + m.accountId + "\n", RULE]
  }

  /** The section texts, in the same order as `SECTION_HEADINGS`. */
  function SectionTexts(inv: Inventory): (s: seq<string>)
    ensures |s| == |SECTION_HEADINGS|
  {
    [VpcsText(inv.vpcs), SubnetsText(inv.subnets), RouteTablesText(inv.routeTables),
     InternetGatewaysText(inv.internetGateways), NatGatewaysText(inv.natGateways),
     TransitGatewaysText(inv.transitGateways), VpnGatewaysText(inv.vpnGateways),
     Ec2InstancesText(inv.ec2Instances), SecurityGroupsText(inv.securityGroups, DEFAULT_SG_LIMIT),
     NetworkAclsText(inv.networkAcls), VpcPeeringText(inv.vpcPeering), VpcEndpointsText(inv.vpcEndpoints)]
  }

  /** Each heading followed by its section: `[h0, t0, h1, t1, ...]`. */
  function Interleave(headings: seq<string>, texts: seq<string>): (r: seq<string>)
    requires |headings| == |texts|
    ensures |r| == 2 * |headings|
    ensures forall k :: 0 <= k < |headings| ==> r[2 * k] == headings[k] && r[2 * k + 1] == texts[k]
    decreases |headings|
  {
    if headings == [] then
      []
    else
      Interleave(headings[..|headings| - 1], texts[..|texts| - 1]) + [headings[|headings| - 1], texts[|texts| - 1]]
  }

  /** The document's fragments from its parts: header, the twelve headed sections, and the optional last one. */
  function Assemble(header: seq<string>, texts: seq<string>, dx: Option<string>): (f: seq<string>)
    requires |texts| == |SECTION_HEADINGS|
  {
    header + Interleave(SECTION_HEADINGS, texts) + (if dx.Some? then [DX_HEADING, dx.value] else [])
  }

  /** The `output` list of `format_all`. */
  function DocumentFragments(inv: Inventory): seq<string> {
    Assemble(HeaderFragments(inv.metadata), SectionTexts(inv), DirectConnectPart(inv.directConnect))
  }

  /** The Direct Connect section when one of its sub-collections has entries, and none otherwise. */
  function DirectConnectPart(dx: DirectConnect): (p: Option<string>)
    ensures p.Some? <==> HasDirectConnect(dx)
    ensures p.Some? ==> p.value == DirectConnectText(dx)
  {
    if HasDirectConnect(dx) then Some(DirectConnectText(dx)) else None
  }

  function DocumentText(inv: Inventory): string {
    Join(DocumentFragments(inv), "")
  }

  /** The sections texts, formatted one by one in the document's order. */
  method FormatSections(inv: Inventory) returns (texts: seq<string>)
    ensures texts == SectionTexts(inv)
  {
    var vpcs := FormatVpcs(inv.vpcs);
    var subnets := FormatSubnets(inv.subnets);
    var routeTables := FormatRouteTables(inv.routeTables);
    var igws := FormatInternetGateways(inv.internetGateways);
    var nats := FormatNatGateways(inv.natGateways);
    var tgws := FormatTransitGateways(inv.transitGateways);
    var vgws := FormatVpnGateways(inv.vpnGateways);
    var instances := FormatEc2Instances(inv.ec2Instances);
    var sgs := FormatSecurityGroups(inv.securityGroups, DEFAULT_SG_LIMIT);
    var nacls := FormatNetworkAcls(inv.networkAcls);
    var peering := FormatVpcPeering(inv.vpcPeering);
    var endpoints := FormatVpcEndpoints(inv.vpcEndpoints);
    texts := [vpcs, subnets, routeTables, igws, nats, tgws, vgws, instances, sgs, nacls, peering, endpoints];
  }

  /** The loop of `format_all` that appends each section after its heading. */
  method AppendSections(output0: seq<string>, texts: seq<string>) returns (output: seq<string>)
    requires |texts| == |SECTION_HEADINGS|
    ensures output == output0 + Interleave(SECTION_HEADINGS, texts)
  {
    output := output0;
    for k := 0 to |SECTION_HEADINGS|
      invariant output == output0 + Interleave(SECTION_HEADINGS[..k], texts[..k])
    {
      assert SECTION_HEADINGS[..k + 1][..k] == SECTION_HEADINGS[..k];
      assert texts[..k + 1][..k] == texts[..k];
      output := output + [SECTION_HEADINGS[k], texts[k]];
    }
    assert SECTION_HEADINGS[..|SECTION_HEADINGS|] == SECTION_HEADINGS;
    assert texts[..|texts|] == texts;
  }

  /** The header, each section after its heading, then the Direct Connect pair when there is one. */
  method FormatAll(inv: Inventory) returns (doc: string)
    ensures doc == DocumentText(inv)
  {
    var header := HeaderFragments(inv.metadata);
    var texts := FormatSections(inv);
    var dx := FormatDirectConnectPart(inv.directConnect);
    doc := AssembleDocument(header, texts, dx);
  }

  /** The `output` list built from the header, the sections and the optional last one, then joined. */
  method AssembleDocument(header: seq<string>, texts: seq<string>, dx: Option<string>) returns (doc: string)
    requires |texts| == |SECTION_HEADINGS|
    ensures doc == Join(Assemble(header, texts, dx), "")
  {
    var output := AppendSections(header, texts);
    if dx.Some? {
      output := output + [DX_HEADING, dx.value];
    }
    assert output == Assemble(header, texts, dx);
    doc := Join(output, "");
  }

  /** The check of `format_all` on the Direct Connect data, and the section it then formats. */
  method FormatDirectConnectPart(dx: DirectConnect) returns (p: Option<string>)
    ensures p == DirectConnectPart(dx)
  {
    p := None;
    if dx.connections != [] || dx.virtualInterfaces != [] || dx.dxGateways != [] {
      var text := FormatDirectConnect(dx);
      p := Some(text);
    }
  }

  /** The metadata as it appears: region, date and account run together on one line. */
  function MetadataLine(m: Metadata): string {
    REGION_LABEL + m.region + HARD_BREAK + DATE_LABEL + m.date + HARD_BREAK + ACCOUNT_LABEL + m.accountId
  }

  /** The title line, the metadata line and the rule. */
  function HeaderText(m: Metadata): string {
    TITLE + MetadataLine(m) + "\n" + RULE
  }

  lemma HeaderJoin(m: Metadata)
    ensures Join(HeaderFragments(m), "") == HeaderText(m)
  {
    var h := HeaderFragments(m);
    Join5(h[0], h[1], h[2], h[3], h[4]);
    Regroup(TITLE, REGION_LABEL, m.region, HARD_BREAK, DATE_LABEL, m.date, ACCOUNT_LABEL, m.accountId, "\n", RULE);
  }

  predicate NoNewline(s: string) {
    forall k :: 0 <= k < |s| ==> s[k] != '\n'
  }

  lemma NoNewlineConcat(a: string, b: string)
    requires NoNewline(a) && NoNewline(b)
    ensures NoNewline(a + b)
  {
    forall k | 0 <= k < |a + b| ensures (a + b)[k] != '\n' {
      if k >= |a| { assert (a + b)[k] == b[k - |a|]; }
    }
  }

  /**
   * The region and date fragments end in two spaces but no newline, and the account fragment
   * ends the line, so with newline-free values the header is the title line, one metadata line
   * and the rule line: its only newlines end the title, the account and the rule.
   */
  lemma HeaderMetadataOneLine(m: Metadata)
    requires NoNewline(m.region) && NoNewline(m.date) && NoNewline(m.accountId)
    ensures NoNewline(MetadataLine(m))
    ensures var h := HeaderText(m); var e := |h| - |RULE| - 1;
      |TITLE| <= e && h[..|TITLE|] == TITLE && h[e] == '\n' && h[e + 1..] == RULE
      && forall k :: |TITLE| <= k < e ==> h[k] != '\n'
  {
    var a := REGION_LABEL + m.region;
    NoNewlineConcat(REGION_LABEL, m.region);
    NoNewlineConcat(a, HARD_BREAK);
    NoNewlineConcat(a + HARD_BREAK, DATE_LABEL);
    var b := a + HARD_BREAK + DATE_LABEL + m.date;
    NoNewlineConcat(a + HARD_BREAK + DATE_LABEL, m.date);
    NoNewlineConcat(b, HARD_BREAK);
    NoNewlineConcat(b + HARD_BREAK, ACCOUNT_LABEL);
    NoNewlineConcat(b + HARD_BREAK + ACCOUNT_LABEL, m.accountId);
    Framed(TITLE, MetadataLine(m), RULE);
  }

  /** The positions of the fragments after a five-fragment header. */
  lemma AssembleShape(header: seq<string>, texts: seq<string>, dx: Option<string>)
    requires |header| == 5 && |texts| == |SECTION_HEADINGS|
    ensures var f := Assemble(header, texts, dx);
      |f| == 29 + (if dx.Some? then 2 else 0)
      && (forall k :: 0 <= k < 12 ==> f[5 + 2 * k] == SECTION_HEADINGS[k] && f[6 + 2 * k] == texts[k])
      && (dx.Some? ==> f[29..] == [DX_HEADING, dx.value])
  {
    var f := Assemble(header, texts, dx);
    var body := Interleave(SECTION_HEADINGS, texts);
    forall k | 0 <= k < 12 ensures f[5 + 2 * k] == SECTION_HEADINGS[k] && f[6 + 2 * k] == texts[k] {
      assert f[5 + 2 * k] == body[2 * k];
      assert f[6 + 2 * k] == body[2 * k + 1];
    }
  }

  /** A joined document begins with its joined header. */
  lemma AssembleStartsWithHeader(header: seq<string>, texts: seq<string>, dx: Option<string>)
    requires |texts| == |SECTION_HEADINGS|
    ensures var h := Join(header, ""); var d := Join(Assemble(header, texts, dx), "");
      |h| <= |d| && d[..|h|] == h
  {
    var f := Assemble(header, texts, dx);
    var rest := f[|header|..];
    assert header + rest == f;
    JoinEmptyConcat(header, rest);
  }

  /** The layout of any assembled document, whatever its section texts are. */
  lemma AssembleLayout(m: Metadata, texts: seq<string>, dx: Option<string>)
    requires |texts| == |SECTION_HEADINGS|
    ensures var f := Assemble(HeaderFragments(m), texts, dx);
      var d := Join(f, "");
      |HeaderText(m)| <= |d| && d[..|HeaderText(m)|] == HeaderText(m)
      && |f| == 29 + (if dx.Some? then 2 else 0)
      && (forall k :: 0 <= k < 12 ==> f[5 + 2 * k] == SECTION_HEADINGS[k] && f[6 + 2 * k] == texts[k])
      && (dx.Some? ==> f[29..] == [DX_HEADING, dx.value])
  {
    AssembleShape(HeaderFragments(m), texts, dx);
    AssembleStartsWithHeader(HeaderFragments(m), texts, dx);
    HeaderJoin(m);
  }

  /**
   * The document: title, the region, date and account fragments, which run together on one
   * line because the fragments are joined with nothing between them, and the rule; then the
   * twelve sections, each after its heading, in fixed order; then the Direct Connect heading
   * and section, present exactly when one of its sub-collections has entries.
   */
  lemma DocumentLayout(inv: Inventory)
    ensures |HeaderText(inv.metadata)| <= |DocumentText(inv)|
    ensures DocumentText(inv)[..|HeaderText(inv.metadata)|] == HeaderText(inv.metadata)
    ensures var f := DocumentFragments(inv);
      |f| >= 29
      && (forall k :: 0 <= k < 12 ==> f[5 + 2 * k] == SECTION_HEADINGS[k] && f[6 + 2 * k] == SectionTexts(inv)[k])
      && (|f| > 29 <==> HasDirectConnect(inv.directConnect))
      && (HasDirectConnect(inv.directConnect) ==> f[29..] == [DX_HEADING, DirectConnectText(inv.directConnect)])
  {
    AssembleLayout(inv.metadata, SectionTexts(inv), DirectConnectPart(inv.directConnect));
  }
}
