/**
 * The in-memory document passed from the collector to the formatter: one flat record per
 * resource, one ordered list per resource kind, and the report's metadata.
 * Numbers the source only ever passes to `str()` (ASNs, VLANs, address counts) are held as
 * the string `str()` would give.
 */
module Records {
  import opened Wrappers

  datatype Vpc = Vpc(vpcId: string, name: string, cidrBlock: string, state: string, isDefault: bool)

  datatype Subnet = Subnet(
    subnetId: string, name: string, vpcId: string, cidrBlock: string,
    availabilityZone: string, availableIpAddressCount: string, subnetType: string)

  datatype RouteTable = RouteTable(
    routeTableId: string, name: string, vpcId: string,
    subnetIds: seq<string>, isMain: bool, keyRoutes: seq<string>)

  datatype InternetGateway = InternetGateway(
    internetGatewayId: string, name: string, state: string, attachedVpc: string)

  datatype NatGateway = NatGateway(
    natGatewayId: string, name: string, vpcId: string, subnetId: string,
    state: string, publicIp: string, privateIp: string)

  datatype TransitGateway = TransitGateway(
    transitGatewayId: string, name: string, state: string,
    amazonSideAsn: string, defaultRouteTableId: string)

  datatype VpnGateway = VpnGateway(
    vpnGatewayId: string, name: string, state: string, gatewayType: string,
    amazonSideAsn: string, attachedVpc: string)

  datatype SecurityGroup = SecurityGroup(
    groupId: string, groupName: string, vpcId: string, inboundRules: seq<string>)

  datatype NetworkAcl = NetworkAcl(
    networkAclId: string, vpcId: string, subnetIds: seq<string>, aclType: string, isDefault: bool)

  datatype VpcPeering = VpcPeering(
    vpcPeeringConnectionId: string, name: string, requesterVpc: string,
    accepterVpc: string, status: string)

  datatype VpcEndpoint = VpcEndpoint(
    vpcEndpointId: string, name: string, endpointType: string, vpcId: string,
    serviceName: string, state: string)

  datatype Ec2Instance = Ec2Instance(
    instanceId: string, name: string, instanceType: string, state: string,
    vpcId: string, subnetId: string, privateIpAddress: string, publicIpAddress: string,
    primaryEniId: string, securityGroups: seq<string>, isNatInstance: bool, sourceDestCheck: bool)

  /** Direct Connect records reach the formatter as the API returned them: keys may be absent. */
  datatype DxConnection = DxConnection(
    connectionId: string, connectionName: Option<string>, connectionState: string,
    location: string, bandwidth: string, awsDeviceV2: Option<string>)

  datatype DxVirtualInterface = DxVirtualInterface(
    virtualInterfaceId: string, virtualInterfaceName: Option<string>, virtualInterfaceType: string,
    vlan: string, virtualInterfaceState: string, bgpStatus: Option<string>, customerAsn: Option<string>)

  datatype DxGateway = DxGateway(
    directConnectGatewayId: string, directConnectGatewayName: Option<string>,
    directConnectGatewayState: string, amazonSideAsn: string)

  datatype DirectConnect = DirectConnect(
    connections: seq<DxConnection>, virtualInterfaces: seq<DxVirtualInterface>, dxGateways: seq<DxGateway>)

  datatype Metadata = Metadata(region: string, date: string, accountId: string)

  datatype Inventory = Inventory(
    metadata: Metadata,
    vpcs: seq<Vpc>,
    subnets: seq<Subnet>,
    routeTables: seq<RouteTable>,
    internetGateways: seq<InternetGateway>,
    natGateways: seq<NatGateway>,
    transitGateways: seq<TransitGateway>,
    vpnGateways: seq<VpnGateway>,
    securityGroups: seq<SecurityGroup>,
    networkAcls: seq<NetworkAcl>,
    vpcPeering: seq<VpcPeering>,
    vpcEndpoints: seq<VpcEndpoint>,
    ec2Instances: seq<Ec2Instance>,
    directConnect: DirectConnect)
}
