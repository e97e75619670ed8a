/** Network-interface and metadata settings of the Linode builder, and the
    "flatten" mappers that turn them into the API client's create options
    (builder/linode/config.go, builder/linode/linode_interfaces.go and the
    `flatten*` functions of builder/linode/step_create_linode.go).

    A Go pointer that may be nil is an `Option`; a nil slice and an empty
    slice are both the empty sequence. Each mapper is paired with an
    `Unflatten*` inverse: the round-trip lemmas say exactly which fields a
    mapper keeps, and the `Strip*` functions say which ones it drops. */
module Interfaces {
  import opened Wrappers

  // ---- Settings as written in the builder configuration ----

  /** Legacy (configuration-profile) interface IPv4 settings. */
  datatype InterfaceIPv4 = InterfaceIPv4(vpc: string, nat1To1: string)

  /** Legacy (configuration-profile) interface. */
  datatype Interface = Interface(
    purpose: string,
    labelText: string,
    ipamAddress: string,
    primary: bool,
    subnetId: Option<int>,
    ipv4: Option<InterfaceIPv4>,
    ipRanges: seq<string>)

  datatype DefaultRoute = DefaultRoute(ipv4: Option<bool>, ipv6: Option<bool>)

  datatype PublicIPv4Address = PublicIPv4Address(address: string, primary: Option<bool>)
  datatype PublicIPv4 = PublicIPv4(addresses: seq<PublicIPv4Address>)
  datatype PublicIPv6Range = PublicIPv6Range(range: string)
  datatype PublicIPv6 = PublicIPv6(ranges: seq<PublicIPv6Range>)
  datatype PublicInterface = PublicInterface(ipv4: Option<PublicIPv4>, ipv6: Option<PublicIPv6>)

  datatype VpcIPv4Address = VpcIPv4Address(address: string, primary: Option<bool>, nat1To1Address: Option<string>)
  datatype VpcIPv4Range = VpcIPv4Range(range: string)
  datatype VpcIPv4 = VpcIPv4(addresses: seq<VpcIPv4Address>, ranges: seq<VpcIPv4Range>)
  datatype VpcInterface = VpcInterface(subnetId: int, ipv4: Option<VpcIPv4>)

  datatype VlanInterface = VlanInterface(vlanLabel: string, ipamAddress: Option<string>)

  /** New-generation Linode interface. */
  datatype LinodeInterface = LinodeInterface(
    firewallId: Option<int>,
    defaultRoute: Option<DefaultRoute>,
    public: Option<PublicInterface>,
    vpc: Option<VpcInterface>,
    vlan: Option<VlanInterface>)

  datatype Metadata = Metadata(userData: string)

  // ---- Create options sent to the API client ----

  datatype ConfigVpcIPv4Options = ConfigVpcIPv4Options(vpc: string, nat1To1: string)

  datatype ConfigInterfaceOptions = ConfigInterfaceOptions(
    ipamAddress: string,
    labelText: string,
    purpose: string,
    primary: bool,
    subnetId: Option<int>,
    ipv4: Option<ConfigVpcIPv4Options>,
    ipRanges: seq<string>)

  datatype DefaultRouteOptions = DefaultRouteOptions(ipv4: Option<bool>, ipv6: Option<bool>)

  datatype PublicAddressOptions = PublicAddressOptions(address: string, primary: Option<bool>)
  datatype PublicIPv4Options = PublicIPv4Options(addresses: seq<PublicAddressOptions>)
  datatype PublicRangeOptions = PublicRangeOptions(range: string)
  datatype PublicIPv6Options = PublicIPv6Options(ranges: seq<PublicRangeOptions>)
  datatype PublicOptions = PublicOptions(ipv4: Option<PublicIPv4Options>, ipv6: Option<PublicIPv6Options>)

  datatype VpcAddressOptions = VpcAddressOptions(address: string)
  datatype VpcRangeOptions = VpcRangeOptions(range: string)
  datatype VpcIPv4Options = VpcIPv4Options(addresses: seq<VpcAddressOptions>, ranges: seq<VpcRangeOptions>)
  datatype VpcOptions = VpcOptions(subnetId: int, ipv4: Option<VpcIPv4Options>)

  datatype VlanOptions = VlanOptions(vlanLabel: string, ipamAddress: Option<string>)

  /** `firewallId` is a pointer to a nullable pointer in the client, so that an
      explicit null can be sent: the outer `Option` is that outer pointer. */
  datatype LinodeInterfaceOptions = LinodeInterfaceOptions(
    firewallId: Option<Option<int>>,
    defaultRoute: Option<DefaultRouteOptions>,
    public: Option<PublicOptions>,
    vpc: Option<VpcOptions>,
    vlan: Option<VlanOptions>)

  datatype MetadataOptions = MetadataOptions(userData: string)

  // ---- Legacy interfaces ----

  function FlattenConfigInterfaceIPv4(i: Option<InterfaceIPv4>): (r: Option<ConfigVpcIPv4Options>)
    ensures r.None? <==> i.None?
    ensures r.Some? ==> r.value.vpc == i.value.vpc && r.value.nat1To1 == i.value.nat1To1
  {
    match i
    case None => None
    case Some(v) => Some(ConfigVpcIPv4Options(v.vpc, v.nat1To1))
  }

  /** The legacy mapper loses nothing: every field of the interface can be read back. */
  function FlattenConfigInterface(i: Interface): (r: ConfigInterfaceOptions)
    ensures UnflattenConfigInterface(r) == i
  {
    ConfigInterfaceOptions(
      i.ipamAddress, i.labelText, i.purpose, i.primary, i.subnetId,
      FlattenConfigInterfaceIPv4(i.ipv4), i.ipRanges)
  }

  function UnflattenConfigInterface(o: ConfigInterfaceOptions): Interface {
    var ipv4 := match o.ipv4
      case None => None
      case Some(v) => Some(InterfaceIPv4(v.vpc, v.nat1To1));
    Interface(o.purpose, o.labelText, o.ipamAddress, o.primary, o.subnetId, ipv4, o.ipRanges)
  }

  /** Maps a list of legacy interfaces element by element, keeping order. */
  function FlattenConfigInterfaces(xs: seq<Interface>): (r: seq<ConfigInterfaceOptions>)
    ensures |r| == |xs|
    ensures forall k :: 0 <= k < |xs| ==> UnflattenConfigInterface(r[k]) == xs[k]
  {
    if xs == [] then [] else [FlattenConfigInterface(xs[0])] + FlattenConfigInterfaces(xs[1..])
  }

  // ---- Public interfaces ----

  function FlattenPublicAddresses(xs: seq<PublicIPv4Address>): (r: seq<PublicAddressOptions>)
    ensures |r| == |xs|
    ensures forall k :: 0 <= k < |xs| ==> r[k].address == xs[k].address && r[k].primary == xs[k].primary
  {
    if xs == [] then []
    else [PublicAddressOptions(xs[0].address, xs[0].primary)] + FlattenPublicAddresses(xs[1..])
  }

  function FlattenPublicRanges(xs: seq<PublicIPv6Range>): (r: seq<PublicRangeOptions>)
    ensures |r| == |xs|
    ensures forall k :: 0 <= k < |xs| ==> r[k].range == xs[k].range
  {
    if xs == [] then []
    else [PublicRangeOptions(xs[0].range)] + FlattenPublicRanges(xs[1..])
  }

  function FlattenPublicInterface(p: Option<PublicInterface>): (r: Option<PublicOptions>)
    ensures r.None? <==> p.None?
    ensures r.Some? ==> (r.value.ipv4.None? <==> p.value.ipv4.None?)
    ensures r.Some? ==> (r.value.ipv6.None? <==> p.value.ipv6.None?)
  {
    match p
    case None => None
    case Some(pub) =>
      var v4 := match pub.ipv4
        case None => None
        case Some(a) => Some(PublicIPv4Options(FlattenPublicAddresses(a.addresses)));
      var v6 := match pub.ipv6
        case None => None
        case Some(b) => Some(PublicIPv6Options(FlattenPublicRanges(b.ranges)));
      Some(PublicOptions(v4, v6))
  }

  function UnflattenPublicAddresses(xs: seq<PublicAddressOptions>): (r: seq<PublicIPv4Address>)
    ensures |r| == |xs|
    ensures forall k :: 0 <= k < |xs| ==> r[k] == PublicIPv4Address(xs[k].address, xs[k].primary)
  {
    if xs == [] then []
    else [PublicIPv4Address(xs[0].address, xs[0].primary)] + UnflattenPublicAddresses(xs[1..])
  }

  function UnflattenPublicRanges(xs: seq<PublicRangeOptions>): (r: seq<PublicIPv6Range>)
    ensures |r| == |xs|
    ensures forall k :: 0 <= k < |xs| ==> r[k] == PublicIPv6Range(xs[k].range)
  {
    if xs == [] then []
    else [PublicIPv6Range(xs[0].range)] + UnflattenPublicRanges(xs[1..])
  }

  function UnflattenPublicInterface(o: Option<PublicOptions>): Option<PublicInterface> {
    match o
    case None => None
    case Some(pub) =>
      var v4 := match pub.ipv4
        case None => None
        case Some(a) => Some(PublicIPv4(UnflattenPublicAddresses(a.addresses)));
      var v6 := match pub.ipv6
        case None => None
        case Some(b) => Some(PublicIPv6(UnflattenPublicRanges(b.ranges)));
      Some(PublicInterface(v4, v6))
  }

  /** The public mapper keeps every address (with its primary flag) and every
      range, in order. */
  lemma PublicInterfaceRoundTrip(p: Option<PublicInterface>)
    ensures UnflattenPublicInterface(FlattenPublicInterface(p)) == p
  {
    if p.Some? {
      var pub := p.value;
      if pub.ipv4.Some? {
        var xs := pub.ipv4.value.addresses;
        assert UnflattenPublicAddresses(FlattenPublicAddresses(xs)) == xs;
      }
      if pub.ipv6.Some? {
        var xs := pub.ipv6.value.ranges;
        assert UnflattenPublicRanges(FlattenPublicRanges(xs)) == xs;
      }
    }
  }

  // ---- VPC interfaces ----

  function FlattenVpcAddresses(xs: seq<VpcIPv4Address>): (r: seq<VpcAddressOptions>)
    ensures |r| == |xs|
    ensures forall k :: 0 <= k < |xs| ==> r[k].address == xs[k].address
  {
    if xs == [] then []
    else [VpcAddressOptions(xs[0].address)] + FlattenVpcAddresses(xs[1..])
  }

  function FlattenVpcRanges(xs: seq<VpcIPv4Range>): (r: seq<VpcRangeOptions>)
    ensures |r| == |xs|
    ensures forall k :: 0 <= k < |xs| ==> r[k].range == xs[k].range
  {
    if xs == [] then []
    else [VpcRangeOptions(xs[0].range)] + FlattenVpcRanges(xs[1..])
  }

  function FlattenVpcInterface(v: Option<VpcInterface>): (r: Option<VpcOptions>)
    ensures r.None? <==> v.None?
    ensures r.Some? ==> r.value.subnetId == v.value.subnetId
    ensures r.Some? ==> (r.value.ipv4.None? <==> v.value.ipv4.None?)
  {
    match v
    case None => None
    case Some(vpc) =>
      var v4 := match vpc.ipv4
        case None => None
        case Some(a) => Some(VpcIPv4Options(FlattenVpcAddresses(a.addresses), FlattenVpcRanges(a.ranges)));
      Some(VpcOptions(vpc.subnetId, v4))
  }

  function UnflattenVpcAddresses(xs: seq<VpcAddressOptions>): (r: seq<VpcIPv4Address>)
    ensures |r| == |xs|
    ensures forall k :: 0 <= k < |xs| ==> r[k] == VpcIPv4Address(xs[k].address, None, None)
  {
    if xs == [] then []
    else [VpcIPv4Address(xs[0].address, None, None)] + UnflattenVpcAddresses(xs[1..])
  }

  function UnflattenVpcRanges(xs: seq<VpcRangeOptions>): (r: seq<VpcIPv4Range>)
    ensures |r| == |xs|
    ensures forall k :: 0 <= k < |xs| ==> r[k] == VpcIPv4Range(xs[k].range)
  {
    if xs == [] then []
    else [VpcIPv4Range(xs[0].range)] + UnflattenVpcRanges(xs[1..])
  }

  function UnflattenVpcInterface(o: Option<VpcOptions>): Option<VpcInterface> {
    match o
    case None => None
    case Some(vpc) =>
      var v4 := match vpc.ipv4
        case None => None
        case Some(a) => Some(VpcIPv4(UnflattenVpcAddresses(a.addresses), UnflattenVpcRanges(a.ranges)));
      Some(VpcInterface(vpc.subnetId, v4))
  }

  /** The VPC interface with the fields the mapper does not send cleared:
      each address loses its primary flag and its 1:1 NAT address. */
  function StripVpcAddresses(xs: seq<VpcIPv4Address>): (r: seq<VpcIPv4Address>)
    ensures |r| == |xs|
    ensures forall k :: 0 <= k < |xs| ==>
      r[k].address == xs[k].address && r[k].primary.None? && r[k].nat1To1Address.None?
  {
    seq(|xs|, k requires 0 <= k < |xs| => xs[k].(primary := None, nat1To1Address := None))
  }

  function StripVpcInterface(v: Option<VpcInterface>): Option<VpcInterface> {
    match v
    case None => None
    case Some(vpc) =>
      var v4 := match vpc.ipv4
        case None => None
        case Some(a) => Some(VpcIPv4(StripVpcAddresses(a.addresses), a.ranges));
      Some(VpcInterface(vpc.subnetId, v4))
  }

  /** The VPC mapper keeps the subnet, every address and every range, in order,
      and drops exactly the per-address primary flag and 1:1 NAT address. */
  lemma VpcInterfaceRoundTrip(v: Option<VpcInterface>)
    ensures UnflattenVpcInterface(FlattenVpcInterface(v)) == StripVpcInterface(v)
    ensures FlattenVpcInterface(StripVpcInterface(v)) == FlattenVpcInterface(v)
  {
    if v.Some? && v.value.ipv4.Some? {
      var a := v.value.ipv4.value;
      assert UnflattenVpcAddresses(FlattenVpcAddresses(a.addresses)) == StripVpcAddresses(a.addresses);
      assert UnflattenVpcRanges(FlattenVpcRanges(a.ranges)) == a.ranges;
      assert FlattenVpcAddresses(StripVpcAddresses(a.addresses)) == FlattenVpcAddresses(a.addresses);
    }
  }

  // ---- VLAN interfaces ----

  function FlattenVlanInterface(v: Option<VlanInterface>): (r: Option<VlanOptions>)
    ensures r.None? <==> v.None?
    ensures r.Some? ==> r.value.vlanLabel == v.value.vlanLabel && r.value.ipamAddress == v.value.ipamAddress
  {
    match v
    case None => None
    case Some(vlan) =>
      Some(VlanOptions(vlan.vlanLabel, vlan.ipamAddress))
  }

  // ---- New-generation interfaces ----

  function FlattenLinodeInterface(li: LinodeInterface): (r: LinodeInterfaceOptions)
    ensures r.firewallId == Some(li.firewallId)
  {
    var route := match li.defaultRoute
      case None => None
      case Some(d) => Some(DefaultRouteOptions(d.ipv4, d.ipv6));
    LinodeInterfaceOptions(
      Some(li.firewallId), route,
      FlattenPublicInterface(li.public),
      FlattenVpcInterface(li.vpc),
      FlattenVlanInterface(li.vlan))
  }

  function UnflattenLinodeInterface(o: LinodeInterfaceOptions): LinodeInterface {
    var route := match o.defaultRoute
      case None => None
      case Some(d) => Some(DefaultRoute(d.ipv4, d.ipv6));
    var vlan := match o.vlan
      case None => None
      case Some(v) => Some(VlanInterface(v.vlanLabel, v.ipamAddress));
    LinodeInterface(
      o.firewallId.GetOr(None), route,
      UnflattenPublicInterface(o.public),
      UnflattenVpcInterface(o.vpc),
      vlan)
  }

  /** A new-generation interface survives the mapper except for the two VPC
      address fields it drops. */
  lemma LinodeInterfaceRoundTrip(li: LinodeInterface)
    ensures UnflattenLinodeInterface(FlattenLinodeInterface(li)) == li.(vpc := StripVpcInterface(li.vpc))
  {
    PublicInterfaceRoundTrip(li.public);
    VpcInterfaceRoundTrip(li.vpc);
  }

  function FlattenLinodeInterfaces(xs: seq<LinodeInterface>): (r: seq<LinodeInterfaceOptions>)
    ensures |r| == |xs|
    ensures forall k :: 0 <= k < |xs| ==> r[k] == FlattenLinodeInterface(xs[k])
    ensures forall k :: 0 <= k < |xs| ==>
      UnflattenLinodeInterface(r[k]) == xs[k].(vpc := StripVpcInterface(xs[k].vpc))
  {
    if xs == [] then []
    else
      LinodeInterfaceRoundTrip(xs[0]);
      [FlattenLinodeInterface(xs[0])] + FlattenLinodeInterfaces(xs[1..])
  }

  // ---- Metadata ----

  function FlattenMetadata(m: Metadata): (r: Option<MetadataOptions>)
    ensures r.None? <==> m.userData == ""
    ensures r.Some? ==> r.value.userData == m.userData
  {
    if m.userData == "" then None else Some(MetadataOptions(m.userData))
  }

  function UnflattenMetadata(o: Option<MetadataOptions>): Metadata {
    match o
    case None => Metadata("")
    case Some(v) => Metadata(v.userData)
  }

  /** Omitting the metadata block loses nothing: only empty user data is omitted. */
  lemma MetadataRoundTrip(m: Metadata)
    ensures UnflattenMetadata(FlattenMetadata(m)) == m
  {
  }
}
