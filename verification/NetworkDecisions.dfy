/** What the shipped network rules decide for IPv4 addresses and host names. */
module NetworkDecisions {
  import opened Wrappers
  import opened Records
  import opened Address
  import opened Rego
  import opened BasePolicy
  import opened RuleMeanings
  import opened Decisions

  // ----- The blocks as address ranges -----

  /** Section 3 of RFC 1918. */
  predicate Private(ip: IPv4) {
    || IPv4(10, 0, 0, 0).Number() <= ip.Number() <= IPv4(10, 255, 255, 255).Number()
    || IPv4(172, 16, 0, 0).Number() <= ip.Number() <= IPv4(172, 31, 255, 255).Number()
    || IPv4(192, 168, 0, 0).Number() <= ip.Number() <= IPv4(192, 168, 255, 255).Number()
  }

  predicate Loopback(ip: IPv4) {
    ip.a == 127
  }

  const CLOUD_METADATA := IPv4(169, 254, 169, 254)
  const ECS_METADATA := IPv4(169, 254, 170, 2)

  /** A block that starts at its network address, given by the numbers of its first and last address. */
  lemma BlockIsInterval(net: Cidr, ip: IPv4, first: nat, last: nat)
    requires net.bits <= 32 && Mask(net.network, net.bits) == net.network
    requires net.network.Number() == first && first + Pow2(32 - net.bits) == last + 1
    ensures InPrefix(net, ip) <==> first <= ip.Number() <= last
  {
    PrefixIsInterval(net, ip);
  }

  lemma Pow2Sizes()
    ensures Pow2(0) == 1 && Pow2(16) == 0x1_0000 && Pow2(20) == 0x10_0000 && Pow2(24) == 0x100_0000
  {
    Pow2Values();
    assert Pow2(20) == 0x10_0000;
  }

  lemma TopOctetBlock(o: Octet, ip: IPv4)
    ensures InPrefix(Cidr(IPv4(o, 0, 0, 0), 8), ip) <==> ip.a == o
    ensures ip.a == o <==> IPv4(o, 0, 0, 0).Number() <= ip.Number() <= IPv4(o, 255, 255, 255).Number()
  {
    MaskShape(IPv4(o, 0, 0, 0), 8);
    MaskShape(ip, 8);
    WholeOctets(0);
    WholeOctets(ip.b);
  }

  lemma Private172Block(ip: IPv4)
    ensures InPrefix(PRIVATE_172.net, ip)
      <==> IPv4(172, 16, 0, 0).Number() <= ip.Number() <= IPv4(172, 31, 255, 255).Number()
  {
    var net := PRIVATE_172.net;
    Pow2Sizes();
    MaskShape(net.network, 12);
    assert MaskOctet(16, 4) == 16;
    BlockIsInterval(net, ip, IPv4(172, 16, 0, 0).Number(), IPv4(172, 31, 255, 255).Number());
  }

  lemma Private192Block(ip: IPv4)
    ensures InPrefix(PRIVATE_192.net, ip)
      <==> IPv4(192, 168, 0, 0).Number() <= ip.Number() <= IPv4(192, 168, 255, 255).Number()
  {
    var net := PRIVATE_192.net;
    Pow2Sizes();
    MaskShape(net.network, 16);
    WholeOctets(0);
    BlockIsInterval(net, ip, IPv4(192, 168, 0, 0).Number(), IPv4(192, 168, 255, 255).Number());
  }

  /** is_private_network is exactly the three private blocks. */
  lemma PrivateBlocks(ip: IPv4)
    ensures InPrefix(PRIVATE_10.net, ip) || InPrefix(PRIVATE_172.net, ip) || InPrefix(PRIVATE_192.net, ip)
      <==> Private(ip)
  {
    TopOctetBlock(10, ip);
    Private172Block(ip);
    Private192Block(ip);
  }

  lemma LoopbackBlock(ip: IPv4)
    ensures InPrefix(LOOPBACK.net, ip) <==> Loopback(ip)
  {
    TopOctetBlock(127, ip);
  }

  lemma MetadataBlock(ip: IPv4)
    ensures InPrefix(METADATA.net, ip) <==> ip == CLOUD_METADATA
  {
    MaskShape(CLOUD_METADATA, 32);
    MaskShape(ip, 32);
    WholeOctets(254);
    WholeOctets(ip.d);
  }

  lemma CloudMetadataText()
    ensures PrintIPv4(CLOUD_METADATA) == "169.254.169.254"
  {
    assert PrintOctet(169) == "169" && PrintOctet(254) == "254";
  }

  lemma EcsMetadataText()
    ensures PrintIPv4(ECS_METADATA) == "169.254.170.2"
  {
    assert PrintOctet(169) == "169" && PrintOctet(254) == "254" && PrintOctet(170) == "170" && PrintOctet(2) == "2";
  }

  lemma AddressStartsWithDigit(s: string)
    ensures ParseIPv4(s).Some? ==> s != "" && IsDigit(s[0])
  {
    if ParseIPv4(s).Some? {
      PrintOfParse(s);
      var octets := PrintOctet(ParseIPv4(s).value.a);
      assert IsDigit(octets[0]);
      assert octets[0] == s[0];
    }
  }

  lemma TextOfAddress(s: string, ip: IPv4)
    ensures s == PrintIPv4(ip) <==> ParseIPv4(s) == Some(ip)
  {
    ParseOfPrint(ip);
    if ParseIPv4(s) == Some(ip) {
      PrintOfParse(s);
    }
  }

  lemma CloudText(s: string)
    ensures s == "169.254.169.254" <==> ParseIPv4(s) == Some(CLOUD_METADATA)
  {
    CloudMetadataText();
    TextOfAddress(s, CLOUD_METADATA);
  }

  lemma EcsText(s: string)
    ensures s == "169.254.170.2" <==> ParseIPv4(s) == Some(ECS_METADATA)
  {
    EcsMetadataText();
    TextOfAddress(s, ECS_METADATA);
  }

  /** The textual blocklist: the two IPv4 metadata addresses, an IPv6 one and a host name. */
  lemma BlockedTexts(s: string)
    ensures s in BLOCKED_ENDPOINTS <==>
      || ParseIPv4(s) == Some(CLOUD_METADATA) || ParseIPv4(s) == Some(ECS_METADATA)
      || s == "metadata.google.internal" || s == "fd00:ec2::254"
    ensures s == "metadata.google.internal" ==> ParseIPv4(s) == None
  {
    CloudText(s);
    EcsText(s);
    AddressStartsWithDigit(s);
  }

  // ----- The decision -----

  /** What every profile can reach: 127.0.0.0/8, and ::1/128 as far as the library finds the text in one of them. */
  predicate LoopbackEndpoint(lib: NetLibrary, s: string) {
    if Endpoint(s) then
      match ParseIPv4(s)
      case Some(ip) => Loopback(ip)
      case None => false
    else lib(V4(Cidr(IPv4(127, 0, 0, 0), 8)), s) == Some(true) || lib(LoopbackV6, s) == Some(true)
  }

  /** What `developer` and `infrastructure` can reach besides: all but the private ranges and the metadata endpoints. */
  predicate PublicEndpoint(lib: NetLibrary, s: string) {
    if Endpoint(s) then
      match ParseIPv4(s)
      case Some(ip) => !Private(ip) && ip != IPv4(169, 254, 169, 254) && ip != IPv4(169, 254, 170, 2)
      case None => s != "metadata.google.internal"
    else
      && s != "fd00:ec2::254"
      && lib(V4(Cidr(IPv4(169, 254, 169, 254), 32)), s) != Some(true)
      && lib(V4(Cidr(IPv4(10, 0, 0, 0), 8)), s) != Some(true)
      && lib(V4(Cidr(IPv4(172, 16, 0, 0), 12)), s) != Some(true)
      && lib(V4(Cidr(IPv4(192, 168, 0, 0), 16)), s) != Some(true)
  }

  predicate HasNetwork(profile: string) {
    profile == DEVELOPER || profile == INFRASTRUCTURE
  }

  /** The address tests of the rules on an endpoint: on an address, and on any other text. */
  lemma AddressInBlocks(lib: NetLibrary, s: string)
    requires Endpoint(s)
    ensures InCidr(lib, LOOPBACK, s) <==> LoopbackEndpoint(lib, s)
    ensures !InCidr(lib, LoopbackV6, s)
    ensures InCidr(lib, METADATA, s) <==> ParseIPv4(s) == Some(CLOUD_METADATA)
    ensures InCidr(lib, PRIVATE_10, s) || InCidr(lib, PRIVATE_172, s) || InCidr(lib, PRIVATE_192, s)
       <==> ParseIPv4(s).Some? && Private(ParseIPv4(s).value)
  {
    if ParseIPv4(s).Some? {
      var ip := ParseIPv4(s).value;
      LoopbackBlock(ip);
      MetadataBlock(ip);
      PrivateBlocks(ip);
    }
  }

  /** Addresses and host names have no colon, so no text that is not an endpoint is blocked but the IPv6 one. */
  lemma OtherBlockedTexts(s: string)
    requires !Endpoint(s)
    ensures s in BLOCKED_ENDPOINTS <==> s == "fd00:ec2::254"
  {
    assert Endpoint("169.254.169.254") && Endpoint("169.254.170.2") && Endpoint("metadata.google.internal");
  }

  lemma IPv6MetadataIsNoEndpoint(s: string)
    requires Endpoint(s)
    ensures s != "fd00:ec2::254"
  {
    assert "fd00:ec2::254"[4] == ':';
  }

  lemma LoopbackExactly(input: Input)
    ensures InCidr(input.lib, LOOPBACK, input.action.resource) || InCidr(input.lib, LoopbackV6, input.action.resource)
       <==> LoopbackEndpoint(input.lib, input.action.resource)
  {
    if Endpoint(input.action.resource) {
      AddressInBlocks(input.lib, input.action.resource);
    }
  }

  lemma PublicExactly(input: Input)
    ensures !Base(IsBlockedEndpoint, input) && !Base(IsPrivateNetwork, input)
       <==> PublicEndpoint(input.lib, input.action.resource)
  {
    var s := input.action.resource;
    BlockedMeaning(input);
    PrivateMeaning(input);
    if Endpoint(s) {
      AddressInBlocks(input.lib, s);
      BlockedTexts(s);
      IPv6MetadataIsNoEndpoint(s);
    } else {
      OtherBlockedTexts(s);
    }
  }

  /**
   * Connections, exactly: the loopback prefixes for everyone; for developer and infrastructure also everything but the
   * private ranges and the metadata endpoints; nothing else for any other profile. On IPv4 addresses and host names no
   * library is involved; on other texts it holds whatever the library makes of them.
   */
  lemma NetworkExactly(lib: NetLibrary, agent: AgentRecord, action: AgentAction)
    requires action.actionType == NETWORK
    ensures Allowed(lib, agent, action) <==>
      LoopbackEndpoint(lib, action.resource) || (HasNetwork(agent.profile) && PublicEndpoint(lib, action.resource))
  {
    var input := Input(action, agent, lib);
    DecisionByType(lib, agent, action);
    AllowNetworkMeaning(input);
    LoopbackExactly(input);
    PublicExactly(input);
  }

  // ----- Profiles -----

  /** The record of the same agent under another profile. */
  function WithProfile(agent: AgentRecord, profile: string): AgentRecord {
    agent.(profile := profile)
  }

  /** Profiles only add: whatever minimal may do developer may, and developer and infrastructure may do the same. */
  lemma ProfilesAreAdditive(lib: NetLibrary, agent: AgentRecord, action: AgentAction)
    ensures Allowed(lib, WithProfile(agent, MINIMAL), action) ==> Allowed(lib, WithProfile(agent, DEVELOPER), action)
    ensures Allowed(lib, WithProfile(agent, DEVELOPER), action)
      <==> Allowed(lib, WithProfile(agent, INFRASTRUCTURE), action)
  {
    DecisionByType(lib, WithProfile(agent, MINIMAL), action);
    DecisionByType(lib, WithProfile(agent, DEVELOPER), action);
    DecisionByType(lib, WithProfile(agent, INFRASTRUCTURE), action);
    if action.actionType == NETWORK {
      NetworkExactly(lib, WithProfile(agent, MINIMAL), action);
      NetworkExactly(lib, WithProfile(agent, DEVELOPER), action);
      NetworkExactly(lib, WithProfile(agent, INFRASTRUCTURE), action);
    }
  }
}
