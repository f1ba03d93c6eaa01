/**
 The request paths and JSON body templates of the Nexus API (the constants
 of nx/constrest.go and the login body of nx/nx.go). Each template is kept
 as the list of its literal pieces; the template text itself is the pieces
 joined by `%s`, exactly as Go spells it. Every function that fills a
 template is proved equal to `fmt.Sprintf` of that template text.
 */
module Templates {

  import opened Strings

  // ---------------------------------------------------------------------------
  // Filling templates of one, two and five verbs
  // ---------------------------------------------------------------------------

  lemma Fill1(p0: string, p1: string, a: string)
    requires NoVerb(p0) && NoVerb(p1)
    ensures Sprintf(Template([p0, p1]), [a]) == p0 + a + p1
  {
    SprintfTemplate([p0, p1], [a]);
    assert [p0, p1][1..] == [p1];
  }

  lemma Fill2(p0: string, p1: string, p2: string, a: string, b: string)
    requires NoVerb(p0) && NoVerb(p1) && NoVerb(p2)
    ensures Sprintf(Template([p0, p1, p2]), [a, b]) == p0 + a + p1 + b + p2
  {
    var ps, xs := [p0, p1, p2], [a, b];
    SprintfTemplate(ps, xs);
    assert ps[2..] == [p2] && xs[2..] == [];
    assert ps[1..] == [p1, p2] && xs[1..] == [b];
    assert Interleave(ps[1..], xs[1..]) == p1 + b + p2 by {
      assert ps[1..][1..] == ps[2..] && xs[1..][1..] == xs[2..];
    }
  }

  lemma Fill5(p0: string, p1: string, p2: string, p3: string, p4: string, p5: string,
              a: string, b: string, c: string, d: string, e: string)
    requires NoVerb(p0) && NoVerb(p1) && NoVerb(p2) && NoVerb(p3) && NoVerb(p4) && NoVerb(p5)
    ensures Sprintf(Template([p0, p1, p2, p3, p4, p5]), [a, b, c, d, e])
         == p0 + a + p1 + b + p2 + c + p3 + d + p4 + e + p5
  {
    var ps, xs := [p0, p1, p2, p3, p4, p5], [a, b, c, d, e];
    SprintfTemplate(ps, xs);
    assert ps[5..] == [p5] && xs[5..] == [];
    assert ps[4..] == [p4, p5] && xs[4..] == [e];
    assert Interleave(ps[4..], xs[4..]) == p4 + e + p5 by {
      assert ps[4..][1..] == ps[5..] && xs[4..][1..] == xs[5..];
    }
    assert Interleave(ps[3..], xs[3..]) == p3 + d + (p4 + e + p5) by {
      assert ps[3..][1..] == ps[4..] && xs[3..][1..] == xs[4..];
    }
    assert Interleave(ps[2..], xs[2..]) == p2 + c + (p3 + d + (p4 + e + p5)) by {
      assert ps[2..][1..] == ps[3..] && xs[2..][1..] == xs[3..];
    }
    assert Interleave(ps[1..], xs[1..]) == p1 + b + (p2 + c + (p3 + d + (p4 + e + p5))) by {
      assert ps[1..][1..] == ps[2..] && xs[1..][1..] == xs[2..];
    }
  }

  // ---------------------------------------------------------------------------
  // Paths (nx/constrest.go)
  // ---------------------------------------------------------------------------

  /** The single path for every configuration write. */
  const ConfigRootURI: string := "/api/mo.json"

  const InterfaceAll0: string := "/api/mo/sys/intf.json?query-target=subtree" + "&target-subtree-class="
  const InterfaceAll1: string := ""
  /** All interfaces of one class; the verb is the class key. */
  const InterfaceAll: string := Template([InterfaceAll0, InterfaceAll1])

  const InterfaceEnetURI0: string := "/api/mo/sys/intf/phys-[eth"
  const InterfaceEnetURI1: string := "].json"
  /** One ethernet interface; the verb is its id, such as 1/12. */
  const InterfaceEnetURI: string := Template([InterfaceEnetURI0, InterfaceEnetURI1])

  const InterfacePcURI0: string := "/api/mo/sys/intf/aggr-[po"
  const InterfacePcURI1: string := "].json"
  /** One port-channel; the verb is its id, such as 55. */
  const InterfacePcURI: string := Template([InterfacePcURI0, InterfacePcURI1])

  const VlanURI0: string := "/api/mo/sys/bd/bd-[vlan-"
  const VlanURI1: string := "].json"
  /** One VLAN's bridge domain, for get and delete; the verb is the VLAN id. */
  const VlanURI: string := Template([VlanURI0, VlanURI1])

  /** Every VLAN's bridge domain. */
  const AllVlanURI: string := "/api/mo/sys/bd/.json?query-target=subtree&target-subtree-class=l2BD"

  function InterfaceAllUri(classKey: string): (uri: string)
    ensures uri == Sprintf(InterfaceAll, [classKey])
  {
    Fill1(InterfaceAll0, InterfaceAll1, classKey);
    InterfaceAll0 + classKey + InterfaceAll1
  }

  function InterfaceEnetUri(id: string): (uri: string)
    ensures uri == Sprintf(InterfaceEnetURI, [id])
  {
    Fill1(InterfaceEnetURI0, InterfaceEnetURI1, id);
    InterfaceEnetURI0 + id + InterfaceEnetURI1
  }

  function InterfacePcUri(id: string): (uri: string)
    ensures uri == Sprintf(InterfacePcURI, [id])
  {
    Fill1(InterfacePcURI0, InterfacePcURI1, id);
    InterfacePcURI0 + id + InterfacePcURI1
  }

  function VlanUri(id: string): (uri: string)
    ensures uri == Sprintf(VlanURI, [id])
  {
    Fill1(VlanURI0, VlanURI1, id);
    VlanURI0 + id + VlanURI1
  }

  // ---------------------------------------------------------------------------
  // Configuration bodies (nx/constrest.go)
  // ---------------------------------------------------------------------------

  /** Every configuration body is one topSystem object around its children. */
  const TopBegin: string := "{\"topSystem\": { \"children\": [ "
  const TopEnd: string := "]}}"

  const IfEntity0: string := "{ \"interfaceEntity\": { \"children\": [ { \""
  const IfEntity1: string := "\": { \"attributes\": { \"id\": \""
  const IfEntity2: string := ""  // the id is the prefix and the number, two adjacent verbs
  const IfEntity3: string := "\", \"mode\": \""
  const IfEntity4: string := "\", "
  const IfEntity5: string := " } } } ] } }"
  /** One interface child: verbs are the class tag, the id prefix, the id,
      the switchport mode and the VLAN fields. */
  const IfEntity: string := Template([IfEntity0, IfEntity1, IfEntity2, IfEntity3, IfEntity4, IfEntity5])

  const PcTag: string := "pcAggrIf"
  const EnetTag: string := "l1PhysIf"
  const PcPfx: string := "po"
  const EnetPfx: string := "eth"
  const TrunkMode: string := "trunk"

  const NativeVlan0: string := "\"nativeVlan\": \"vlan-"
  const NativeVlan1: string := "\""
  const NativeVlan: string := Template([NativeVlan0, NativeVlan1])

  const TrunkVlans0: string := "\"trunkVlans\": \""
  const TrunkVlans1: string := "\""
  const TrunkVlans: string := Template([TrunkVlans0, TrunkVlans1])

  const VlanEntity0: string := "{ \"bdEntity\": { \"children\": [ " + "{\"l2BD\": {\"attributes\": " + "{\"fabEncap\": \"vlan-"
  const VlanEntity1: string := "\", \"pcTag\": \"1\", \"adminSt\": \"active\""
  const VlanEntity2: string := " } } } ] } }"
  /** One bridge domain child: verbs are the VLAN id and the optional segment. */
  const VlanEntity: string := Template([VlanEntity0, VlanEntity1, VlanEntity2])

  const VxlanSegment0: string := ", \"accEncap\": \"vxlan-"
  const VxlanSegment1: string := "\""
  const VxlanSegment: string := Template([VxlanSegment0, VxlanSegment1])

  function IfEntityBody(tag: string, pfx: string, id: string, mode: string, vlancfg: string): (body: string)
    ensures body == Sprintf(IfEntity, [tag, pfx, id, mode, vlancfg])
  {
    Fill5(IfEntity0, IfEntity1, IfEntity2, IfEntity3, IfEntity4, IfEntity5, tag, pfx, id, mode, vlancfg);
    IfEntity0 + tag + IfEntity1 + pfx + IfEntity2 + id + IfEntity3 + mode + IfEntity4 + vlancfg + IfEntity5
  }

  function NativeVlanField(native: string): (field: string)
    ensures field == Sprintf(NativeVlan, [native])
  {
    Fill1(NativeVlan0, NativeVlan1, native);
    NativeVlan0 + native + NativeVlan1
  }

  function TrunkVlansField(allowed: string): (field: string)
    ensures field == Sprintf(TrunkVlans, [allowed])
  {
    Fill1(TrunkVlans0, TrunkVlans1, allowed);
    TrunkVlans0 + allowed + TrunkVlans1
  }

  function VlanEntityBody(vlanId: string, segment: string): (body: string)
    ensures body == Sprintf(VlanEntity, [vlanId, segment])
  {
    Fill2(VlanEntity0, VlanEntity1, VlanEntity2, vlanId, segment);
    VlanEntity0 + vlanId + VlanEntity1 + segment + VlanEntity2
  }

  function VxlanSegmentField(vni: string): (field: string)
    ensures field == Sprintf(VxlanSegment, [vni])
  {
    Fill1(VxlanSegment0, VxlanSegment1, vni);
    VxlanSegment0 + vni + VxlanSegment1
  }

  // ---------------------------------------------------------------------------
  // Login body (nx/nx.go)
  // ---------------------------------------------------------------------------

  const AaaUser0: string := "{\"aaaUser\": {\"attributes\": {\"name\": \""
  const AaaUser1: string := "\", \"pwd\": \""
  const AaaUser2: string := "\"}}}"
  /** The credentials body of login and logout: verbs are user and password. */
  const AaaUser: string := Template([AaaUser0, AaaUser1, AaaUser2])

  function AaaUserBody(user: string, pass: string): (body: string)
    ensures body == Sprintf(AaaUser, [user, pass])
  {
    Fill2(AaaUser0, AaaUser1, AaaUser2, user, pass);
    AaaUser0 + user + AaaUser1 + pass + AaaUser2
  }
}
