/**
 VLAN helpers of the client (nx/vlan.go): the body that creates a VLAN's
 bridge domain, optionally mapped to a VXLAN segment, and the paths used to
 read and delete bridge domains.
 */
module Vlan {

  import opened Errors
  import opened Strings
  import opened Json
  import opened Templates
  import opened Session

  /** The optional segment attribute: nothing without a VNI. */
  function SegmentField(vni: string): (field: string)
    ensures vni == "" ==> field == ""
    ensures vni != "" ==> field == ", \"accEncap\": \"vxlan-" + vni + "\""
  {
    if vni != "" then VxlanSegmentField(vni) else ""
  }

  /** The body `AddVlan` posts: one bridge domain child inside the
      topSystem object. */
  function VlanBody(vlanId: string, vni: string): (body: string)
    ensures body == TopBegin + Sprintf(VlanEntity, [vlanId, SegmentField(vni)]) + TopEnd
  {
    TopBegin + VlanEntityBody(vlanId, SegmentField(vni)) + TopEnd
  }

  /** A VNI adds exactly the segment attribute after `adminSt`; the VLAN
      id stays right after `"fabEncap": "vlan-`. */
  lemma VlanBodySegment(vlanId: string, vni: string)
    ensures VlanBody(vlanId, vni)
         == (TopBegin + VlanEntity0 + vlanId + VlanEntity1) + SegmentField(vni) + (VlanEntity2 + TopEnd)
  {
    var seg := SegmentField(vni);
    var entity := VlanEntityBody(vlanId, seg);
    assert entity == (VlanEntity0 + vlanId + VlanEntity1) + seg + VlanEntity2;
  }

  /** Without a VNI the body has no segment attribute at all. */
  lemma VlanBodyWithoutSegment(vlanId: string)
    ensures VlanBody(vlanId, "") == (TopBegin + VlanEntity0 + vlanId + VlanEntity1) + (VlanEntity2 + TopEnd)
  {
    VlanBodySegment(vlanId, "");
    var head := TopBegin + VlanEntity0 + vlanId + VlanEntity1;
    assert head + "" == head;
  }

  /** The path `GetVlan` reads: every bridge domain for an empty id, the
      VLAN's own otherwise; records are listed under `l2BD`. */
  function VlanQuery(id: string): (q: Query)
    ensures q.classKey == "l2BD"
    ensures id == "" ==> q.uri == AllVlanURI
    ensures id != "" ==> q.uri == Sprintf(VlanURI, [id])
  {
    Query(if id == "" then AllVlanURI else VlanUri(id), "l2BD")
  }

  /** The path `DeleteVlan` deletes: always the VLAN's own. */
  function DeleteVlanUri(id: string): (uri: string)
    ensures uri == Sprintf(VlanURI, [id])
  {
    VlanUri(id)
  }

  /** For an empty id, delete does not fall back to every bridge domain as
      a read does: it addresses `bd-[vlan-]`. */
  lemma EmptyIdDeleteIsNotAll()
    ensures DeleteVlanUri("") == "/api/mo/sys/bd/bd-[vlan-].json"
    ensures DeleteVlanUri("") != VlanQuery("").uri
  {
    assert VlanURI0 + "" + VlanURI1 == "/api/mo/sys/bd/bd-[vlan-].json";
  }

  /** `AddVlan`: POST the body to the configuration root on the current host. */
  method AddVlan(c: Client, vlanId: string, vni: string, net: Network) returns (r: Outcome)
    modifies c`jar
    ensures r == CallOutcome(ExchangeOutcome(c.opt.hosts, c.host, Post, ConfigRootURI, VlanBody(vlanId, vni), net))
    ensures c.jar == ExchangeJar(old(c.jar), c.opt.hosts, c.host, Post, ConfigRootURI, VlanBody(vlanId, vni), net)
  {
    var segment := "";
    if vni != "" {
      segment := VxlanSegmentField(vni);
    }
    var body := TopBegin + VlanEntityBody(vlanId, segment) + TopEnd;
    var sent := c.Exchange(Post, ConfigRootURI, body, net);
    r := CallOutcome(sent);
  }

  /** `GetVlan`: GET the chosen path on the current host. */
  method GetVlan(c: Client, id: string, net: Network) returns (r: Result<Listing>)
    modifies c`jar
    ensures var sent := ExchangeOutcome(c.opt.hosts, c.host, Get, VlanQuery(id).uri, "", net);
            (r.Ok? <==> sent.Ok?)
            && (r.Ok? ==> r.value == Listing(sent.value, "l2BD"))
            && (r.Err? ==> r.error == sent.error)
    ensures c.jar == ExchangeJar(old(c.jar), c.opt.hosts, c.host, Get, VlanQuery(id).uri, "", net)
  {
    var query := VlanQuery(id);
    var sent := c.Exchange(Get, query.uri, "", net);
    if sent.Err? {
      return Err(sent.error);
    }
    r := Ok(Listing(sent.value, query.classKey));
  }

  /** `DeleteVlan`: DELETE the VLAN's bridge domain on the current host. */
  method DeleteVlan(c: Client, id: string, net: Network) returns (r: Outcome)
    modifies c`jar
    ensures r == CallOutcome(ExchangeOutcome(c.opt.hosts, c.host, Delete, DeleteVlanUri(id), "", net))
    ensures c.jar == ExchangeJar(old(c.jar), c.opt.hosts, c.host, Delete, DeleteVlanUri(id), "", net)
  {
    var sent := c.Exchange(Delete, DeleteVlanUri(id), "", net);
    r := CallOutcome(sent);
  }
}
