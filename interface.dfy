/**
 Interface helpers of the client (nx/interface.go): splitting an interface
 name such as `ethernet:1/12` into its type and id, rendering the body that
 sets an interface's trunk and native VLANs, and choosing the path and class
 key for reading interfaces back.
 */
module Interface {

  import opened Errors
  import opened Strings
  import opened Json
  import opened Templates
  import opened Session

  /** An interface name taken apart: `ethernet` and `1/12`, or a type alone. */
  datatype IfName = IfName(ifType: string, id: string)

  /** `SplitInterfaceName`: the text before and after the one colon, or the
      whole name and an empty id when there is no colon; a name with two or
      more colons is refused. */
  function SplitInterfaceName(ifName: string): (r: Result<IfName>)
    ensures r.Ok? <==> Count(ifName, ':') <= 1
    ensures r.Err? ==> r.error == BadInterfaceValue(ifName)
    ensures r.Ok? ==> ':' !in r.value.ifType && ':' !in r.value.id
    ensures Count(ifName, ':') == 0 ==> r == Ok(IfName(ifName, ""))
    ensures Count(ifName, ':') == 1 ==> r.Ok? && r.value.ifType + ":" + r.value.id == ifName
  {
    var parts := Split(ifName, ':');
    if |parts| != 2 && |parts| != 1 then Err(BadInterfaceValue(ifName))
    else if |parts| == 1 then Ok(IfName(parts[0], ""))
    else
      assert Join(parts, [':']) == parts[0] + ":" + Join(parts[1..], [':']);
      Ok(IfName(parts[0], parts[1]))
  }

  /** Joining a colon-free type and id with a colon, or a type alone, reads
      back as that type and id. */
  lemma SplitInterfaceNameRoundTrip(ifType: string, id: string)
    requires ':' !in ifType && ':' !in id
    ensures SplitInterfaceName(ifType + ":" + id) == Ok(IfName(ifType, id))
    ensures SplitInterfaceName(ifType) == Ok(IfName(ifType, ""))
  {
    SplitJoin([ifType, id], ':');
    assert Join([ifType, id], [':']) == ifType + ":" + id by {
      assert [ifType, id][1..] == [id];
    }
    CountNotIn(ifType, ':');
  }

  /** The VLAN fields of a trunk body: `"None"` allows no VLAN and makes the
      native VLAN 1; without a native VLAN only the allowed list is set. */
  function VlanConfig(allowed: string, native: string): (cfg: string)
    ensures native == "" ==>
              cfg == "\"trunkVlans\": \"" + (if allowed == "None" then "" else allowed) + "\""
    ensures native != "" ==>
              cfg == ("\"nativeVlan\": \"vlan-" + (if native == "None" then "1" else native) + "\"")
                     + ", " + ("\"trunkVlans\": \"" + (if allowed == "None" then "" else allowed) + "\"")
  {
    var allowed' := if allowed == "None" then "" else allowed;
    if native == "" then TrunkVlansField(allowed')
    else
      var native' := if native == "None" then "1" else native;
      var fields := [NativeVlanField(native'), TrunkVlansField(allowed')];
      assert fields[1..] == [TrunkVlansField(allowed')];
      assert Join(fields, ", ") == NativeVlanField(native') + ", " + TrunkVlansField(allowed');
      Join(fields, ", ")
  }

  /** The object class and id prefix of an interface type. */
  datatype IfClass = IfClass(tag: string, pfx: string)

  /** The `switch iftype` of `formatTrunkBody`. */
  function InterfaceClass(ifType: string): (r: Result<IfClass>)
    ensures r.Ok? <==> ifType in {"ethernet", "enet", "port-channel", "po"}
    ensures ifType == "ethernet" || ifType == "enet" ==> r == Ok(IfClass("l1PhysIf", "eth"))
    ensures ifType == "port-channel" || ifType == "po" ==> r == Ok(IfClass("pcAggrIf", "po"))
    ensures r.Err? ==> r.error == UnexpectedInterfaceType(ifType)
  {
    if ifType == "ethernet" || ifType == "enet" then Ok(IfClass(EnetTag, EnetPfx))
    else if ifType == "port-channel" || ifType == "po" then Ok(IfClass(PcTag, PcPfx))
    else Err(UnexpectedInterfaceType(ifType))
  }

  /** `formatTrunkBody`: one interface child, in trunk mode with the VLAN
      fields, inside the topSystem object. */
  function FormatTrunkBody(ifType: string, id: string, allowed: string, native: string): (r: Result<string>)
    ensures r.Err? <==> InterfaceClass(ifType).Err?
    ensures r.Err? ==> r.error == UnexpectedInterfaceType(ifType)
    ensures r.Ok? ==>
              var c := InterfaceClass(ifType).value;
              r.value == TopBegin + Sprintf(IfEntity, [c.tag, c.pfx, id, TrunkMode, VlanConfig(allowed, native)]) + TopEnd
  {
    match InterfaceClass(ifType)
    case Err(e) => Err(e)
    case Ok(c) => Ok(TopBegin + IfEntityBody(c.tag, c.pfx, id, TrunkMode, VlanConfig(allowed, native)) + TopEnd)
  }

  /** What `AddTrunkVlan` would POST, or the error it returns before any
      request: a bad name first, then an unknown type. */
  function TrunkRequest(ifName: string, allowed: string, native: string): (r: Result<string>)
    ensures SplitInterfaceName(ifName).Err? ==> r == Err(BadInterfaceValue(ifName))
    ensures SplitInterfaceName(ifName).Ok? ==>
              r == FormatTrunkBody(SplitInterfaceName(ifName).value.ifType, SplitInterfaceName(ifName).value.id, allowed, native)
  {
    match SplitInterfaceName(ifName)
    case Err(e) => Err(e)
    case Ok(n) => FormatTrunkBody(n.ifType, n.id, allowed, native)
  }

  /** A name with two colons is refused as a bad value even when its type
      is also unknown. */
  lemma BadNameBeforeBadType(t: string, a: string, b: string, allowed: string, native: string)
    requires ':' !in t && ':' !in a && ':' !in b
    ensures TrunkRequest(t + ":" + a + ":" + b, allowed, native) == Err(BadInterfaceValue(t + ":" + a + ":" + b))
  {
    var name := t + ":" + a + ":" + b;
    var parts := [t, a, b];
    assert Join(parts, [':']) == name by {
      assert parts[1..] == [a, b] && parts[1..][1..] == [b];
      assert Join(parts[1..], [':']) == a + ":" + b;
      assert Join(parts, [':']) == t + ":" + (a + ":" + b);
    }
    SplitJoin(parts, ':');
  }

  /** `AddTrunkVlan`: render the body and POST it to the configuration
      root on the current host. */
  method AddTrunkVlan(c: Client, ifName: string, allowed: string, native: string, net: Network) returns (r: Outcome)
    modifies c`jar
    ensures TrunkRequest(ifName, allowed, native).Err? ==>
              r == Fail(TrunkRequest(ifName, allowed, native).error) && c.jar == old(c.jar)
    ensures TrunkRequest(ifName, allowed, native).Ok? ==>
              var body := TrunkRequest(ifName, allowed, native).value;
              r == CallOutcome(ExchangeOutcome(c.opt.hosts, c.host, Post, ConfigRootURI, body, net))
              && c.jar == ExchangeJar(old(c.jar), c.opt.hosts, c.host, Post, ConfigRootURI, body, net)
  {
    var name := SplitInterfaceName(ifName);
    if name.Err? {
      return Fail(name.error);
    }
    var body := FormatTrunkBody(name.value.ifType, name.value.id, allowed, native);
    if body.Err? {
      return Fail(body.error);
    }
    var sent := c.Exchange(Post, ConfigRootURI, body.value, net);
    r := CallOutcome(sent);
  }

  /** The path and key `GetInterface` uses: only the long type names are
      accepted; no id selects every interface of the class. */
  function InterfaceQuery(ifName: string): (r: Result<Query>)
    ensures SplitInterfaceName(ifName).Err? ==> r == Err(BadInterfaceValue(ifName))
    ensures SplitInterfaceName(ifName).Ok? ==>
              var n := SplitInterfaceName(ifName).value;
              (r.Ok? <==> n.ifType in {"ethernet", "port-channel"})
              && (r.Err? ==> r.error == UnexpectedInterfaceForGet(ifName))
              && (n.ifType == "ethernet" ==>
                    r.Ok? && r.value.classKey == "l1PhysIf"
                    && r.value.uri == (if n.id == "" then Sprintf(InterfaceAll, ["l1PhysIf"]) else Sprintf(InterfaceEnetURI, [n.id])))
              && (n.ifType == "port-channel" ==>
                    r.Ok? && r.value.classKey == "pcAggrIf"
                    && r.value.uri == (if n.id == "" then Sprintf(InterfaceAll, ["pcAggrIf"]) else Sprintf(InterfacePcURI, [n.id])))
  {
    match SplitInterfaceName(ifName)
    case Err(e) => Err(e)
    case Ok(n) =>
      if n.ifType == "ethernet" then
        Ok(Query(if n.id == "" then InterfaceAllUri("l1PhysIf") else InterfaceEnetUri(n.id), "l1PhysIf"))
      else if n.ifType == "port-channel" then
        Ok(Query(if n.id == "" then InterfaceAllUri("pcAggrIf") else InterfacePcUri(n.id), "pcAggrIf"))
      else Err(UnexpectedInterfaceForGet(ifName))
  }

  /** The short type names a trunk body accepts are refused for reading. */
  lemma ShortTypesNotQueried(ifType: string, id: string, allowed: string, native: string)
    requires ifType == "enet" || ifType == "po"
    requires ':' !in id
    ensures InterfaceQuery(ifType + ":" + id) == Err(UnexpectedInterfaceForGet(ifType + ":" + id))
    ensures TrunkRequest(ifType + ":" + id, allowed, native).Ok?
  {
    SplitInterfaceNameRoundTrip(ifType, id);
  }

  /** `GetInterface`: GET the chosen path on the current host. */
  method GetInterface(c: Client, ifName: string, net: Network) returns (r: Result<Listing>)
    modifies c`jar
    ensures InterfaceQuery(ifName).Err? ==> r == Err(InterfaceQuery(ifName).error) && c.jar == old(c.jar)
    ensures InterfaceQuery(ifName).Ok? ==>
              var q := InterfaceQuery(ifName).value;
              var sent := ExchangeOutcome(c.opt.hosts, c.host, Get, q.uri, "", net);
              (r.Ok? <==> sent.Ok?)
              && (r.Ok? ==> r.value == Listing(sent.value, q.classKey))
              && (r.Err? ==> r.error == sent.error)
              && c.jar == ExchangeJar(old(c.jar), c.opt.hosts, c.host, Get, q.uri, "", net)
  {
    var query := InterfaceQuery(ifName);
    if query.Err? {
      return Err(query.error);
    }
    var sent := c.Exchange(Get, query.value.uri, "", net);
    if sent.Err? {
      return Err(sent.error);
    }
    r := Ok(Listing(sent.value, query.value.classKey));
  }
}
