/**
 * The DevTest virtual network resource: its name validator, the expansion of the `subnet` blocks
 * into the API's subnet overrides and their flattening back, and the Read and Delete lifecycle.
 */
module DevTestVirtualNetwork {
  import opened Common
  import opened Arm
  import opened Pattern
  import Ascii

  // ---------------------------------------------------------------------------------------------
  // Name validation

  /** `[A-Za-z0-9_-]` */
  const NAME_CLASS: CharClass := CharClass([('A', 'Z'), ('a', 'z'), ('0', '9'), ('_', '_'), ('-', '-')])
  /** `^[A-Za-z0-9_-]+$` */
  const NAME_PATTERN: Pattern := [Repeat(NAME_CLASS, 1, None)]

  predicate IsNameChar(c: char) {
    Ascii.IsAlnum(c) || c == '_' || c == '-'
  }

  lemma NameClass(c: char)
    ensures InClass(c, NAME_CLASS) <==> IsNameChar(c)
  {
    if IsNameChar(c) {
      if 'A' <= c <= 'Z' { assert NAME_CLASS.ranges[0] in NAME_CLASS.ranges; }
      else if 'a' <= c <= 'z' { assert NAME_CLASS.ranges[1] in NAME_CLASS.ranges; }
      else if '0' <= c <= '9' { assert NAME_CLASS.ranges[2] in NAME_CLASS.ranges; }
      else if c == '_' { assert NAME_CLASS.ranges[3] in NAME_CLASS.ranges; }
      else { assert NAME_CLASS.ranges[4] in NAME_CLASS.ranges; }
    }
  }

  /** The virtual network name pattern accepts exactly the non-empty strings of letters, digits, underscores and hyphens. */
  lemma NamePatternMeaning(s: string)
    ensures FullMatch(NAME_PATTERN, s) <==> |s| >= 1 && forall i :: 0 <= i < |s| ==> IsNameChar(s[i])
  {
    FullMatchSingle(Repeat(NAME_CLASS, 1, None), s);
    forall i | 0 <= i < |s| ensures InClass(s[i], NAME_CLASS) <==> IsNameChar(s[i]) {
      NameClass(s[i]);
    }
  }

  /** `validateDevTestVirtualNetworkName`: whether the name is accepted. */
  function ValidateName(s: string): (accepted: bool)
    ensures accepted <==> |s| >= 1 && forall i :: 0 <= i < |s| ==> IsNameChar(s[i])
  {
    NamePatternMeaning(s);
    FullMatch(NAME_PATTERN, s)
  }

  // ---------------------------------------------------------------------------------------------
  // Subnet overrides

  /** `dtl.Allow` */
  const ALLOW := "Allow"

  const NAME := "name"
  const USE_PUBLIC_IP_ADDRESS := "use_public_ip_address"
  const USE_IN_VM_CREATION := "use_in_virtual_machine_creation"

  /** The API's subnet override; the two permissions are `dtl.UsagePermissionType` strings. */
  datatype SubnetOverride = SubnetOverride(
    resourceId: Option<string>,
    labSubnetName: Option<string>,
    usePublicIpAddressPermission: string,
    useInVmCreationPermission: string)

  /** A `subnet` block as the configuration holds it. The source's type assertions need both permission keys. */
  predicate IsSubnetBlock(block: map<string, string>) {
    USE_PUBLIC_IP_ADDRESS in block && USE_IN_VM_CREATION in block
  }

  predicate AllSubnetBlocks(input: seq<map<string, string>>) {
    forall i :: 0 <= i < |input| ==> IsSubnetBlock(input[i])
  }

  /** The subnet name the Portal uses for a virtual network. */
  function SubnetName(virtualNetworkName: string): string {
    virtualNetworkName + "Subnet"
  }

  function SubnetId(subscriptionId: string, resourceGroupName: string, virtualNetworkName: string): string {
    "/subscriptions/" + subscriptionId + "/resourceGroups/" + resourceGroupName +
    "/providers/Microsoft.Network/virtualNetworks/" + virtualNetworkName + "/subnets/" + SubnetName(virtualNetworkName)
  }

  /**
   * What `expandDevTestVirtualNetworkSubnets` returns: one override allowing both uses when there
   * are no blocks, otherwise one override per block, in order, carrying that block's permissions.
   * Every override names the subnet `<vnet>Subnet` and its full resource ID.
   */
  function Expanded(input: seq<map<string, string>>, subscriptionId: string, resourceGroupName: string,
                    virtualNetworkName: string): (r: seq<SubnetOverride>)
    requires AllSubnetBlocks(input)
    ensures |r| == if |input| == 0 then 1 else |input|
    ensures forall j :: 0 <= j < |r| ==>
      r[j].labSubnetName == Some(virtualNetworkName + "Subnet") &&
      r[j].resourceId == Some("/subscriptions/" + subscriptionId + "/resourceGroups/" + resourceGroupName +
        "/providers/Microsoft.Network/virtualNetworks/" + virtualNetworkName + "/subnets/" + virtualNetworkName + "Subnet")
    ensures |input| == 0 ==> r[0].usePublicIpAddressPermission == ALLOW && r[0].useInVmCreationPermission == ALLOW
    ensures forall j :: 0 <= j < |input| ==>
      r[j].usePublicIpAddressPermission == input[j][USE_PUBLIC_IP_ADDRESS] &&
      r[j].useInVmCreationPermission == input[j][USE_IN_VM_CREATION]
  {
    var name := SubnetName(virtualNetworkName);
    var id := SubnetId(subscriptionId, resourceGroupName, virtualNetworkName);
    var prefix := "/subscriptions/" + subscriptionId + "/resourceGroups/" + resourceGroupName +
      "/providers/Microsoft.Network/virtualNetworks/" + virtualNetworkName + "/subnets/";
    assert id == prefix + name == prefix + virtualNetworkName + "Subnet";
    if |input| == 0 then
      [SubnetOverride(Some(id), Some(name), ALLOW, ALLOW)]
    else
      seq(|input|, j requires 0 <= j < |input| =>
        SubnetOverride(Some(id), Some(name), input[j][USE_PUBLIC_IP_ADDRESS], input[j][USE_IN_VM_CREATION]))
  }

  /** `expandDevTestVirtualNetworkSubnets`, appending to `results` block by block. */
  method ExpandSubnets(input: seq<map<string, string>>, subscriptionId: string, resourceGroupName: string,
                       virtualNetworkName: string)
    returns (results: seq<SubnetOverride>)
    requires AllSubnetBlocks(input)
    ensures results == Expanded(input, subscriptionId, resourceGroupName, virtualNetworkName)
  {
    results := [];
    var name := virtualNetworkName + "Subnet";
    var subnetId := "/subscriptions/" + subscriptionId + "/resourceGroups/" + resourceGroupName +
      "/providers/Microsoft.Network/virtualNetworks/" + virtualNetworkName + "/subnets/" + name;
    if |input| == 0 {
      results := results + [SubnetOverride(Some(subnetId), Some(name), ALLOW, ALLOW)];
      return;
    }
    for i := 0 to |input|
      invariant |results| == i
      invariant forall j :: 0 <= j < i ==>
        results[j] == SubnetOverride(Some(subnetId), Some(name), input[j][USE_PUBLIC_IP_ADDRESS], input[j][USE_IN_VM_CREATION])
    {
      var v := input[i];
      var subnet := SubnetOverride(Some(subnetId), Some(name), v[USE_PUBLIC_IP_ADDRESS], v[USE_IN_VM_CREATION]);
      results := results + [subnet];
    }
  }

  /** The block `flattenDevTestVirtualNetworkSubnets` writes for one override. */
  function FlattenedOverride(o: SubnetOverride): (block: map<string, string>)
    ensures block.Keys <= {NAME, USE_PUBLIC_IP_ADDRESS, USE_IN_VM_CREATION}
    ensures NAME in block <==> o.labSubnetName.Some?
    ensures NAME in block ==> block[NAME] == o.labSubnetName.value
    ensures IsSubnetBlock(block)
    ensures block[USE_PUBLIC_IP_ADDRESS] == o.usePublicIpAddressPermission
    ensures block[USE_IN_VM_CREATION] == o.useInVmCreationPermission
  {
    var permissions := map[USE_PUBLIC_IP_ADDRESS := o.usePublicIpAddressPermission,
                           USE_IN_VM_CREATION := o.useInVmCreationPermission];
    if o.labSubnetName.Some? then permissions[NAME := o.labSubnetName.value] else permissions
  }

  /** What `flattenDevTestVirtualNetworkSubnets` returns: nothing for a nil list, otherwise one block per override, in order. */
  function Flattened(input: Option<seq<SubnetOverride>>): (r: seq<map<string, string>>)
    ensures input.None? ==> r == []
    ensures input.Some? ==> |r| == |input.value|
    ensures input.Some? ==> forall j :: 0 <= j < |r| ==> r[j] == FlattenedOverride(input.value[j])
  {
    if input.None? then []
    else seq(|input.value|, j requires 0 <= j < |input.value| => FlattenedOverride(input.value[j]))
  }

  /** `flattenDevTestVirtualNetworkSubnets`, appending to `outputs` override by override. */
  method FlattenSubnets(input: Option<seq<SubnetOverride>>) returns (outputs: seq<map<string, string>>)
    ensures outputs == Flattened(input)
  {
    outputs := [];
    if input.None? {
      return;
    }
    var overrides := input.value;
    for i := 0 to |overrides|
      invariant |outputs| == i
      invariant forall j :: 0 <= j < i ==> outputs[j] == FlattenedOverride(overrides[j])
    {
      var v := overrides[i];
      var output: map<string, string> := map[];
      if v.labSubnetName.Some? {
        output := output[NAME := v.labSubnetName.value];
      }
      output := output[USE_PUBLIC_IP_ADDRESS := v.usePublicIpAddressPermission];
      output := output[USE_IN_VM_CREATION := v.useInVmCreationPermission];
      outputs := outputs + [output];
    }
  }

  /**
   * Round trip: flattening the expansion of non-empty blocks gives back each block's two
   * permissions, in order, with the derived subnet name.
   */
  lemma FlattenExpand(input: seq<map<string, string>>, subscriptionId: string, resourceGroupName: string,
                      virtualNetworkName: string)
    requires |input| >= 1 && AllSubnetBlocks(input)
    ensures var out := Flattened(Some(Expanded(input, subscriptionId, resourceGroupName, virtualNetworkName)));
      |out| == |input| &&
      forall j :: 0 <= j < |input| ==>
        out[j] == map[NAME := virtualNetworkName + "Subnet",
                      USE_PUBLIC_IP_ADDRESS := input[j][USE_PUBLIC_IP_ADDRESS],
                      USE_IN_VM_CREATION := input[j][USE_IN_VM_CREATION]]
  {
    var overrides := Expanded(input, subscriptionId, resourceGroupName, virtualNetworkName);
    var out := Flattened(Some(overrides));
    forall j | 0 <= j < |input|
      ensures out[j] == map[NAME := virtualNetworkName + "Subnet",
                            USE_PUBLIC_IP_ADDRESS := input[j][USE_PUBLIC_IP_ADDRESS],
                            USE_IN_VM_CREATION := input[j][USE_IN_VM_CREATION]]
    {
      var expected := map[NAME := virtualNetworkName + "Subnet",
                          USE_PUBLIC_IP_ADDRESS := input[j][USE_PUBLIC_IP_ADDRESS],
                          USE_IN_VM_CREATION := input[j][USE_IN_VM_CREATION]];
      assert out[j].Keys == expected.Keys;
    }
  }

  /** A block holding only the two permissions comes back unchanged except for the computed `name`. */
  lemma FlattenExpandRestores(input: seq<map<string, string>>, subscriptionId: string, resourceGroupName: string,
                              virtualNetworkName: string)
    requires |input| >= 1 && AllSubnetBlocks(input)
    requires forall j :: 0 <= j < |input| ==> input[j].Keys <= {NAME, USE_PUBLIC_IP_ADDRESS, USE_IN_VM_CREATION}
    ensures Flattened(Some(Expanded(input, subscriptionId, resourceGroupName, virtualNetworkName))) ==
      seq(|input|, j requires 0 <= j < |input| => input[j][NAME := virtualNetworkName + "Subnet"])
  {
    FlattenExpand(input, subscriptionId, resourceGroupName, virtualNetworkName);
    var out := Flattened(Some(Expanded(input, subscriptionId, resourceGroupName, virtualNetworkName)));
    var restored := seq(|input|, j requires 0 <= j < |input| => input[j][NAME := virtualNetworkName + "Subnet"]);
    forall j | 0 <= j < |input| ensures out[j] == restored[j] {
      assert out[j].Keys == restored[j].Keys;
    }
  }

  /** With no blocks, the flattened default is one block allowing both uses. */
  lemma FlattenExpandDefault(subscriptionId: string, resourceGroupName: string, virtualNetworkName: string)
    ensures Flattened(Some(Expanded([], subscriptionId, resourceGroupName, virtualNetworkName))) ==
      [map[NAME := virtualNetworkName + "Subnet", USE_PUBLIC_IP_ADDRESS := ALLOW, USE_IN_VM_CREATION := ALLOW]]
  {
    var out := Flattened(Some(Expanded([], subscriptionId, resourceGroupName, virtualNetworkName)));
    var expected := map[NAME := virtualNetworkName + "Subnet", USE_PUBLIC_IP_ADDRESS := ALLOW, USE_IN_VM_CREATION := ALLOW];
    var overrides := Expanded([], subscriptionId, resourceGroupName, virtualNetworkName);
    assert out[0] == FlattenedOverride(overrides[0]);
    assert out[0].Keys == expected.Keys;
    assert out[0][NAME] == expected[NAME];
    assert out[0] == expected;
    assert out == [out[0]];
  }

  /** Expanding what was read back reproduces the overrides that were sent: expansion after flattening is a fixpoint. */
  lemma ExpandFlattenExpand(input: seq<map<string, string>>, subscriptionId: string, resourceGroupName: string,
                            virtualNetworkName: string)
    requires AllSubnetBlocks(input)
    ensures var sent := Expanded(input, subscriptionId, resourceGroupName, virtualNetworkName);
      AllSubnetBlocks(Flattened(Some(sent))) &&
      Expanded(Flattened(Some(sent)), subscriptionId, resourceGroupName, virtualNetworkName) == sent
  {
    var sent := Expanded(input, subscriptionId, resourceGroupName, virtualNetworkName);
    var again := Expanded(Flattened(Some(sent)), subscriptionId, resourceGroupName, virtualNetworkName);
    assert |again| == |sent|;
    forall j | 0 <= j < |sent| ensures again[j] == sent[j] {
    }
  }

  // ---------------------------------------------------------------------------------------------
  // Lifecycle

  datatype Key = Key(resourceGroup: string, labName: string, name: string)

  datatype Properties = Properties(
    description: Option<string>,
    subnetOverrides: Option<seq<SubnetOverride>>,
    uniqueIdentifier: Option<string>)

  /** The parts of the API's virtual network that the resource reads (tags are not modelled). */
  datatype VirtualNetwork = VirtualNetwork(id: Option<string>, name: Option<string>, properties: Option<Properties>)

  /** The create-or-update request body (tags are not modelled). */
  datatype Body = Body(description: string, subnetOverrides: seq<SubnetOverride>)

  const RESOURCE_TYPE := "azurerm_dev_test_virtual_network"

  /** The resource's configuration as `d.Get` reads it (tags are not modelled). */
  datatype Config = Config(
    name: string,
    labName: string,
    resourceGroup: string,
    description: string,
    subnets: seq<map<string, string>>)

  function NetworkId(vnet: VirtualNetwork): Option<string> {
    vnet.id
  }

  /**
   * The body Create and Update send: the configured description, and the configured `subnet`
   * blocks expanded for this virtual network, so always at least one override.
   */
  function RequestBody(cfg: Config, subscriptionId: string): (b: Body)
    requires AllSubnetBlocks(cfg.subnets)
    ensures b.description == cfg.description
    ensures b.subnetOverrides == Expanded(cfg.subnets, subscriptionId, cfg.resourceGroup, cfg.name)
    ensures |b.subnetOverrides| >= 1
  {
    Body(cfg.description, Expanded(cfg.subnets, subscriptionId, cfg.resourceGroup, cfg.name))
  }

  /** The attributes a Read writes that do not depend on the response's properties. */
  function IdentityAttributes(k: Key, vnet: VirtualNetwork): (m: map<string, Value>)
    ensures m.Keys == {NAME, "lab_name", "resource_group_name"}
    ensures m[NAME] == OptStr(vnet.name) && m["lab_name"] == Str(k.labName) && m["resource_group_name"] == Str(k.resourceGroup)
  {
    map[NAME := OptStr(vnet.name), "lab_name" := Str(k.labName), "resource_group_name" := Str(k.resourceGroup)]
  }

  /** The attributes a Read writes from the response's properties, present only when the properties are. */
  function PropertyAttributes(vnet: VirtualNetwork): (m: map<string, Value>)
    ensures vnet.properties.None? ==> m == map[]
    ensures vnet.properties.Some? ==>
      m.Keys == {"description", "subnet", "unique_identifier"} &&
      m["description"] == OptStr(vnet.properties.value.description) &&
      m["subnet"] == Blocks(Flattened(vnet.properties.value.subnetOverrides)) &&
      m["unique_identifier"] == OptStr(vnet.properties.value.uniqueIdentifier)
  {
    if vnet.properties.None? then map[]
    else
      var p := vnet.properties.value;
      map["description" := OptStr(p.description), "subnet" := Blocks(Flattened(p.subnetOverrides)),
          "unique_identifier" := OptStr(p.uniqueIdentifier)]
  }

  /**
   * The effect of `resourceArmDevTestVirtualNetworkRead` from a state with ID `id`. It sends at
   * most one request, a Get; an unparsable ID or a failed Get is an error that leaves the state
   * alone; a 404 removes the resource from state (empty ID) without error; a found network keeps
   * the ID and writes its attributes.
   */
  function ReadSpec(id: string, attributes: map<string, Value>, records: map<Key, VirtualNetwork>,
                    failingGets: set<Key>, parseId: string -> Option<Key>): (e: ReadEffect<Key, Body>)
    ensures ReadOnly(e.requests) && |e.requests| <= 1
    ensures parseId(id).None? ==> e.err == Fail(InvalidResourceId(id)) && e.requests == []
    ensures parseId(id).Some? ==> e.requests == [GetRequest(parseId(id).value)]
    ensures e.err.Pass? <==> parseId(id).Some? && parseId(id).value !in failingGets
    ensures e.err.Fail? ==> e.id == id && e.attributes == attributes
    ensures parseId(id).Some? && parseId(id).value !in failingGets && parseId(id).value !in records ==>
      e.id == "" && e.attributes == attributes
    ensures parseId(id).Some? && parseId(id).value !in failingGets && parseId(id).value in records ==>
      var vnet := records[parseId(id).value];
      e.id == id && e.attributes == attributes + IdentityAttributes(parseId(id).value, vnet) + PropertyAttributes(vnet)
  {
    match parseId(id)
    case None => ReadEffect(Fail(InvalidResourceId(id)), id, attributes, [])
    case Some(k) =>
      if k in failingGets then ReadEffect(Fail(RequestFailed(Reading)), id, attributes, [GetRequest(k)])
      else if k !in records then ReadEffect(Pass, "", attributes, [GetRequest(k)])
      else ReadEffect(Pass, id, attributes + IdentityAttributes(k, records[k]) + PropertyAttributes(records[k]), [GetRequest(k)])
  }

  /** What an Update leaves behind: its error, the state's ID and attributes, the API's records and the requests sent. */
  datatype WriteEffect = WriteEffect(
    err: Outcome,
    id: string,
    attributes: map<string, Value>,
    records: map<Key, VirtualNetwork>,
    requests: seq<Request<Key, Body>>)

  /**
   * The effect of `resourceArmDevTestVirtualNetworkUpdate` from a state with ID `id`: one
   * create-or-update request carrying `RequestBody`, a wait that ends as `awaited`, a Get for the
   * ID, and a Read from that ID. It writes nothing else, and a failure anywhere leaves the
   * attributes alone.
   */
  function UpdateSpec(id: string, attributes: map<string, Value>, records: map<Key, VirtualNetwork>,
                      failingGets: set<Key>, failingPuts: set<Key>, apply: (Option<VirtualNetwork>, Body) -> VirtualNetwork,
                      cfg: Config, subscriptionId: string, parseId: string -> Option<Key>, awaited: Status): (e: WriteEffect)
    requires AllSubnetBlocks(cfg.subnets)
    ensures var k := Key(cfg.resourceGroup, cfg.labName, cfg.name);
      |e.requests| >= 1 && e.requests[0] == PutRequest(k, RequestBody(cfg, subscriptionId)) && ReadOnly(e.requests[1..])
    ensures var k := Key(cfg.resourceGroup, cfg.labName, cfg.name);
      k in failingPuts ==>
        e.err == Fail(RequestFailed(Updating)) && e.id == id && e.attributes == attributes && e.records == records &&
        |e.requests| == 1
    ensures var k := Key(cfg.resourceGroup, cfg.labName, cfg.name);
      k !in failingPuts ==>
        e.records == records[k := apply(if k in records then Some(records[k]) else None, RequestBody(cfg, subscriptionId))]
    ensures e.err.Fail? ==> e.attributes == attributes
    ensures e.err.Pass? ==> awaited == Success && Key(cfg.resourceGroup, cfg.labName, cfg.name) !in failingGets
  {
    var k := Key(cfg.resourceGroup, cfg.labName, cfg.name);
    var body := RequestBody(cfg, subscriptionId);
    var put := PutRequest(k, body);
    if k in failingPuts then WriteEffect(Fail(RequestFailed(Updating)), id, attributes, records, [put])
    else
      var written := records[k := apply(if k in records then Some(records[k]) else None, body)];
      if awaited != Success then WriteEffect(Fail(AwaitFailed(Updating)), id, attributes, written, [put])
      else if k in failingGets then WriteEffect(Fail(RequestFailed(Retrieving)), id, attributes, written, [put, GetRequest(k)])
      else if written[k].id.None? then WriteEffect(Fail(MissingId), id, attributes, written, [put, GetRequest(k)])
      else
        var r := ReadSpec(written[k].id.value, attributes, written, failingGets, parseId);
        assert ReadOnly([GetRequest(k)] + r.requests);
        WriteEffect(r.err, r.id, r.attributes, written, [put, GetRequest(k)] + r.requests)
  }

  /** The source's `d.Set` calls made from the response's properties, only when they are present. */
  method SetPropertyAttributes(d: ResourceData, vnet: VirtualNetwork)
    modifies d`attributes
    ensures d.attributes == old(d.attributes) + PropertyAttributes(vnet)
  {
    if vnet.properties.Some? {
      var props := vnet.properties.value;
      d.Set("description", OptStr(props.description));
      var flattenedSubnets := FlattenSubnets(props.subnetOverrides);
      d.Set("subnet", Blocks(flattenedSubnets));
      d.Set("unique_identifier", OptStr(props.uniqueIdentifier));
      assert d.attributes == old(d.attributes) + PropertyAttributes(vnet);
    } else {
      assert old(d.attributes) + map[] == old(d.attributes);
    }
  }

  /** The `d.Set` calls of a successful Read, in the source's order. */
  method SetReadAttributes(d: ResourceData, k: Key, vnet: VirtualNetwork)
    modifies d`attributes
    ensures d.attributes == old(d.attributes) + IdentityAttributes(k, vnet) + PropertyAttributes(vnet)
  {
    ghost var before := d.attributes;
    d.Set(NAME, OptStr(vnet.name));
    d.Set("lab_name", Str(k.labName));
    d.Set("resource_group_name", Str(k.resourceGroup));
    assert d.attributes == before + IdentityAttributes(k, vnet);
    SetPropertyAttributes(d, vnet);
  }

  /** `resourceArmDevTestVirtualNetworkRead`; `parseId` is the opaque ID parser. */
  method Read(d: ResourceData, store: Store<Key, Body, VirtualNetwork>, parseId: string -> Option<Key>)
    returns (err: Outcome)
    modifies d, store`log
    ensures var e := ReadSpec(old(d.id), old(d.attributes), store.records, store.failingGets, parseId);
      err == e.err && d.id == e.id && d.attributes == e.attributes && store.log == old(store.log) + e.requests
  {
    var parsed := parseId(d.id);
    if parsed.None? {
      return Fail(InvalidResourceId(d.id));
    }
    var k := parsed.value;
    var status, read := store.Get(k);
    if status == NotFound {
      d.SetId("");
      return Pass;
    }
    if status == Failure {
      return Fail(RequestFailed(Reading));
    }
    SetReadAttributes(d, k, read.value);
    err := Pass;
  }

  /**
   * `resourceArmDevTestVirtualNetworkUpdate`. `subscriptionId` is the client's subscription and
   * `awaited` is how waiting for the request ended.
   */
  method Update(d: ResourceData, store: Store<Key, Body, VirtualNetwork>, cfg: Config, subscriptionId: string,
                parseId: string -> Option<Key>, awaited: Status)
    returns (err: Outcome)
    requires AllSubnetBlocks(cfg.subnets)
    modifies d, store`log, store`records
    ensures var e := UpdateSpec(old(d.id), old(d.attributes), old(store.records), store.failingGets, store.failingPuts,
                                store.apply, cfg, subscriptionId, parseId, awaited);
      err == e.err && d.id == e.id && d.attributes == e.attributes && store.records == e.records &&
      store.log == old(store.log) + e.requests
  {
    var k := Key(cfg.resourceGroup, cfg.labName, cfg.name);
    var subnets := ExpandSubnets(cfg.subnets, subscriptionId, cfg.resourceGroup, cfg.name);
    var parameters := Body(cfg.description, subnets);
    var status := store.Put(k, parameters);
    if status == Failure {
      return Fail(RequestFailed(Updating));
    }
    if awaited != Success {
      return Fail(AwaitFailed(Updating));
    }
    var readStatus, read := store.Get(k);
    if readStatus != Success {
      return Fail(RequestFailed(Retrieving));
    }
    if read.value.id.None? {
      return Fail(MissingId);
    }
    d.SetId(read.value.id.value);
    ghost var beforeRead := store.log;
    err := Read(d, store, parseId);
    assert store.log == beforeRead + (store.log[|beforeRead|..]);
  }

  /**
   * The effect of `resourceArmDevTestVirtualNetworkCreate` once the import check has passed: one
   * create-or-update request carrying `RequestBody`, a wait that ends as `awaitedCreate`, a Get
   * for the ID, and then an Update from that ID whose wait ends as `awaitedUpdate`. Unless the
   * create request itself fails, the network is in the records afterwards; a failure anywhere
   * leaves the attributes alone.
   */
  function CreateSpec(id: string, attributes: map<string, Value>, records: map<Key, VirtualNetwork>,
                      failingGets: set<Key>, failingPuts: set<Key>, apply: (Option<VirtualNetwork>, Body) -> VirtualNetwork,
                      cfg: Config, subscriptionId: string, parseId: string -> Option<Key>,
                      awaitedCreate: Status, awaitedUpdate: Status): (e: WriteEffect)
    requires AllSubnetBlocks(cfg.subnets)
    ensures var k := Key(cfg.resourceGroup, cfg.labName, cfg.name);
      |e.requests| >= 1 && e.requests[0] == PutRequest(k, RequestBody(cfg, subscriptionId))
    ensures var k := Key(cfg.resourceGroup, cfg.labName, cfg.name);
      k in failingPuts ==>
        e.err == Fail(RequestFailed(Creating)) && e.id == id && e.attributes == attributes && e.records == records &&
        |e.requests| == 1
    ensures Key(cfg.resourceGroup, cfg.labName, cfg.name) !in failingPuts ==> Key(cfg.resourceGroup, cfg.labName, cfg.name) in e.records
    ensures e.err.Fail? ==> e.attributes == attributes
    ensures e.err.Pass? ==> awaitedCreate == Success && awaitedUpdate == Success
  {
    var k := Key(cfg.resourceGroup, cfg.labName, cfg.name);
    var body := RequestBody(cfg, subscriptionId);
    var put := PutRequest(k, body);
    if k in failingPuts then WriteEffect(Fail(RequestFailed(Creating)), id, attributes, records, [put])
    else
      var written := records[k := apply(if k in records then Some(records[k]) else None, body)];
      if awaitedCreate != Success then WriteEffect(Fail(AwaitFailed(Creating)), id, attributes, written, [put])
      else if k in failingGets then WriteEffect(Fail(RequestFailed(Retrieving)), id, attributes, written, [put, GetRequest(k)])
      else if written[k].id.None? then WriteEffect(Fail(MissingId), id, attributes, written, [put, GetRequest(k)])
      else
        var u := UpdateSpec(written[k].id.value, attributes, written, failingGets, failingPuts, apply, cfg,
                            subscriptionId, parseId, awaitedUpdate);
        WriteEffect(u.err, u.id, u.attributes, u.records, [put, GetRequest(k)] + u.requests)
  }

  /**
   * The create-or-update request of Create, its wait (`awaitedCreate`) and the Get that reads the
   * new network's ID back; `createdId` is that ID when the error is `Pass`.
   */
  method SubmitCreate(store: Store<Key, Body, VirtualNetwork>, cfg: Config, subscriptionId: string, awaitedCreate: Status)
    returns (err: Outcome, createdId: string)
    requires AllSubnetBlocks(cfg.subnets)
    modifies store`log, store`records
    ensures var k := Key(cfg.resourceGroup, cfg.labName, cfg.name);
      var body := RequestBody(cfg, subscriptionId);
      var written := old(store.records)[k := store.apply(if k in old(store.records) then Some(old(store.records)[k]) else None, body)];
      (k in store.failingPuts ==>
        err == Fail(RequestFailed(Creating)) && store.records == old(store.records) &&
        store.log == old(store.log) + [PutRequest(k, body)]) &&
      (k !in store.failingPuts ==> store.records == written) &&
      (k !in store.failingPuts && awaitedCreate != Success ==>
        err == Fail(AwaitFailed(Creating)) && store.log == old(store.log) + [PutRequest(k, body)]) &&
      (k !in store.failingPuts && awaitedCreate == Success ==>
        store.log == old(store.log) + [PutRequest(k, body), GetRequest(k)] &&
        (k in store.failingGets ==> err == Fail(RequestFailed(Retrieving))) &&
        (k !in store.failingGets && written[k].id.None? ==> err == Fail(MissingId)) &&
        (k !in store.failingGets && written[k].id.Some? ==> err == Pass && createdId == written[k].id.value))
  {
    createdId := "";
    var k := Key(cfg.resourceGroup, cfg.labName, cfg.name);
    var subnets := ExpandSubnets(cfg.subnets, subscriptionId, cfg.resourceGroup, cfg.name);
    var parameters := Body(cfg.description, subnets);
    var status := store.Put(k, parameters);
    if status == Failure {
      return Fail(RequestFailed(Creating)), createdId;
    }
    if awaitedCreate != Success {
      return Fail(AwaitFailed(Creating)), createdId;
    }
    var readStatus, read := store.Get(k);
    if readStatus != Success {
      return Fail(RequestFailed(Retrieving)), createdId;
    }
    if read.value.id.None? {
      return Fail(MissingId), createdId;
    }
    err, createdId := Pass, read.value.id.value;
  }

  /** The part of `resourceArmDevTestVirtualNetworkCreate` after the import check. */
  method CreateAndUpdate(d: ResourceData, store: Store<Key, Body, VirtualNetwork>, cfg: Config, subscriptionId: string,
                         parseId: string -> Option<Key>, awaitedCreate: Status, awaitedUpdate: Status)
    returns (err: Outcome)
    requires AllSubnetBlocks(cfg.subnets)
    modifies d, store`log, store`records
    ensures var e := CreateSpec(old(d.id), old(d.attributes), old(store.records), store.failingGets, store.failingPuts,
                                store.apply, cfg, subscriptionId, parseId, awaitedCreate, awaitedUpdate);
      err == e.err && d.id == e.id && d.attributes == e.attributes && store.records == e.records &&
      store.log == old(store.log) + e.requests
  {
    var createdId;
    err, createdId := SubmitCreate(store, cfg, subscriptionId, awaitedCreate);
    if err.Fail? {
      return;
    }
    ghost var log0 := store.log;
    d.SetId(createdId);
    err := Update(d, store, cfg, subscriptionId, parseId, awaitedUpdate);
    assert store.log == log0 + (store.log[|log0|..]);
  }

  /**
   * `resourceArmDevTestVirtualNetworkCreate`, which the framework calls for a new resource only.
   * When resources must be imported, a Get whose failure is not a 404 is an error, and an existing
   * network with a non-empty ID refuses the Create before any write; otherwise the Create goes on
   * as `CreateSpec` states.
   */
  method Create(d: ResourceData, store: Store<Key, Body, VirtualNetwork>, cfg: Config, subscriptionId: string,
                requireImport: bool, parseId: string -> Option<Key>, awaitedCreate: Status, awaitedUpdate: Status)
    returns (err: Outcome)
    requires AllSubnetBlocks(cfg.subnets)
    modifies d, store`log, store`records
    ensures var k := Key(cfg.resourceGroup, cfg.labName, cfg.name);
      var check := if requireImport then [GetRequest(k)] else [];
      var existing := ExistingId(old(store.records), k, NetworkId);
      (requireImport && k in store.failingGets ==>
        err == Fail(RequestFailed(CheckExisting)) && store.log == old(store.log) + check &&
        store.records == old(store.records) && d.id == old(d.id) && d.attributes == old(d.attributes)) &&
      (requireImport && k !in store.failingGets && existing.Some? ==>
        err == Fail(ImportAsExists(RESOURCE_TYPE, existing.value)) && store.log == old(store.log) + check &&
        ReadOnly(store.log[|old(store.log)|..]) &&
        store.records == old(store.records) && d.id == old(d.id) && d.attributes == old(d.attributes)) &&
      (!requireImport || (k !in store.failingGets && existing.None?) ==>
        var e := CreateSpec(old(d.id), old(d.attributes), old(store.records), store.failingGets, store.failingPuts,
                            store.apply, cfg, subscriptionId, parseId, awaitedCreate, awaitedUpdate);
        err == e.err && d.id == e.id && d.attributes == e.attributes && store.records == e.records &&
        store.log == old(store.log) + check + e.requests)
  {
    var k := Key(cfg.resourceGroup, cfg.labName, cfg.name);
    if requireImport {
      var status, existing := store.Get(k);
      if status == Failure {
        return Fail(RequestFailed(CheckExisting));
      }
      if existing.Some? && existing.value.id.Some? && existing.value.id.value != "" {
        return Fail(ImportAsExists(RESOURCE_TYPE, existing.value.id.value));
      }
    }
    ghost var beforeCreate := store.log;
    err := CreateAndUpdate(d, store, cfg, subscriptionId, parseId, awaitedCreate, awaitedUpdate);
    assert store.log == beforeCreate + (store.log[|beforeCreate|..]);
  }

  /**
   * `resourceArmDevTestVirtualNetworkDelete`. The resource is looked up first: a 404 means it was
   * deleted elsewhere and is success without a delete request. A failed delete request and a
   * failed wait (`awaited`) are errors.
   */
  method Delete(d: ResourceData, store: Store<Key, Body, VirtualNetwork>, parseId: string -> Option<Key>,
                awaited: Status)
    returns (err: Outcome)
    modifies store`log, store`records
    ensures parseId(d.id).None? ==>
      err == Fail(InvalidResourceId(d.id)) && store.log == old(store.log) && store.records == old(store.records)
    ensures parseId(d.id).Some? ==>
      var k := parseId(d.id).value;
      (old(store.GetStatus(k)) == NotFound ==>
        err == Pass && store.log == old(store.log) + [GetRequest(k)] && store.records == old(store.records)) &&
      (old(store.GetStatus(k)) == Failure ==>
        err == Fail(RequestFailed(Retrieving)) && store.log == old(store.log) + [GetRequest(k)] &&
        store.records == old(store.records)) &&
      (old(store.GetStatus(k)) == Success ==>
        store.log == old(store.log) + [GetRequest(k), DeleteRequest(k)] &&
        (k in store.failingDeletes ==> err == Fail(RequestFailed(Deleting)) && store.records == old(store.records)) &&
        (k !in store.failingDeletes ==>
          store.records == old(store.records) - {k} &&
          err == (if awaited == Success then Pass else Fail(AwaitFailed(Deleting)))))
  {
    var parsed := parseId(d.id);
    if parsed.None? {
      return Fail(InvalidResourceId(d.id));
    }
    var k := parsed.value;
    var status, _ := store.Get(k);
    if status == NotFound {
      return Pass;
    }
    if status == Failure {
      return Fail(RequestFailed(Retrieving));
    }
    var deleted := store.Delete(k);
    if deleted != Success {
      return Fail(RequestFailed(Deleting));
    }
    if awaited != Success {
      return Fail(AwaitFailed(Deleting));
    }
    err := Pass;
  }
}
