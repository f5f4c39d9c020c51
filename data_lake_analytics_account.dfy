/**
 * The Data Lake Analytics account resource: the tier allow-list, the create and update request
 * bodies, and the lifecycle (the import check in Create, 404 handling in Read and Delete).
 */
module DataLakeAnalyticsAccount {
  import opened Common
  import opened Arm
  import Ascii

  const RESOURCE_TYPE := "azurerm_data_lake_analytics_account"

  // ---------------------------------------------------------------------------------------------
  // Tiers

  /** The SDK's `account.TierType` values, in the order the schema lists them. */
  const CONSUMPTION := "Consumption"
  const TIERS: seq<string> := [
    CONSUMPTION,
    "Commitment_100000AUHours",
    "Commitment_10000AUHours",
    "Commitment_1000AUHours",
    "Commitment_100AUHours",
    "Commitment_500000AUHours",
    "Commitment_50000AUHours",
    "Commitment_5000AUHours",
    "Commitment_500AUHours"
  ]
  /** The schema default of `tier`. */
  const DEFAULT_TIER := CONSUMPTION

  /** `validation.StringInSlice(valid, ignoreCase)`: whether `v` is one of `valid`, ignoring ASCII case if asked. */
  function StringInSlice(v: string, valid: seq<string>, ignoreCase: bool): (accepted: bool)
    ensures accepted <==> exists i :: 0 <= i < |valid| && (if ignoreCase then Ascii.EqualFold(v, valid[i]) else v == valid[i])
    decreases |valid|
  {
    if valid == [] then false
    else
      var here := if ignoreCase then Ascii.EqualFold(v, valid[0]) else v == valid[0];
      here || StringInSlice(v, valid[1..], ignoreCase)
  }

  /** The `tier` validator: accepted iff it equals one of the nine tiers, ignoring case. */
  function ValidateTier(tier: string): (accepted: bool)
    ensures accepted <==> exists t :: t in TIERS && Ascii.EqualFold(tier, t)
  {
    var accepted := StringInSlice(tier, TIERS, true);
    assert accepted ==> exists t :: t in TIERS && Ascii.EqualFold(tier, t);
    assert (exists t :: t in TIERS && Ascii.EqualFold(tier, t)) ==>
      exists i :: 0 <= i < |TIERS| && Ascii.EqualFold(tier, TIERS[i]);
    accepted
  }

  /** The default tier passes the validator, and so does a tier written in another case. */
  lemma TierExamples()
    ensures ValidateTier(DEFAULT_TIER)
    ensures ValidateTier("consumption")
    ensures ValidateTier("COMMITMENT_500AUHOURS")
  {
    assert Ascii.EqualFold(DEFAULT_TIER, TIERS[0]);
    assert Ascii.EqualFold("consumption", TIERS[0]);
    assert Ascii.EqualFold("COMMITMENT_500AUHOURS", TIERS[8]);
  }

  // ---------------------------------------------------------------------------------------------
  // Requests

  /** The resource's configuration as `d.Get` reads it (tags are not modelled). */
  datatype Config = Config(
    name: string,
    location: string,
    resourceGroup: string,
    tier: string,
    defaultStoreAccountName: string)

  datatype AddStoreParameters = AddStoreParameters(name: string)

  /** `CreateDataLakeAnalyticsAccountParameters` with its properties; the source fills every pointer. */
  datatype CreateParameters = CreateParameters(
    location: string,
    newTier: string,
    defaultDataLakeStoreAccount: string,
    dataLakeStoreAccounts: seq<AddStoreParameters>)

  datatype UpdateStoreParameters = UpdateStoreParameters(name: string)

  /** `UpdateDataLakeAnalyticsAccountParameters` with its properties. */
  datatype UpdateParameters = UpdateParameters(
    newTier: string,
    dataLakeStoreAccounts: seq<UpdateStoreParameters>)

  datatype Body = CreateBody(create: CreateParameters) | UpdateBody(update: UpdateParameters)

  /**
   * The create request: the configured tier, the normalised location, and the default store
   * account both as the default and as the one and only attached store account.
   */
  function CreateRequest(cfg: Config, normalizeLocation: string -> string): (p: CreateParameters)
    ensures p.newTier == cfg.tier
    ensures p.location == normalizeLocation(cfg.location)
    ensures p.defaultDataLakeStoreAccount == cfg.defaultStoreAccountName
    ensures |p.dataLakeStoreAccounts| == 1 && p.dataLakeStoreAccounts[0].name == p.defaultDataLakeStoreAccount
  {
    CreateParameters(normalizeLocation(cfg.location), cfg.tier, cfg.defaultStoreAccountName,
                     [AddStoreParameters(cfg.defaultStoreAccountName)])
  }

  /** The update request: the configured tier and the default store account as the one store account. */
  function UpdateRequest(cfg: Config): (p: UpdateParameters)
    ensures p.newTier == cfg.tier
    ensures |p.dataLakeStoreAccounts| == 1 && p.dataLakeStoreAccounts[0].name == cfg.defaultStoreAccountName
  {
    UpdateParameters(cfg.tier, [UpdateStoreParameters(cfg.defaultStoreAccountName)])
  }

  /** Create and Update ask for the same tier and attach the same single store account. */
  lemma CreateAndUpdateAgree(cfg: Config, normalizeLocation: string -> string)
    ensures UpdateRequest(cfg).newTier == CreateRequest(cfg, normalizeLocation).newTier
    ensures |UpdateRequest(cfg).dataLakeStoreAccounts| == |CreateRequest(cfg, normalizeLocation).dataLakeStoreAccounts| == 1
    ensures UpdateRequest(cfg).dataLakeStoreAccounts[0].name == CreateRequest(cfg, normalizeLocation).dataLakeStoreAccounts[0].name
  {
  }

  // ---------------------------------------------------------------------------------------------
  // Lifecycle

  datatype Key = Key(resourceGroup: string, name: string)

  datatype AccountProperties = AccountProperties(currentTier: string, defaultDataLakeStoreAccount: Option<string>)

  /** The parts of the API's account that the resource reads (tags are not modelled). */
  datatype Account = Account(id: Option<string>, location: Option<string>, properties: Option<AccountProperties>)

  function AccountId(acct: Account): Option<string> {
    acct.id
  }

  function IdentityAttributes(k: Key): map<string, Value> {
    map["name" := Str(k.name), "resource_group_name" := Str(k.resourceGroup)]
  }

  function LocationAttribute(acct: Account, normalizeLocation: string -> string): map<string, Value> {
    if acct.location.Some? then map["location" := Str(normalizeLocation(acct.location.value))] else map[]
  }

  function PropertyAttributes(acct: Account): map<string, Value> {
    if acct.properties.Some?
    then map["tier" := Str(acct.properties.value.currentTier),
             "default_store_account_name" := OptStr(acct.properties.value.defaultDataLakeStoreAccount)]
    else map[]
  }

  /**
   * The attributes a successful Read writes: the name and resource group from the ID, the
   * normalised location when there is one, and `tier` and `default_store_account_name` only when
   * the account's properties are present.
   */
  function ReadAttributes(k: Key, acct: Account, normalizeLocation: string -> string): (m: map<string, Value>)
    ensures m.Keys <= {"name", "resource_group_name", "location", "tier", "default_store_account_name"}
    ensures "name" in m && m["name"] == Str(k.name)
    ensures "resource_group_name" in m && m["resource_group_name"] == Str(k.resourceGroup)
    ensures "location" in m <==> acct.location.Some?
    ensures acct.location.Some? ==> m["location"] == Str(normalizeLocation(acct.location.value))
    ensures "tier" in m <==> acct.properties.Some?
    ensures "default_store_account_name" in m <==> acct.properties.Some?
    ensures acct.properties.Some? ==>
      m["tier"] == Str(acct.properties.value.currentTier) &&
      m["default_store_account_name"] == OptStr(acct.properties.value.defaultDataLakeStoreAccount)
  {
    IdentityAttributes(k) + LocationAttribute(acct, normalizeLocation) + PropertyAttributes(acct)
  }

  /**
   * The effect of `resourceArmDateLakeAnalyticsAccountRead` from a state with ID `id` against the
   * API's records. It sends at most one request, a Get; an unparsable ID or a failed Get is an
   * error that leaves the state alone; a 404 clears the ID without error; a found account keeps
   * the ID and writes its attributes.
   */
  function ReadSpec(id: string, attributes: map<string, Value>, records: map<Key, Account>, failing: set<Key>,
                    parseId: string -> Option<Key>, normalizeLocation: string -> string): (e: ReadEffect<Key, Body>)
    ensures ReadOnly(e.requests) && |e.requests| <= 1
    ensures parseId(id).None? ==> e.err == Fail(InvalidResourceId(id)) && e.requests == []
    ensures parseId(id).Some? ==> e.requests == [GetRequest(parseId(id).value)]
    ensures e.err.Pass? <==> parseId(id).Some? && parseId(id).value !in failing
    ensures e.err.Fail? ==> e.id == id && e.attributes == attributes
    ensures parseId(id).Some? && parseId(id).value !in failing && parseId(id).value !in records ==>
      e.id == "" && e.attributes == attributes
    ensures parseId(id).Some? && parseId(id).value !in failing && parseId(id).value in records ==>
      e.id == id &&
      e.attributes == attributes + ReadAttributes(parseId(id).value, records[parseId(id).value], normalizeLocation)
  {
    match parseId(id)
    case None => ReadEffect(Fail(InvalidResourceId(id)), id, attributes, [])
    case Some(k) =>
      if k in failing then ReadEffect(Fail(RequestFailed(Reading)), id, attributes, [GetRequest(k)])
      else if k !in records then ReadEffect(Pass, "", attributes, [GetRequest(k)])
      else ReadEffect(Pass, id, attributes + ReadAttributes(k, records[k], normalizeLocation), [GetRequest(k)])
  }

  /**
   * Refreshing twice is refreshing once: a Read that found the account leaves a state that a
   * second Read maps to itself.
   */
  lemma ReadIdempotent(id: string, attributes: map<string, Value>, records: map<Key, Account>,
                       failing: set<Key>, parseId: string -> Option<Key>, normalizeLocation: string -> string)
    requires parseId(id).Some? && parseId(id).value in records
    ensures var first := ReadSpec(id, attributes, records, failing, parseId, normalizeLocation);
      var second := ReadSpec(first.id, first.attributes, records, failing, parseId, normalizeLocation);
      second.err == first.err && second.id == first.id && second.attributes == first.attributes
  {
    var k := parseId(id).value;
    if k !in failing {
      var m := ReadAttributes(k, records[k], normalizeLocation);
      assert attributes + m + m == attributes + m;
    }
  }

  /** The source's `d.Set` calls for `tier` and `default_store_account_name`, made only with properties. */
  method SetPropertyAttributes(d: ResourceData, acct: Account)
    modifies d`attributes
    ensures d.attributes == old(d.attributes) + PropertyAttributes(acct)
  {
    if acct.properties.Some? {
      var properties := acct.properties.value;
      d.Set("tier", Str(properties.currentTier));
      d.Set("default_store_account_name", OptStr(properties.defaultDataLakeStoreAccount));
      assert d.attributes == old(d.attributes) + PropertyAttributes(acct);
    } else {
      assert old(d.attributes) + map[] == old(d.attributes);
    }
  }

  /** The `d.Set` calls of a successful Read, in the source's order. */
  method SetReadAttributes(d: ResourceData, k: Key, acct: Account, normalizeLocation: string -> string)
    modifies d`attributes
    ensures d.attributes == old(d.attributes) + ReadAttributes(k, acct, normalizeLocation)
  {
    ghost var before := d.attributes;
    d.Set("name", Str(k.name));
    d.Set("resource_group_name", Str(k.resourceGroup));
    assert d.attributes == before + IdentityAttributes(k);
    ghost var withIdentity := d.attributes;
    SetIf(d, acct.location.Some?, "location", Str(if acct.location.Some? then normalizeLocation(acct.location.value) else ""));
    assert d.attributes == withIdentity + LocationAttribute(acct, normalizeLocation);
    SetPropertyAttributes(d, acct);
    UnionAssociates(before, IdentityAttributes(k), LocationAttribute(acct, normalizeLocation), PropertyAttributes(acct));
  }

  /** `resourceArmDateLakeAnalyticsAccountRead`; `parseId` and `normalizeLocation` are the opaque helpers. */
  method Read(d: ResourceData, store: Store<Key, Body, Account>, parseId: string -> Option<Key>,
              normalizeLocation: string -> string)
    returns (err: Outcome)
    modifies d, store`log
    ensures var e := ReadSpec(old(d.id), old(d.attributes), store.records, store.failingGets, parseId, normalizeLocation);
      err == e.err && d.id == e.id && d.attributes == e.attributes && store.log == old(store.log) + e.requests
  {
    var parsed := parseId(d.id);
    if parsed.None? {
      return Fail(InvalidResourceId(d.id));
    }
    var k := parsed.value;
    var status, resp := store.Get(k);
    if status != Success {
      if status == NotFound {
        d.SetId("");
        return Pass;
      }
      return Fail(RequestFailed(Reading));
    }
    SetReadAttributes(d, k, resp.value, normalizeLocation);
    err := Pass;
  }

  /**
   * `resourceArmDateLakeAnalyticsAccountUpdate`: one update request built from the configuration,
   * a wait that ends as `awaited`, then a Read.
   */
  method Update(d: ResourceData, store: Store<Key, Body, Account>, cfg: Config, parseId: string -> Option<Key>,
                normalizeLocation: string -> string, awaited: Status)
    returns (err: Outcome)
    modifies d, store`log, store`records
    ensures var k := Key(cfg.resourceGroup, cfg.name);
      var put := PutRequest(k, UpdateBody(UpdateRequest(cfg)));
      |store.log| > |old(store.log)| && store.log[..|old(store.log)| + 1] == old(store.log) + [put] &&
      (k in store.failingPuts ==>
        err == Fail(RequestFailed(Updating)) && store.log == old(store.log) + [put] &&
        store.records == old(store.records) && d.id == old(d.id) && d.attributes == old(d.attributes)) &&
      (k !in store.failingPuts ==>
        store.records == old(store.records)[k := store.apply(
          if k in old(store.records) then Some(old(store.records)[k]) else None, UpdateBody(UpdateRequest(cfg)))]) &&
      (k !in store.failingPuts && awaited != Success ==>
        err == Fail(AwaitFailed(Updating)) && store.log == old(store.log) + [put] &&
        d.id == old(d.id) && d.attributes == old(d.attributes)) &&
      (k !in store.failingPuts && awaited == Success ==>
        var e := ReadSpec(old(d.id), old(d.attributes), store.records, store.failingGets, parseId, normalizeLocation);
        err == e.err && d.id == e.id && d.attributes == e.attributes && store.log == old(store.log) + [put] + e.requests)
  {
    var k := Key(cfg.resourceGroup, cfg.name);
    var props := UpdateRequest(cfg);
    var status := store.Put(k, UpdateBody(props));
    if status == Failure {
      return Fail(RequestFailed(Updating));
    }
    if awaited != Success {
      return Fail(AwaitFailed(Updating));
    }
    err := Read(d, store, parseId, normalizeLocation);
  }

  /**
   * `resourceArmDateLakeAnalyticsAccountCreate`. When resources must be imported, an existing
   * account with a non-empty ID refuses the Create before any create request; otherwise one create
   * request is sent, awaited, the account is read back for its ID, and the Read follows.
   */
  method Create(d: ResourceData, store: Store<Key, Body, Account>, cfg: Config, requireImport: bool,
                parseId: string -> Option<Key>, normalizeLocation: string -> string, awaited: Status)
    returns (err: Outcome)
    modifies d, store`log, store`records
    ensures var k := Key(cfg.resourceGroup, cfg.name);
      var check := if requireImport then [GetRequest(k)] else [];
      var existing := ExistingId(old(store.records), k, AccountId);
      var put := PutRequest(k, CreateBody(CreateRequest(cfg, normalizeLocation)));
      var created := store.apply(if k in old(store.records) then Some(old(store.records)[k]) else None,
                                 CreateBody(CreateRequest(cfg, normalizeLocation)));
      (requireImport && k in store.failingGets ==>
        err == Fail(RequestFailed(CheckExisting)) && store.log == old(store.log) + check &&
        store.records == old(store.records) && d.id == old(d.id) && d.attributes == old(d.attributes)) &&
      (requireImport && k !in store.failingGets && existing.Some? ==>
        err == Fail(ImportAsExists(RESOURCE_TYPE, existing.value)) &&
        store.log == old(store.log) + check && ReadOnly(store.log[|old(store.log)|..]) &&
        store.records == old(store.records) && d.id == old(d.id) && d.attributes == old(d.attributes)) &&
      (!requireImport || (k !in store.failingGets && existing.None?) ==>
        |store.log| > |old(store.log) + check| && store.log[..|old(store.log) + check| + 1] == old(store.log) + check + [put] &&
        (k in store.failingPuts ==>
          err == Fail(RequestFailed(Creating)) && store.log == old(store.log) + check + [put] &&
          store.records == old(store.records) && d.id == old(d.id) && d.attributes == old(d.attributes)) &&
        (k !in store.failingPuts ==> store.records == old(store.records)[k := created]) &&
        (k !in store.failingPuts && awaited != Success ==>
          err == Fail(AwaitFailed(Creating)) && store.log == old(store.log) + check + [put] &&
          d.id == old(d.id) && d.attributes == old(d.attributes)) &&
        (k !in store.failingPuts && awaited == Success && k in store.failingGets ==>
          err == Fail(RequestFailed(Retrieving)) && store.log == old(store.log) + check + [put, GetRequest(k)] &&
          d.id == old(d.id) && d.attributes == old(d.attributes)) &&
        (k !in store.failingPuts && awaited == Success && k !in store.failingGets && created.id.None? ==>
          err == Fail(MissingId) && store.log == old(store.log) + check + [put, GetRequest(k)] &&
          d.id == old(d.id) && d.attributes == old(d.attributes)) &&
        (k !in store.failingPuts && awaited == Success && k !in store.failingGets && created.id.Some? ==>
          var e := ReadSpec(created.id.value, old(d.attributes), store.records, store.failingGets, parseId, normalizeLocation);
          err == e.err && d.id == e.id && d.attributes == e.attributes &&
          store.log == old(store.log) + check + [put, GetRequest(k)] + e.requests))
  {
    var k := Key(cfg.resourceGroup, cfg.name);
    if requireImport {
      var status, existing := store.Get(k);
      if status == Failure {
        return Fail(RequestFailed(CheckExisting));
      }
      if existing.Some? && existing.value.id.Some? && existing.value.id.value != "" {
        return Fail(ImportAsExists(RESOURCE_TYPE, existing.value.id.value));
      }
    }
    var account := CreateRequest(cfg, normalizeLocation);
    var status := store.Put(k, CreateBody(account));
    if status == Failure {
      return Fail(RequestFailed(Creating));
    }
    if awaited != Success {
      return Fail(AwaitFailed(Creating));
    }
    var readStatus, read := store.Get(k);
    if readStatus != Success {
      return Fail(RequestFailed(Retrieving));
    }
    if read.value.id.None? {
      return Fail(MissingId);
    }
    d.SetId(read.value.id.value);
    err := Read(d, store, parseId, normalizeLocation);
  }

  /**
   * `resourceArmDateLakeAnalyticsAccountDelete`. A 404 is success both when the delete request is
   * issued and while waiting for it; `awaited` is how the wait ended.
   */
  method Delete(d: ResourceData, store: Store<Key, Body, Account>, parseId: string -> Option<Key>, awaited: Status)
    returns (err: Outcome)
    modifies store`log, store`records
    ensures parseId(d.id).None? ==>
      err == Fail(InvalidResourceId(d.id)) && store.log == old(store.log) && store.records == old(store.records)
    ensures parseId(d.id).Some? ==>
      var k := parseId(d.id).value;
      store.log == old(store.log) + [DeleteRequest(k)] &&
      (old(store.DeleteStatus(k)) == NotFound ==> err == Pass && store.records == old(store.records)) &&
      (old(store.DeleteStatus(k)) == Failure ==> err == Fail(RequestFailed(Deleting)) && store.records == old(store.records)) &&
      (old(store.DeleteStatus(k)) == Success ==>
        store.records == old(store.records) - {k} &&
        err == (if awaited == Failure then Fail(AwaitFailed(Deleting)) else Pass))
  {
    var parsed := parseId(d.id);
    if parsed.None? {
      return Fail(InvalidResourceId(d.id));
    }
    var k := parsed.value;
    var status := store.Delete(k);
    if status != Success {
      if status == NotFound {
        return Pass;
      }
      return Fail(RequestFailed(Deleting));
    }
    if awaited != Success {
      if awaited == NotFound {
        return Pass;
      }
      return Fail(AwaitFailed(Deleting));
    }
    err := Pass;
  }
}
