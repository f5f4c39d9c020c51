/** The availability-set data source: one Get, projected into the data source's attributes. */
module AvailabilitySet {
  import opened Common
  import opened Arm
  import Ascii
  import Decimal

  datatype Key = Key(resourceGroup: string, name: string)

  datatype Sku = Sku(name: Option<string>)

  datatype Properties = Properties(
    platformUpdateDomainCount: Option<Decimal.Int32>,
    platformFaultDomainCount: Option<Decimal.Int32>)

  /** The parts of the API's availability-set response that the data source reads (tags are not modelled). */
  datatype AvailabilitySet = AvailabilitySet(
    id: Option<string>,
    location: Option<string>,
    sku: Option<Sku>,
    properties: Option<Properties>)

  const LOCATION := "location"
  const MANAGED := "managed"
  const UPDATE_DOMAIN_COUNT := "platform_update_domain_count"
  const FAULT_DOMAIN_COUNT := "platform_fault_domain_count"

  /** The attribute `key` holding the decimal rendering of a count, present only when the count is. */
  function CountAttribute(key: string, count: Option<Decimal.Int32>): (m: map<string, Value>)
    ensures m.Keys <= {key}
    ensures key in m <==> count.Some?
    ensures key in m ==> m[key] == Str(Decimal.Itoa(count.value as int))
    ensures key in m ==> Decimal.ParseDecimal(m[key].s) == Some(count.value as int)
  {
    if count.Some? then
      Decimal.ParseItoa(count.value as int);
      map[key := Str(Decimal.Itoa(count.value as int))]
    else map[]
  }

  function LocationAttribute(resp: AvailabilitySet, normalizeLocation: string -> string): map<string, Value> {
    if resp.location.Some? then map[LOCATION := Str(normalizeLocation(resp.location.value))] else map[]
  }

  function ManagedAttribute(resp: AvailabilitySet): map<string, Value> {
    if resp.sku.Some? && resp.sku.value.name.Some?
    then map[MANAGED := Flag(Ascii.EqualFold(resp.sku.value.name.value, "Aligned"))]
    else map[]
  }

  function CountAttributes(resp: AvailabilitySet): map<string, Value> {
    if resp.properties.None? then map[]
    else CountAttribute(UPDATE_DOMAIN_COUNT, resp.properties.value.platformUpdateDomainCount) +
         CountAttribute(FAULT_DOMAIN_COUNT, resp.properties.value.platformFaultDomainCount)
  }

  /**
   * The attributes a successful read writes, given the opaque location normaliser: `location`
   * when the response has one, `managed` when the SKU and its name are present, and each domain
   * count as its decimal rendering when the properties and that count are present.
   */
  function Projection(resp: AvailabilitySet, normalizeLocation: string -> string): (m: map<string, Value>)
    ensures m.Keys <= {LOCATION, MANAGED, UPDATE_DOMAIN_COUNT, FAULT_DOMAIN_COUNT}
    ensures LOCATION in m <==> resp.location.Some?
    ensures LOCATION in m ==> m[LOCATION] == Str(normalizeLocation(resp.location.value))
    ensures MANAGED in m <==> resp.sku.Some? && resp.sku.value.name.Some?
    ensures MANAGED in m ==> m[MANAGED] == Flag(Ascii.EqualFold(resp.sku.value.name.value, "Aligned"))
    ensures UPDATE_DOMAIN_COUNT in m <==> resp.properties.Some? && resp.properties.value.platformUpdateDomainCount.Some?
    ensures UPDATE_DOMAIN_COUNT in m ==>
      m[UPDATE_DOMAIN_COUNT] == Str(Decimal.Itoa(resp.properties.value.platformUpdateDomainCount.value as int)) &&
      Decimal.ParseDecimal(m[UPDATE_DOMAIN_COUNT].s) == Some(resp.properties.value.platformUpdateDomainCount.value as int)
    ensures FAULT_DOMAIN_COUNT in m <==> resp.properties.Some? && resp.properties.value.platformFaultDomainCount.Some?
    ensures FAULT_DOMAIN_COUNT in m ==>
      m[FAULT_DOMAIN_COUNT] == Str(Decimal.Itoa(resp.properties.value.platformFaultDomainCount.value as int)) &&
      Decimal.ParseDecimal(m[FAULT_DOMAIN_COUNT].s) == Some(resp.properties.value.platformFaultDomainCount.value as int)
  {
    LocationAttribute(resp, normalizeLocation) + ManagedAttribute(resp) + CountAttributes(resp)
  }

  /** The `d.Set` calls of a successful read, in the source's order. */
  method SetProjection(d: ResourceData, resp: AvailabilitySet, normalizeLocation: string -> string)
    modifies d`attributes
    ensures d.attributes == old(d.attributes) + (LocationAttribute(resp, normalizeLocation) + ManagedAttribute(resp) + CountAttributes(resp))
  {
    ghost var before := d.attributes;
    if resp.location.Some? {
      SetIf(d, true, LOCATION, Str(normalizeLocation(resp.location.value)));
    }
    assert d.attributes == before + LocationAttribute(resp, normalizeLocation);
    ghost var withLocation := d.attributes;
    if resp.sku.Some? && resp.sku.value.name.Some? {
      SetIf(d, true, MANAGED, Flag(Ascii.EqualFold(resp.sku.value.name.value, "Aligned")));
    }
    assert d.attributes == withLocation + ManagedAttribute(resp);
    ghost var withManaged := d.attributes;
    if resp.properties.Some? {
      var props := resp.properties.value;
      var update := props.platformUpdateDomainCount;
      var fault := props.platformFaultDomainCount;
      SetIf(d, update.Some?, UPDATE_DOMAIN_COUNT, Str(if update.Some? then Decimal.Itoa(update.value as int) else ""));
      assert d.attributes == withManaged + CountAttribute(UPDATE_DOMAIN_COUNT, update);
      ghost var withUpdate := d.attributes;
      SetIf(d, fault.Some?, FAULT_DOMAIN_COUNT, Str(if fault.Some? then Decimal.Itoa(fault.value as int) else ""));
      assert d.attributes == withUpdate + CountAttribute(FAULT_DOMAIN_COUNT, fault);
      UnionAssociates3(withManaged, CountAttribute(UPDATE_DOMAIN_COUNT, update), CountAttribute(FAULT_DOMAIN_COUNT, fault));
    } else {
      assert withManaged + map[] == withManaged;
    }
    assert d.attributes == withManaged + CountAttributes(resp);
    UnionAssociates(before, LocationAttribute(resp, normalizeLocation), ManagedAttribute(resp), CountAttributes(resp));
  }

  /**
   * `dataSourceArmAvailabilitySetRead` for the configured `resourceGroup` and `name`. A 404 is an
   * error for a data source and leaves the state alone. The source dereferences the response's ID
   * without a nil check, so a found record is required to carry one.
   */
  method Read<B>(d: ResourceData, store: Store<Key, B, AvailabilitySet>, resourceGroup: string, name: string,
                 normalizeLocation: string -> string)
    returns (err: Outcome)
    requires Key(resourceGroup, name) in store.records ==> store.records[Key(resourceGroup, name)].id.Some?
    modifies d, store`log
    ensures store.log == old(store.log) + [GetRequest(Key(resourceGroup, name))]
    ensures old(store.GetStatus(Key(resourceGroup, name))) == NotFound ==>
      err == Fail(ResourceNotFound) && d.id == old(d.id) && d.attributes == old(d.attributes)
    ensures old(store.GetStatus(Key(resourceGroup, name))) == Failure ==>
      err == Fail(RequestFailed(Reading)) && d.id == old(d.id) && d.attributes == old(d.attributes)
    ensures old(store.GetStatus(Key(resourceGroup, name))) == Success ==>
      var resp := store.records[Key(resourceGroup, name)];
      err == Pass && d.id == resp.id.value &&
      d.attributes == old(d.attributes) + Projection(resp, normalizeLocation)
  {
    var status, found := store.Get(Key(resourceGroup, name));
    if status == NotFound {
      return Fail(ResourceNotFound);
    }
    if status == Failure {
      return Fail(RequestFailed(Reading));
    }
    var resp := found.value;
    d.SetId(resp.id.value);
    SetProjection(d, resp, normalizeLocation);
    assert Projection(resp, normalizeLocation) ==
      LocationAttribute(resp, normalizeLocation) + ManagedAttribute(resp) + CountAttributes(resp);
    err := Pass;
  }
}
