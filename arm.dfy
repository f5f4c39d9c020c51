/**
 * The two collaborators every adapter works against: the resource's state as the host framework
 * keeps it (`schema.ResourceData`, reduced to an ID and attribute values), and the management
 * API, reduced to an in-memory store of records that logs every request it receives.
 */
module Arm {
  import opened Common

  /** An attribute value written with `d.Set`. */
  datatype Value =
    | Str(s: string)                        // a string
    | OptStr(o: Option<string>)             // a string pointer as the SDK returns it, possibly nil
    | Flag(b: bool)                         // a boolean
    | Blocks(items: seq<map<string, string>>) // a list of nested blocks, each a map from key to string

  /** The resource's ID and attribute values; an empty ID means "not in state". */
  class ResourceData {
    var id: string
    var attributes: map<string, Value>

    constructor (id: string, attributes: map<string, Value>)
      ensures this.id == id && this.attributes == attributes
    {
      this.id := id;
      this.attributes := attributes;
    }

    /** `d.SetId` */
    method SetId(v: string)
      modifies this`id
      ensures id == v
    {
      id := v;
    }

    /** `d.Set`: the attribute now holds `v`; every other attribute is unchanged. */
    method Set(key: string, v: Value)
      modifies this`attributes
      ensures attributes == old(attributes)[key := v]
    {
      attributes := attributes[key := v];
    }
  }

  lemma UnionAssociates3(a: map<string, Value>, b: map<string, Value>, c: map<string, Value>)
    ensures a + b + c == a + (b + c)
  {
  }

  lemma UnionAssociates(a: map<string, Value>, b: map<string, Value>, c: map<string, Value>, e: map<string, Value>)
    ensures a + b + c + e == a + (b + c + e)
  {
  }

  /** `d.Set(key, v)` when `write` holds. */
  method SetIf(d: ResourceData, write: bool, key: string, v: Value)
    modifies d`attributes
    ensures d.attributes == old(d.attributes) + (if write then map[key := v] else map[])
  {
    if write {
      d.Set(key, v);
    }
  }

  /** How the API answered a request, or how waiting for a long-running operation ended. */
  datatype Status = Success | NotFound | Failure

  /** A request the adapter sent to the API. */
  datatype Request<K, B> = GetRequest(key: K) | PutRequest(key: K, body: B) | DeleteRequest(key: K)

  predicate IsWrite<K, B>(r: Request<K, B>) {
    r.PutRequest? || r.DeleteRequest?
  }

  /** No request in `log` creates, updates or deletes anything. */
  predicate ReadOnly<K, B>(log: seq<Request<K, B>>) {
    forall i :: 0 <= i < |log| ==> !IsWrite(log[i])
  }

  /** What a Read leaves behind: its error, the ID and attributes of the state, and the requests it sent. */
  datatype ReadEffect<K, B> = ReadEffect(err: Outcome, id: string, attributes: map<string, Value>, requests: seq<Request<K, B>>)

  /**
   * The ID of an existing record that blocks a Create when resources must be imported: present
   * and non-empty. `idOf` reads a record's ID.
   */
  function ExistingId<K, R>(records: map<K, R>, k: K, idOf: R -> Option<string>): (id: Option<string>)
    ensures id.Some? <==> k in records && idOf(records[k]).Some? && idOf(records[k]).value != ""
    ensures id.Some? ==> id.value == idOf(records[k]).value
  {
    if k in records && idOf(records[k]).Some? && idOf(records[k]).value != "" then idOf(records[k]) else None
  }

  /**
   * The management API for one resource type: records by key; for each kind of request, the keys
   * on which it fails with an error other than 404; and how the service turns an accepted request
   * body into its record (given the record it held before, if any). The service side is not
   * modelled beyond that function.
   */
  class Store<K(==), B, R> {
    var records: map<K, R>
    const failingGets: set<K>
    const failingPuts: set<K>
    const failingDeletes: set<K>
    const apply: (Option<R>, B) -> R
    var log: seq<Request<K, B>>

    constructor (records: map<K, R>, failingGets: set<K>, failingPuts: set<K>, failingDeletes: set<K>,
                 apply: (Option<R>, B) -> R)
      ensures this.records == records && this.apply == apply && log == []
      ensures this.failingGets == failingGets && this.failingPuts == failingPuts && this.failingDeletes == failingDeletes
    {
      this.records := records;
      this.failingGets := failingGets;
      this.failingPuts := failingPuts;
      this.failingDeletes := failingDeletes;
      this.apply := apply;
      log := [];
    }

    /** The answer a Get for `k` receives in the current state. */
    function GetStatus(k: K): Status
      reads this
    {
      if k in failingGets then Failure else if k in records then Success else NotFound
    }

    /** The answer a delete request for `k` receives in the current state. */
    function DeleteStatus(k: K): Status
      reads this
    {
      if k in failingDeletes then Failure else if k in records then Success else NotFound
    }

    /** A Get: on `Success` the record, otherwise the zero response (no record). */
    method Get(k: K) returns (status: Status, found: Option<R>)
      modifies this`log
      ensures log == old(log) + [GetRequest(k)]
      ensures status == GetStatus(k)
      ensures found == if status == Success then Some(records[k]) else None
    {
      log := log + [GetRequest(k)];
      if k in failingGets {
        status, found := Failure, None;
      } else if k in records {
        status, found := Success, Some(records[k]);
      } else {
        status, found := NotFound, None;
      }
    }

    /** A create, create-or-update or update request. */
    method Put(k: K, body: B) returns (status: Status)
      modifies this`log, this`records
      ensures log == old(log) + [PutRequest(k, body)]
      ensures status == (if k in failingPuts then Failure else Success)
      ensures records == if k in failingPuts then old(records)
                         else old(records)[k := apply(if k in old(records) then Some(old(records)[k]) else None, body)]
    {
      log := log + [PutRequest(k, body)];
      if k in failingPuts {
        status := Failure;
      } else {
        var before := if k in records then Some(records[k]) else None;
        records := records[k := apply(before, body)];
        status := Success;
      }
    }

    /** A delete request: 404 when there is nothing to delete. */
    method Delete(k: K) returns (status: Status)
      modifies this`log, this`records
      ensures log == old(log) + [DeleteRequest(k)]
      ensures status == old(DeleteStatus(k))
      ensures records == if status == Success then old(records) - {k} else old(records)
    {
      log := log + [DeleteRequest(k)];
      if k in failingDeletes {
        status := Failure;
      } else if k in records {
        records := records - {k};
        status := Success;
      } else {
        status := NotFound;
      }
    }
  }
}
