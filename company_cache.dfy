/**
 * The invoice service's read model of companies: a cache of company
 * documents keyed by id, kept up to date by the `company-events` consumer.
 *
 * A document is a map from field names to values. The consumer's update
 * `findByIdAndUpdate(id, { ...event.data, updatedAt }, { upsert: true })`
 * carries no update operators, so the store applies it as a `$set` of the
 * given fields: they are written over the stored document and the stored
 * fields the event does not mention stay as they were. The cache schema is
 * strict, so the fields it does not declare are dropped from the update,
 * and its `timestamps` option adds `createdAt` when the id is new.
 */
module CompanyCache {

  /** A field value of a cached document. */
  datatype Value = Str(s: string) | Strs(items: seq<string>) | Stamp(time: int) | Obj(fields: map<string, string>)

  type Doc = map<string, Value>

  /** A message of `company-events`: its `event` name, `data._id` and the other fields of `data`. */
  datatype CompanyEvent = CompanyEvent(event: string, id: string, data: Doc)

  const Created := "company.created"
  const Updated := "company.updated"
  const Deleted := "company.deleted"

  /** `{ ...event.data, updatedAt: now }`. */
  function Stamped(data: Doc, now: int): (d: Doc)
    ensures d.Keys == data.Keys + {"updatedAt"}
    ensures d["updatedAt"] == Stamp(now)
    ensures forall k :: k in data && k != "updatedAt" ==> d[k] == data[k]
  {
    data["updatedAt" := Stamp(now)]
  }

  /** A `$set` of `update` over `stored`: the update's fields win. */
  function SetFields(stored: Doc, update: Doc): (d: Doc)
    ensures d.Keys == stored.Keys + update.Keys
    ensures forall k :: k in update ==> d[k] == update[k]
    ensures forall k :: k in stored && k !in update ==> d[k] == stored[k]
  {
    stored + update
  }

  /** The paths the cache schema declares and an update may set (`createdAt` is set on insert only). */
  const CachePaths: set<string> :=
    {"name", "email", "phone", "gstin", "hallMarkNumber", "address", "bank", "termsConditions", "tenantId", "updatedAt"}

  /** The fields of `d` the schema declares: strict mode drops the others. */
  function Declared(d: Doc): (r: Doc)
    ensures r.Keys == d.Keys * CachePaths
    ensures forall k :: k in r ==> r[k] == d[k]
  {
    map k | k in d.Keys * CachePaths :: d[k]
  }

  /** The update the store applies: the stamped event data, cut to the schema. */
  function CacheUpdate(data: Doc, now: int): (u: Doc)
    ensures u.Keys == (data.Keys * CachePaths) + {"updatedAt"}
    ensures u["updatedAt"] == Stamp(now)
    ensures forall k :: k in data && k in CachePaths && k != "updatedAt" ==> u[k] == data[k]
  {
    Declared(Stamped(data, now))
  }

  /** The upsert of the created/updated branch; a new entry starts from its `createdAt`. */
  function Upserted(cache: map<string, Doc>, id: string, data: Doc, now: int): map<string, Doc> {
    var stored := if id in cache then cache[id] else map["createdAt" := Stamp(now)];
    cache[id := SetFields(stored, CacheUpdate(data, now))]
  }

  /**
   * What one message does to the cache, with `company.deleted` removing the
   * entry as evidently intended. Any other event name matches no case of
   * the `switch`.
   */
  function Applied(cache: map<string, Doc>, e: CompanyEvent, now: int): (c: map<string, Doc>)
    ensures e.event == Created || e.event == Updated ==> c.Keys == cache.Keys + {e.id}
    ensures e.event == Deleted ==> c.Keys == cache.Keys - {e.id}
    ensures forall id :: id != e.id ==> (id in c <==> id in cache)
  {
    if e.event == Created || e.event == Updated then Upserted(cache, e.id, e.data, now)
    else if e.event == Deleted then cache - {e.id}
    else cache
  }

  /** The outcome of the handler: it returns, or it throws with this message. */
  datatype Outcome = Handled | Threw(message: string)

  /** The consumer's store. */
  class Consumer {
    var cache: map<string, Doc>

    constructor ()
      ensures cache == map[]
    {
      cache := map[];
    }

    /**
     * The `eachMessage` handler as written: the delete branch names
     * `CompanyCache`, which is never defined, so it throws a reference
     * error and the entry stays.
     */
    method EachMessageAsWritten(e: CompanyEvent, now: int) returns (outcome: Outcome)
      modifies this
      ensures e.event == Deleted ==> outcome == Threw("CompanyCache is not defined") && cache == old(cache)
      ensures e.event != Deleted ==> outcome == Handled && cache == Applied(old(cache), e, now)
    {
      if e.event == Created || e.event == Updated {
        cache := Upserted(cache, e.id, e.data, now);
        outcome := Handled;
      } else if e.event == Deleted {
        outcome := Threw("CompanyCache is not defined");
      } else {
        outcome := Handled;
      }
    }

    /** The handler with the delete branch removing the entry. */
    method EachMessage(e: CompanyEvent, now: int)
      modifies this
      ensures cache == Applied(old(cache), e, now)
    {
      match e.event {
        case "company.created" =>
          cache := Upserted(cache, e.id, e.data, now);
        case "company.updated" =>
          cache := Upserted(cache, e.id, e.data, now);
        case "company.deleted" =>
          cache := cache - {e.id};
        case _ =>
      }
    }
  }

  // ---------------------------------------------------------------------
  // Properties of one message and of message sequences
  // ---------------------------------------------------------------------

  /**
   * After a created or updated event the entry holds the event's declared
   * fields and the processing time. A new entry holds nothing else but its
   * creation time, the same time.
   */
  lemma UpsertContents(cache: map<string, Doc>, e: CompanyEvent, now: int)
    requires e.event == Created || e.event == Updated
    ensures e.id in Applied(cache, e, now)
    ensures var d := Applied(cache, e, now)[e.id];
      d["updatedAt"] == Stamp(now) &&
      (forall k :: k in e.data && k in CachePaths && k != "updatedAt" ==> d[k] == e.data[k]) &&
      (e.id !in cache ==>
        d.Keys == (e.data.Keys * CachePaths) + {"updatedAt", "createdAt"} && d["createdAt"] == Stamp(now))
  {
    var u := CacheUpdate(e.data, now);
    var stored := if e.id in cache then cache[e.id] else map["createdAt" := Stamp(now)];
    assert Applied(cache, e, now) == cache[e.id := SetFields(stored, u)];
    if e.id !in cache {
      CreatedAtUndeclared();
      assert "createdAt" !in u;
    }
  }

  /** The schema leaves `createdAt` to its timestamps. */
  lemma CreatedAtUndeclared()
    ensures "createdAt" !in CachePaths
  {
  }

  /** "company.created" and "company.updated" do the same thing. */
  lemma CreatedIsUpdated(cache: map<string, Doc>, id: string, data: Doc, now: int)
    ensures Applied(cache, CompanyEvent(Created, id, data), now) == Applied(cache, CompanyEvent(Updated, id, data), now)
  {
  }

  /** No message touches an entry with another id. */
  lemma OtherEntriesUnchanged(cache: map<string, Doc>, e: CompanyEvent, now: int, id: string)
    requires id != e.id && id in cache
    ensures id in Applied(cache, e, now) && Applied(cache, e, now)[id] == cache[id]
  {
  }

  /** An event name the `switch` does not list leaves the cache as it was. */
  lemma UnknownEventIgnored(cache: map<string, Doc>, e: CompanyEvent, now: int)
    requires e.event != Created && e.event != Updated && e.event != Deleted
    ensures Applied(cache, e, now) == cache
  {
  }

  /**
   * Redelivery: handling the same created/updated message again changes
   * only the entry's `updatedAt`; the `createdAt` of a first insert stays.
   */
  lemma RedeliveryIdempotent(cache: map<string, Doc>, e: CompanyEvent, t1: int, t2: int)
    requires e.event == Created || e.event == Updated
    ensures var once := Applied(cache, e, t1);
      e.id in once && Applied(once, e, t2) == once[e.id := once[e.id]["updatedAt" := Stamp(t2)]]
  {
    var once := Applied(cache, e, t1);
    var d1 := once[e.id];
    var u1, u2 := CacheUpdate(e.data, t1), CacheUpdate(e.data, t2);
    assert Applied(once, e, t2) == once[e.id := SetFields(d1, u2)];
    Restamp(d1, u1, u2, Stamp(t2));
  }

  /** Setting again the fields of an update that differs only in `updatedAt` moves only `updatedAt`. */
  lemma Restamp(d: Doc, a: Doc, b: Doc, stamp: Value)
    requires a.Keys == b.Keys && "updatedAt" in b && b["updatedAt"] == stamp
    requires forall k :: k in a ==> k in d && d[k] == a[k]
    requires forall k :: k in a && k != "updatedAt" ==> a[k] == b[k]
    ensures SetFields(d, b) == d["updatedAt" := stamp]
  {
    var x, y := SetFields(d, b), d["updatedAt" := stamp];
    assert x.Keys == y.Keys;
    forall k | k in x ensures x[k] == y[k] {
      if k in b && k != "updatedAt" {
        assert x[k] == a[k];
      }
    }
  }

  /**
   * No ordering guard: whatever a later message says about a field is what
   * the entry holds, even when the earlier message described a newer state.
   */
  lemma LastWriterWins(cache: map<string, Doc>, first: CompanyEvent, second: CompanyEvent, t1: int, t2: int, k: string)
    requires second.event == Created || second.event == Updated
    requires k in second.data && k in CachePaths && k != "updatedAt"
    ensures var c := Applied(Applied(cache, first, t1), second, t2);
      second.id in c && k in c[second.id] && c[second.id][k] == second.data[k]
  {
  }

  /**
   * A delete followed by a create for the same id holds exactly the new
   * message's declared fields, its time and a fresh creation time.
   */
  lemma DeleteThenCreate(cache: map<string, Doc>, id: string, gone: Doc, data: Doc, t1: int, t2: int)
    ensures var c := Applied(Applied(cache, CompanyEvent(Deleted, id, gone), t1), CompanyEvent(Created, id, data), t2);
      id in c && c[id] == CacheUpdate(data, t2)["createdAt" := Stamp(t2)]
  {
    var c0 := Applied(cache, CompanyEvent(Deleted, id, gone), t1);
    assert id !in c0;
    var u := CacheUpdate(data, t2);
    assert Applied(c0, CompanyEvent(Created, id, data), t2) == c0[id := SetFields(map["createdAt" := Stamp(t2)], u)];
    CreatedAtUndeclared();
    assert "createdAt" !in u;
    Inserted(u, Stamp(t2));
  }

  /** A `$set` over a document holding only `createdAt` adds the update's fields to it. */
  lemma Inserted(u: Doc, created: Value)
    requires "createdAt" !in u
    ensures SetFields(map["createdAt" := created], u) == u["createdAt" := created]
  {
    var x, y := SetFields(map["createdAt" := created], u), u["createdAt" := created];
    assert x.Keys == y.Keys;
  }
}
