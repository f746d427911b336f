/** The workshop service: creates, lists, reads, updates, deletes and
    searches workshop documents. Embedded application forms are written as
    their JSON text, properties whose value is `undefined` are dropped
    before a write, and every read decodes documents with the safe workshop
    parser. Every failure surfaces as one fixed message per operation. */
module WorkshopService {
  import opened Wrappers
  import opened Json
  import opened Types
  import opened TypeGuards
  import opened Seqs
  import opened Store

  // ---------------------------------------------------------------------
  // Record shaping
  // ---------------------------------------------------------------------

  /** `JSON.stringify(v)` as a property value: `undefined` stays `undefined`. */
  function Stringified(v: Value): (r: Value)
    ensures v == Undefined <==> r == Undefined
    ensures v != Undefined ==> r == Str(Serialize(v))
  {
    if v == Undefined then Undefined else Str(Serialize(v))
  }

  /** `{ ...data, applicationForm: JSON.stringify(data.applicationForm) }`. */
  function CreateData(data: seq<Member>): (record: seq<Member>)
    ensures Lookup(record, "applicationForm") == Stringified(Lookup(data, "applicationForm"))
    ensures forall k :: k != "applicationForm" ==> Lookup(record, k) == Lookup(data, k)
  {
    Put(data, "applicationForm", Stringified(Lookup(data, "applicationForm")))
  }

  /** `{ ...data }` with `applicationForm` serialized only when it is truthy. */
  function UpdateData(data: seq<Member>): (patch: seq<Member>)
    ensures Truthy(Lookup(data, "applicationForm")) ==>
      Lookup(patch, "applicationForm") == Str(Serialize(Lookup(data, "applicationForm")))
    ensures !Truthy(Lookup(data, "applicationForm")) ==> patch == data
    ensures forall k :: k != "applicationForm" ==> Lookup(patch, k) == Lookup(data, k)
  {
    var form := Lookup(data, "applicationForm");
    if Truthy(form) then Put(data, "applicationForm", Str(Serialize(form))) else data
  }

  // ---------------------------------------------------------------------
  // Filters the listings use
  // ---------------------------------------------------------------------

  /** `Query.equal('status', 'published')`. */
  predicate IsPublished(d: Document)
  {
    Lookup(d.data, "status") == Str("published")
  }

  /** `Query.equal('masterId', masterId)`. */
  predicate OwnedBy(d: Document, masterId: string)
  {
    Lookup(d.data, "masterId") == Str(masterId)
  }

  /** The search filter: published, a title the store's full-text search
      matches, and the exact category when a non-empty one is given. */
  predicate SearchHit(d: Document, matches: (Value, string) -> bool, query: string, category: Option<string>)
  {
    && IsPublished(d)
    && matches(Lookup(d.data, "title"), query)
    && (category.Some? && category.value != "" ==> Lookup(d.data, "category") == Str(category.value))
  }

  /** `documents.map(doc => safeParseWorkshop(doc))`. */
  function Decoded(ds: seq<Document>): (ws: seq<Workshop>)
    ensures |ws| == |ds|
    ensures forall i :: 0 <= i < |ds| ==> ws[i] == SafeParseWorkshop(DocumentValue(ds[i]))
  {
    seq(|ds|, i requires 0 <= i < |ds| => SafeParseWorkshop(DocumentValue(ds[i])))
  }

  // ---------------------------------------------------------------------
  // The service
  // ---------------------------------------------------------------------

  class WorkshopService {
    const db: Database

    constructor (db: Database)
      ensures this.db == db
    {
      this.db := db;
    }

    /** `createWorkshop`: the id is the one `ID.unique()` would produce and
        `createdAt` the database clock, both inputs here. */
    method CreateWorkshop(data: seq<Member>, id: string, createdAt: string) returns (r: Result<Document, string>)
      requires db.Valid() && DistinctKeys(data)
      modifies db
      ensures db.Valid() && db.online == old(db.online) && db.applications == old(db.applications)
      ensures r.Ok? <==> old(db.online) && id !in old(db.workshops.docs)
      ensures r.Ok? ==> r.value == Document(id, createdAt, Defined(CreateData(data)))
      ensures r.Ok? ==> db.workshops == Created(old(db.workshops), r.value)
      ensures r.Err? ==> r.error == "Failed to create workshop" && db.workshops == old(db.workshops)
    {
      var createData := CreateData(data);
      PutDistinct(data, "applicationForm", Stringified(Lookup(data, "applicationForm")));
      var cleanData := RemoveUndefinedValues(createData);
      var created := db.CreateDocument(Workshops, id, createdAt, cleanData);
      if created.Err? {
        return Err("Failed to create workshop");
      }
      r := Ok(created.value);
    }

    /** `getWorkshops(limit, offset)`: one page of the published workshops,
        newest first, and how many published workshops there are. */
    method GetWorkshops(limit: nat, offset: nat) returns (r: Result<(seq<Workshop>, nat), string>)
      requires db.Valid()
      ensures r.Ok? <==> db.online
      ensures r.Ok? ==> r.value.0 == Decoded(Window(Query(db.workshops, IsPublished), offset, limit))
      ensures r.Ok? ==> r.value.1 == |Query(db.workshops, IsPublished)|
      ensures r.Err? ==> r.error == "Failed to fetch workshops"
    {
      var listed := db.ListDocuments(Workshops, IsPublished);
      if listed.Err? {
        return Err("Failed to fetch workshops");
      }
      r := Ok((Decoded(Window(listed.value, offset, limit)), |listed.value|));
    }

    /** `getWorkshopsByMaster(masterId)`: the master's workshops in every status, newest first. */
    method GetWorkshopsByMaster(masterId: string) returns (r: Result<seq<Workshop>, string>)
      requires db.Valid()
      ensures r.Ok? <==> db.online
      ensures r.Ok? ==> r.value == Decoded(Query(db.workshops, d => OwnedBy(d, masterId)))
      ensures r.Err? ==> r.error == "Failed to fetch master workshops"
    {
      var listed := db.ListDocuments(Workshops, d => OwnedBy(d, masterId));
      if listed.Err? {
        return Err("Failed to fetch master workshops");
      }
      r := Ok(Decoded(listed.value));
    }

    /** `getWorkshop(workshopId)`. */
    method GetWorkshop(workshopId: string) returns (r: Result<Workshop, string>)
      ensures r.Ok? <==> db.online && workshopId in db.workshops.docs
      ensures r.Ok? ==> r.value == SafeParseWorkshop(DocumentValue(db.workshops.docs[workshopId]))
      ensures r.Err? ==> r.error == "Failed to fetch workshop"
    {
      var got := db.GetDocument(Workshops, workshopId);
      if got.Err? {
        return Err("Failed to fetch workshop");
      }
      r := Ok(SafeParseWorkshop(DocumentValue(got.value)));
    }

    /** `updateWorkshop(workshopId, data)`: assigns the defined properties of
        the update over the stored ones and decodes the result. */
    method UpdateWorkshop(workshopId: string, data: seq<Member>) returns (r: Result<Workshop, string>)
      requires db.Valid() && DistinctKeys(data)
      modifies db
      ensures db.Valid() && db.online == old(db.online) && db.applications == old(db.applications)
      ensures r.Ok? <==> old(db.online) && workshopId in old(db.workshops.docs)
      ensures r.Ok? ==> db.workshops == Patched(old(db.workshops), workshopId, Defined(UpdateData(data)))
      ensures r.Ok? ==> r.value == SafeParseWorkshop(DocumentValue(db.workshops.docs[workshopId]))
      ensures r.Err? ==> r.error == "Failed to update workshop" && db.workshops == old(db.workshops)
    {
      var updateData := UpdateData(data);
      PutDistinct(data, "applicationForm", Str(Serialize(Lookup(data, "applicationForm"))));
      var cleanData := RemoveUndefinedValues(updateData);
      var updated := db.UpdateDocument(Workshops, workshopId, cleanData);
      if updated.Err? {
        return Err("Failed to update workshop");
      }
      r := Ok(SafeParseWorkshop(DocumentValue(updated.value)));
    }

    /** `deleteWorkshop(workshopId)`. */
    method DeleteWorkshop(workshopId: string) returns (r: Result<(), string>)
      requires db.Valid()
      modifies db
      ensures db.Valid() && db.online == old(db.online) && db.applications == old(db.applications)
      ensures r.Ok? <==> old(db.online) && workshopId in old(db.workshops.docs)
      ensures r.Ok? ==> db.workshops == Deleted(old(db.workshops), workshopId)
      ensures r.Err? ==> r.error == "Failed to delete workshop" && db.workshops == old(db.workshops)
    {
      var deleted := db.DeleteDocument(Workshops, workshopId);
      if deleted.Err? {
        return Err("Failed to delete workshop");
      }
      r := Ok(());
    }

    /** `searchWorkshops(query, category)`. `matches` stands for the
        store's full-text search on the title. */
    method SearchWorkshops(matches: (Value, string) -> bool, query: string, category: Option<string>)
      returns (r: Result<seq<Workshop>, string>)
      requires db.Valid()
      ensures r.Ok? <==> db.online
      ensures r.Ok? ==> r.value == Decoded(Query(db.workshops, d => SearchHit(d, matches, query, category)))
      ensures r.Err? ==> r.error == "Failed to search workshops"
    {
      var listed := db.ListDocuments(Workshops, d => SearchHit(d, matches, query, category));
      if listed.Err? {
        return Err("Failed to search workshops");
      }
      r := Ok(Decoded(listed.value));
    }
  }

  // ---------------------------------------------------------------------
  // What the operations promise
  // ---------------------------------------------------------------------

  /** A created workshop is stored without `undefined` properties; every
      other property reads as in the input, and a form given as fields
      reads back as the same fields. */
  lemma CreatedWorkshop(data: seq<Member>, k: string)
    requires DistinctKeys(data)
    ensures forall i :: 0 <= i < |Defined(CreateData(data))| ==> !Defined(CreateData(data))[i].value.Undefined?
    ensures k != "applicationForm" ==> Lookup(Defined(CreateData(data)), k) == Lookup(data, k)
    ensures Lookup(Defined(CreateData(data)), "applicationForm") == Stringified(Lookup(data, "applicationForm"))
  {
    PutDistinct(data, "applicationForm", Stringified(Lookup(data, "applicationForm")));
    DefinedLookup(CreateData(data), k);
    DefinedLookup(CreateData(data), "applicationForm");
  }

  /** The form of a created workshop decodes to the fields it was created with. */
  lemma CreatedFormReadsBack(data: seq<Member>, fields: seq<FormField>, id: string, createdAt: string)
    requires DistinctKeys(data) && Lookup(data, "applicationForm") == FormValue(fields)
    ensures SafeParseWorkshop(DocumentValue(Document(id, createdAt, Defined(CreateData(data))))).applicationForm == fields
  {
    var d := Document(id, createdAt, Defined(CreateData(data)));
    CreatedWorkshop(data, "applicationForm");
    DocumentGet(d, "applicationForm");
    FormRoundTrip(fields);
  }

  /** After an update a property reads as the update has it when the update
      defines it, and keeps its stored value otherwise. */
  lemma UpdatedProperty(stored: seq<Member>, data: seq<Member>, k: string)
    requires DistinctKeys(data)
    ensures Lookup(Assign(stored, Defined(UpdateData(data))), k)
      == if Lookup(UpdateData(data), k) == Undefined then Lookup(stored, k) else Lookup(UpdateData(data), k)
  {
    var u := UpdateData(data);
    PutDistinct(data, "applicationForm", Str(Serialize(Lookup(data, "applicationForm"))));
    DefinedDistinct(u);
    AssignLookup(stored, Defined(u), k);
    DefinedExactKeys(u, k);
    DefinedLookup(u, k);
    if k !in Keys(u) {
      LookupAbsent(u, k);
    }
  }

  /** Only published workshops are listed, at most `limit` of them. */
  lemma ListedArePublished(c: Collection, offset: nat, limit: nat)
    requires Consistent(c)
    ensures |Decoded(Window(Query(c, IsPublished), offset, limit))| <= limit
    ensures forall w :: w in Decoded(Window(Query(c, IsPublished), offset, limit)) ==> w.status == Published
  {
    var page := Window(Query(c, IsPublished), offset, limit);
    forall i | 0 <= i < |page| ensures SafeParseWorkshop(DocumentValue(page[i])).status == Published {
      assert page[i] in Query(c, IsPublished);
      DocumentGet(page[i], "status");
    }
  }

  /** The master's listing holds exactly the master's workshops. */
  lemma ListedAreOwned(c: Collection, masterId: string, d: Document)
    requires Consistent(c)
    ensures d in Query(c, d' => OwnedBy(d', masterId)) <==> d in Newest(c) && OwnedBy(d, masterId)
    ensures OwnedBy(d, masterId) ==> SafeParseWorkshop(DocumentValue(d)).masterId == masterId
  {
    DocumentGet(d, "masterId");
  }

  /** A search without a category, or with the empty one, filters on status and title only. */
  lemma SearchCategoryOptional(d: Document, matches: (Value, string) -> bool, query: string, category: Option<string>)
    requires category == None || category == Some("")
    ensures SearchHit(d, matches, query, category) <==> IsPublished(d) && matches(Lookup(d.data, "title"), query)
  {
  }

  /** Every search hit is a published workshop of the requested category. */
  lemma SearchHitsArePublished(c: Collection, matches: (Value, string) -> bool, query: string, category: Option<string>)
    requires Consistent(c)
    ensures forall w :: w in Decoded(Query(c, d => SearchHit(d, matches, query, category))) ==>
      w.status == Published && (category.Some? && category.value != "" ==> w.category == category.value)
  {
    var hits := Query(c, d => SearchHit(d, matches, query, category));
    forall i | 0 <= i < |hits|
      ensures SafeParseWorkshop(DocumentValue(hits[i])).status == Published
      ensures category.Some? && category.value != "" ==> SafeParseWorkshop(DocumentValue(hits[i])).category == category.value
    {
      assert hits[i] in hits;
      DocumentGet(hits[i], "status");
      DocumentGet(hits[i], "category");
    }
  }
}
