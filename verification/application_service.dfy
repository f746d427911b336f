/** The application service: creates applications with a status decided by
    the workshop's auto-approve flag, lists them per student and per
    workshop, updates, approves, rejects and deletes them. Responses are
    written as JSON text and parsed back on every read; a stored text the
    parser rejects makes the read fail. */
module ApplicationService {
  import opened Wrappers
  import opened Json
  import opened Types
  import opened TypeGuards
  import opened Seqs
  import opened Store
  import opened WorkshopService

  // ---------------------------------------------------------------------
  // Record shaping and decoding
  // ---------------------------------------------------------------------

  /** The status a new application starts in. */
  function InitialStatus(w: Workshop): (status: string)
    ensures status == "approved" <==> w.autoApprove == Some(true)
    ensures status in ["approved", "pending"]
  {
    if w.autoApprove == Some(true) then "approved" else "pending"
  }

  /** `{ ...data, status, responses: JSON.stringify(data.responses) }`: the
      decided status whatever status the caller passed, the serialized
      responses, and the caller's other properties unchanged. */
  function ApplicationRecord(data: seq<Member>, status: string): (record: seq<Member>)
    ensures Lookup(record, "status") == Str(status)
    ensures Lookup(record, "responses") == Stringified(Lookup(data, "responses"))
    ensures forall k :: k != "status" && k != "responses" ==> Lookup(record, k) == Lookup(data, k)
  {
    var withStatus := Put(data, "status", Str(status));
    assert "status" != "responses";
    Put(withStatus, "responses", Stringified(Lookup(data, "responses")))
  }

  /** `{ ...data }` with `responses` serialized only when it is truthy. */
  function ApplicationUpdate(data: seq<Member>): (patch: seq<Member>)
    ensures Truthy(Lookup(data, "responses")) ==> Lookup(patch, "responses") == Str(Serialize(Lookup(data, "responses")))
    ensures !Truthy(Lookup(data, "responses")) ==> patch == data
    ensures forall k :: k != "responses" ==> Lookup(patch, k) == Lookup(data, k)
  {
    var responses := Lookup(data, "responses");
    if Truthy(responses) then Put(data, "responses", Str(Serialize(responses))) else data
  }

  /** The text `JSON.parse` is given: the stored value as text, `'{}'` when it is falsy. */
  function ResponsesText(stored: Value): string
  {
    if Truthy(stored) then ToText(stored) else "{}"
  }

  /** `parseApplication`: the document with `responses` replaced by what its
      text parses to. None where `JSON.parse` throws. */
  function ParseApplication(doc: Value): (r: Option<Value>)
    requires doc.Obj?
    ensures !Truthy(Get(doc, "responses")) ==> r == Some(Obj(Put(doc.members, "responses", Obj([]))))
    ensures Get(doc, "responses").Str? && Parse(Get(doc, "responses").s).None? && Truthy(Get(doc, "responses")) ==> r == None
    ensures r.Some? <==> Parse(ResponsesText(Get(doc, "responses"))).Some?
    ensures r.Some? ==> r.value.Obj?
    ensures r.Some? ==> Get(r.value, "responses") == Parse(ResponsesText(Get(doc, "responses"))).value
    ensures r.Some? ==> forall k :: k != "responses" ==> Get(r.value, k) == Get(doc, k)
  {
    assert Parse("{}") == Some(Obj([])) by {
      RoundTrip(Obj([]));
    }
    match Parse(ResponsesText(Get(doc, "responses")))
    case None => None
    case Some(parsed) => Some(Obj(Put(doc.members, "responses", parsed)))
  }

  /** `documents.map(parseApplication)`: fails as a whole when one document fails. */
  function ParsedAll(ds: seq<Document>): (r: Option<seq<Value>>)
    ensures r.Some? <==> forall i :: 0 <= i < |ds| ==> ParseApplication(DocumentValue(ds[i])).Some?
    ensures r.Some? ==> |r.value| == |ds|
    ensures r.Some? ==> forall i :: 0 <= i < |ds| ==> r.value[i] == ParseApplication(DocumentValue(ds[i])).value
  {
    if ds == [] then Some([])
    else
      match (ParseApplication(DocumentValue(ds[0])), ParsedAll(ds[1..]))
      case (Some(v), Some(vs)) => Some([v] + vs)
      case _ => None
  }

  predicate ByStudent(d: Document, studentId: string)
  {
    Lookup(d.data, "studentId") == Str(studentId)
  }

  predicate ForWorkshop(d: Document, workshopId: string)
  {
    Lookup(d.data, "workshopId") == Str(workshopId)
  }

  // ---------------------------------------------------------------------
  // The service
  // ---------------------------------------------------------------------

  class ApplicationService {
    const db: Database
    const workshops: WorkshopService

    constructor (db: Database)
      ensures this.db == db && workshops.db == db
    {
      this.db := db;
      workshops := new WorkshopService(db);
    }

    /** `createApplication`: fetches the workshop, decides the initial
        status from its auto-approve flag and stores the record. The id
        and creation time are inputs. */
    method CreateApplication(data: seq<Member>, id: string, createdAt: string) returns (r: Result<Document, string>)
      requires db.Valid() && workshops.db == db && Lookup(data, "workshopId").Str?
      modifies db
      ensures db.Valid() && db.online == old(db.online) && db.workshops == old(db.workshops)
      ensures r.Ok? <==> old(db.online) && Lookup(data, "workshopId").s in old(db.workshops.docs) && id !in old(db.applications.docs)
      ensures r.Ok? ==>
        var workshop := SafeParseWorkshop(DocumentValue(old(db.workshops.docs)[Lookup(data, "workshopId").s]));
        r.value == Document(id, createdAt, ApplicationRecord(data, InitialStatus(workshop)))
        && db.applications == Created(old(db.applications), r.value)
      ensures r.Err? ==> r.error == "Failed to create application" && db.applications == old(db.applications)
    {
      var workshop := workshops.GetWorkshop(Lookup(data, "workshopId").s);
      if workshop.Err? {
        return Err("Failed to create application");
      }
      var record := ApplicationRecord(data, InitialStatus(workshop.value));
      var created := db.CreateDocument(Applications, id, createdAt, record);
      if created.Err? {
        return Err("Failed to create application");
      }
      r := Ok(created.value);
    }

    /** `getApplicationsByStudent(studentId)`: the student's applications, newest first. */
    method GetApplicationsByStudent(studentId: string) returns (r: Result<seq<Value>, string>)
      requires db.Valid()
      ensures r.Ok? <==> db.online && ParsedAll(Query(db.applications, d => ByStudent(d, studentId))).Some?
      ensures r.Ok? ==> r.value == ParsedAll(Query(db.applications, d => ByStudent(d, studentId))).value
      ensures r.Err? ==> r.error == "Failed to fetch student applications"
    {
      var listed := db.ListDocuments(Applications, d => ByStudent(d, studentId));
      if listed.Err? {
        return Err("Failed to fetch student applications");
      }
      var parsed := ParsedAll(listed.value);
      if parsed.None? {
        return Err("Failed to fetch student applications");
      }
      r := Ok(parsed.value);
    }

    /** `getApplicationsByWorkshop(workshopId)`: the workshop's applications, newest first. */
    method GetApplicationsByWorkshop(workshopId: string) returns (r: Result<seq<Value>, string>)
      requires db.Valid()
      ensures r.Ok? <==> db.online && ParsedAll(Query(db.applications, d => ForWorkshop(d, workshopId))).Some?
      ensures r.Ok? ==> r.value == ParsedAll(Query(db.applications, d => ForWorkshop(d, workshopId))).value
      ensures r.Err? ==> r.error == "Failed to fetch workshop applications"
    {
      var listed := db.ListDocuments(Applications, d => ForWorkshop(d, workshopId));
      if listed.Err? {
        return Err("Failed to fetch workshop applications");
      }
      var parsed := ParsedAll(listed.value);
      if parsed.None? {
        return Err("Failed to fetch workshop applications");
      }
      r := Ok(parsed.value);
    }

    /** `updateApplication(applicationId, data)`. The write happens before
        the stored responses are parsed, so a parse failure reports an
        error for an update that did take place. */
    method UpdateApplication(applicationId: string, data: seq<Member>) returns (r: Result<Value, string>)
      requires db.Valid()
      modifies db
      ensures db.Valid() && db.online == old(db.online) && db.workshops == old(db.workshops)
      ensures old(db.online) && applicationId in old(db.applications.docs) ==>
        db.applications == Patched(old(db.applications), applicationId, ApplicationUpdate(data))
      ensures !(old(db.online) && applicationId in old(db.applications.docs)) ==> db.applications == old(db.applications) && r.Err?
      ensures r.Ok? <==>
        old(db.online) && applicationId in old(db.applications.docs)
        && ParseApplication(DocumentValue(db.applications.docs[applicationId])).Some?
      ensures r.Ok? ==> Some(r.value) == ParseApplication(DocumentValue(db.applications.docs[applicationId]))
      ensures r.Err? ==> r.error == "Failed to update application"
    {
      var updated := db.UpdateDocument(Applications, applicationId, ApplicationUpdate(data));
      if updated.Err? {
        return Err("Failed to update application");
      }
      var parsed := ParseApplication(DocumentValue(updated.value));
      if parsed.None? {
        return Err("Failed to update application");
      }
      r := Ok(parsed.value);
    }

    /** `approveApplication`: sets the status whatever it was before. */
    method ApproveApplication(applicationId: string) returns (r: Result<Value, string>)
      requires db.Valid()
      modifies db
      ensures db.Valid() && db.online == old(db.online) && db.workshops == old(db.workshops)
      ensures old(db.online) && applicationId in old(db.applications.docs) ==>
        db.applications == Patched(old(db.applications), applicationId, [Member("status", Str("approved"))])
      ensures !(old(db.online) && applicationId in old(db.applications.docs)) ==> db.applications == old(db.applications) && r.Err?
      ensures r.Ok? <==>
        old(db.online) && applicationId in old(db.applications.docs)
        && ParseApplication(DocumentValue(db.applications.docs[applicationId])).Some?
      ensures r.Ok? ==> Some(r.value) == ParseApplication(DocumentValue(db.applications.docs[applicationId]))
      ensures r.Err? ==> r.error == "Failed to update application"
    {
      r := UpdateApplication(applicationId, [Member("status", Str("approved"))]);
    }

    /** `rejectApplication`: sets the status whatever it was before. */
    method RejectApplication(applicationId: string) returns (r: Result<Value, string>)
      requires db.Valid()
      modifies db
      ensures db.Valid() && db.online == old(db.online) && db.workshops == old(db.workshops)
      ensures old(db.online) && applicationId in old(db.applications.docs) ==>
        db.applications == Patched(old(db.applications), applicationId, [Member("status", Str("rejected"))])
      ensures !(old(db.online) && applicationId in old(db.applications.docs)) ==> db.applications == old(db.applications) && r.Err?
      ensures r.Ok? <==>
        old(db.online) && applicationId in old(db.applications.docs)
        && ParseApplication(DocumentValue(db.applications.docs[applicationId])).Some?
      ensures r.Ok? ==> Some(r.value) == ParseApplication(DocumentValue(db.applications.docs[applicationId]))
      ensures r.Err? ==> r.error == "Failed to update application"
    {
      r := UpdateApplication(applicationId, [Member("status", Str("rejected"))]);
    }

    /** `deleteApplication`. */
    method DeleteApplication(applicationId: string) returns (r: Result<(), string>)
      requires db.Valid()
      modifies db
      ensures db.Valid() && db.online == old(db.online) && db.workshops == old(db.workshops)
      ensures r.Ok? <==> old(db.online) && applicationId in old(db.applications.docs)
      ensures r.Ok? ==> db.applications == Deleted(old(db.applications), applicationId)
      ensures r.Err? ==> r.error == "Failed to delete application" && db.applications == old(db.applications)
    {
      var deleted := db.DeleteDocument(Applications, applicationId);
      if deleted.Err? {
        return Err("Failed to delete application");
      }
      r := Ok(());
    }
  }

  // ---------------------------------------------------------------------
  // What the operations promise
  // ---------------------------------------------------------------------

  /** A new application is approved exactly when the stored workshop has
      `autoApprove` set to true, and pending otherwise. */
  lemma InitialStatusFromWorkshop(doc: Value)
    ensures InitialStatus(SafeParseWorkshop(doc)) == "approved" <==> Get(doc, "autoApprove") == Bool(true)
    ensures InitialStatus(SafeParseWorkshop(doc)) != "approved" ==> InitialStatus(SafeParseWorkshop(doc)) == "pending"
  {
  }

  /** Responses written at creation read back unchanged. */
  lemma ResponsesReadBack(data: seq<Member>, status: string, id: string, createdAt: string)
    requires IsJson(Lookup(data, "responses")) && Lookup(data, "responses") != Undefined
    ensures
      var doc := DocumentValue(Document(id, createdAt, ApplicationRecord(data, status)));
      ParseApplication(doc).Some? && Get(ParseApplication(doc).value, "responses") == Lookup(data, "responses")
  {
    var responses := Lookup(data, "responses");
    var d := Document(id, createdAt, ApplicationRecord(data, status));
    DocumentGet(d, "responses");
    SerializeStart(responses);
    RoundTrip(responses);
  }

  /** One stored application whose responses do not parse makes the whole listing fail. */
  lemma CorruptRecordFailsListing(ds: seq<Document>, i: nat)
    requires i < |ds| && ParseApplication(DocumentValue(ds[i])).None?
    ensures ParsedAll(ds).None?
  {
  }

  /** A student's listing holds only that student's applications. */
  lemma ListedByStudent(c: Collection, studentId: string)
    requires Consistent(c) && ParsedAll(Query(c, d => ByStudent(d, studentId))).Some?
    ensures var vs := ParsedAll(Query(c, d => ByStudent(d, studentId))).value;
      forall i :: 0 <= i < |vs| ==> Get(vs[i], "studentId") == Str(studentId)
  {
    var ds := Query(c, d => ByStudent(d, studentId));
    var vs := ParsedAll(ds).value;
    forall i | 0 <= i < |vs| ensures Get(vs[i], "studentId") == Str(studentId) {
      assert ds[i] in ds;
      ParsedProperty(ds[i], "studentId");
    }
  }

  /** Decoding leaves every stored property other than `responses` as it was. */
  lemma ParsedProperty(d: Document, k: string)
    requires k != "responses" && k != "$id" && k != "$createdAt"
    requires ParseApplication(DocumentValue(d)).Some?
    ensures Get(ParseApplication(DocumentValue(d)).value, k) == Lookup(d.data, k)
  {
    DocumentGet(d, k);
  }

  /** Approval and rejection overwrite the status and nothing else, from any status. */
  lemma StatusWrite(stored: seq<Member>, status: string, k: string)
    ensures Lookup(Assign(stored, [Member("status", Str(status))]), "status") == Str(status)
    ensures k != "status" ==> Lookup(Assign(stored, [Member("status", Str(status))]), k) == Lookup(stored, k)
  {
    AssignLookup(stored, [Member("status", Str(status))], k);
    AssignLookup(stored, [Member("status", Str(status))], "status");
  }

  /** An approved application decodes with the approved status. */
  lemma ApprovedDecodes(d: Document)
    ensures SafeParseApplication(DocumentValue(d.(data := Assign(d.data, [Member("status", Str("approved"))])))).status == Approved
  {
    var d' := d.(data := Assign(d.data, [Member("status", Str("approved"))]));
    StatusWrite(d.data, "approved", "status");
    DocumentGet(d', "status");
  }
}
