/** The document database the services talk to: two collections of
    documents (workshops and applications), each document an id, a creation
    time stamp and a property list. Listing returns documents newest first;
    an update assigns the given properties over the stored ones. */
module Store {
  import opened Wrappers
  import opened Json
  import opened Seqs

  datatype Document = Document(id: string, createdAt: string, data: seq<Member>)

  /** A document as the database hands it out: the system attributes `$id`
      and `$createdAt` ahead of the stored properties. */
  function DocumentValue(d: Document): (v: Value)
    ensures v.Obj?
  {
    Obj([Member("$id", Str(d.id))] + ([Member("$createdAt", Str(d.createdAt))] + d.data))
  }

  /** Reading a stored property through the handed-out document. */
  lemma DocumentGet(d: Document, k: string)
    requires k != "$id" && k != "$createdAt"
    ensures Get(DocumentValue(d), k) == Lookup(d.data, k)
  {
    LookupCons(Member("$id", Str(d.id)), [Member("$createdAt", Str(d.createdAt))] + d.data, k);
    LookupCons(Member("$createdAt", Str(d.createdAt)), d.data, k);
  }

  /** A collection: documents by id, and the ids in creation order. */
  datatype Collection = Collection(docs: map<string, Document>, order: seq<string>)

  const Empty := Collection(map[], [])

  /** Every document is listed once in the creation order under its own id. */
  ghost predicate Consistent(c: Collection)
  {
    && (forall id :: id in c.docs <==> id in c.order)
    && Distinct(c.order)
    && (forall id :: id in c.docs ==> c.docs[id].id == id)
  }

  lemma EmptyValid()
    ensures Consistent(Empty)
  {
  }

  function DocumentsIn(docs: map<string, Document>, ids: seq<string>): (ds: seq<Document>)
    requires forall id :: id in ids ==> id in docs
    ensures |ds| == |ids|
    ensures forall i :: 0 <= i < |ids| ==> ds[i] == docs[ids[i]]
  {
    if ids == [] then [] else [docs[ids[0]]] + DocumentsIn(docs, ids[1..])
  }

  /** All documents, newest first (`orderDesc('$createdAt')`). */
  function Newest(c: Collection): (ds: seq<Document>)
    requires Consistent(c)
    ensures |ds| == |c.order|
  {
    Reversed(DocumentsIn(c.docs, c.order))
  }

  /** `listDocuments` with an equality filter: the matching documents, newest first. */
  function Query(c: Collection, keep: Document -> bool): seq<Document>
    requires Consistent(c)
  {
    Filter(Newest(c), keep)
  }

  // ---------------------------------------------------------------------
  // Writes
  // ---------------------------------------------------------------------

  function Created(c: Collection, d: Document): Collection
    requires d.id !in c.docs
  {
    Collection(c.docs[d.id := d], c.order + [d.id])
  }

  /** A new document joins the collection and is the newest one. */
  lemma CreatedNewest(c: Collection, d: Document)
    requires Consistent(c) && d.id !in c.docs
    ensures Consistent(Created(c, d))
    ensures Newest(Created(c, d)) == [d] + Newest(c)
  {
    var c' := Created(c, d);
    assert Distinct(c'.order) by {
      forall i, j | 0 <= i < j < |c'.order| ensures c'.order[i] != c'.order[j] {
        if j == |c.order| {
          assert c.order[i] in c.docs;
        }
      }
    }
    assert DocumentsIn(c'.docs, c'.order) == DocumentsIn(c.docs, c.order) + [d];
  }

  /** Object assignment of each property of `patch` in turn. */
  function Assign(ms: seq<Member>, patch: seq<Member>): seq<Member>
    decreases |patch|
  {
    if patch == [] then ms else Assign(Put(ms, patch[0].key, patch[0].value), patch[1..])
  }

  /** After assignment a property reads as the patch has it when the patch
      carries it, and as before otherwise. */
  lemma {:induction false} AssignLookup(ms: seq<Member>, patch: seq<Member>, k: string)
    requires DistinctKeys(patch)
    ensures Lookup(Assign(ms, patch), k) == if k in Keys(patch) then Lookup(patch, k) else Lookup(ms, k)
    decreases |patch|
  {
    if patch != [] {
      var m := patch[0];
      DistinctHead(patch);
      AssignLookup(Put(ms, m.key, m.value), patch[1..], k);
      assert patch == [m] + patch[1..];
      KeysCons(m, patch[1..]);
      LookupCons(m, patch[1..], k);
    }
  }

  lemma {:induction false} AssignDistinct(ms: seq<Member>, patch: seq<Member>)
    requires DistinctKeys(ms)
    ensures DistinctKeys(Assign(ms, patch))
    decreases |patch|
  {
    if patch != [] {
      PutDistinct(ms, patch[0].key, patch[0].value);
      AssignDistinct(Put(ms, patch[0].key, patch[0].value), patch[1..]);
    }
  }

  function Patched(c: Collection, id: string, patch: seq<Member>): Collection
    requires id in c.docs
  {
    Collection(c.docs[id := c.docs[id].(data := Assign(c.docs[id].data, patch))], c.order)
  }

  /** An update changes the properties of one document and nothing else:
      same documents, same order. */
  lemma PatchedNewest(c: Collection, id: string, patch: seq<Member>)
    requires Consistent(c) && id in c.docs
    ensures Consistent(Patched(c, id, patch))
    ensures |Newest(Patched(c, id, patch))| == |Newest(c)|
    ensures forall i :: 0 <= i < |Newest(c)| ==>
      Newest(Patched(c, id, patch))[i] ==
        if Newest(c)[i].id == id then Newest(c)[i].(data := Assign(Newest(c)[i].data, patch)) else Newest(c)[i]
  {
    var c' := Patched(c, id, patch);
    PatchedConsistent(c, id, patch);
    PatchedDocuments(c, id, patch);
    var n := |c.order|;
    var ds := DocumentsIn(c.docs, c.order);
    var ds' := DocumentsIn(c'.docs, c.order);
    assert forall i :: 0 <= i < n ==> Newest(c)[i] == ds[n - 1 - i] && Newest(c')[i] == ds'[n - 1 - i];
  }

  lemma PatchedConsistent(c: Collection, id: string, patch: seq<Member>)
    requires Consistent(c) && id in c.docs
    ensures Consistent(Patched(c, id, patch))
  {
    var c' := Patched(c, id, patch);
    assert c'.docs.Keys == c.docs.Keys;
  }

  lemma PatchedDocuments(c: Collection, id: string, patch: seq<Member>)
    requires Consistent(c) && id in c.docs
    ensures forall i :: 0 <= i < |c.order| ==>
      DocumentsIn(Patched(c, id, patch).docs, c.order)[i] ==
        var d := DocumentsIn(c.docs, c.order)[i];
        if d.id == id then d.(data := Assign(d.data, patch)) else d
  {
    var c' := Patched(c, id, patch);
    assert c'.docs.Keys == c.docs.Keys;
  }

  function Deleted(c: Collection, id: string): Collection
  {
    Collection(c.docs - {id}, Filter(c.order, x => x != id))
  }

  /** A deletion removes exactly that document; the others stay in order. */
  lemma DeletedNewest(c: Collection, id: string)
    requires Consistent(c)
    ensures Consistent(Deleted(c, id))
    ensures Newest(Deleted(c, id)) == Filter(Newest(c), (d: Document) => d.id != id)
  {
    var c' := Deleted(c, id);
    FilterDistinct(c.order, x => x != id);
    DocumentsInFilter(c.docs, c.order, id);
    FilterReversed(DocumentsIn(c.docs, c.order), (d: Document) => d.id != id);
  }

  lemma {:induction false} DocumentsInFilter(docs: map<string, Document>, ids: seq<string>, id: string)
    requires forall x :: x in ids ==> x in docs
    requires forall x :: x in docs ==> docs[x].id == x
    ensures DocumentsIn(docs - {id}, Filter(ids, x => x != id)) == Filter(DocumentsIn(docs, ids), (d: Document) => d.id != id)
  {
    if ids != [] {
      DocumentsInFilter(docs, ids[1..], id);
      assert DocumentsIn(docs, ids)[1..] == DocumentsIn(docs, ids[1..]);
    }
  }

  // ---------------------------------------------------------------------
  // The database
  // ---------------------------------------------------------------------

  datatype Kind = Workshops | Applications

  function Other(k: Kind): Kind
  {
    if k == Workshops then Applications else Workshops
  }

  /** Why the database refused a request. */
  datatype StoreError = Unreachable | NotFound | Conflict

  class Database {
    var workshops: Collection
    var applications: Collection
    /** Whether the database answers at all; when it does not, every request fails. */
    var online: bool

    constructor (online: bool)
      ensures workshops == Empty && applications == Empty && this.online == online
      ensures Valid()
    {
      workshops := Empty;
      applications := Empty;
      this.online := online;
    }

    function Docs(k: Kind): Collection
      reads this
    {
      if k == Workshops then workshops else applications
    }

    ghost predicate Valid()
      reads this
    {
      Consistent(workshops) && Consistent(applications)
    }

    method Put(k: Kind, c: Collection)
      modifies this
      ensures Docs(k) == c && Docs(Other(k)) == old(Docs(Other(k))) && online == old(online)
    {
      if k == Workshops {
        workshops := c;
      } else {
        applications := c;
      }
    }

    /** `createDocument`: fails when the database is unreachable or the id is taken. */
    method CreateDocument(k: Kind, id: string, createdAt: string, data: seq<Member>) returns (r: Result<Document, StoreError>)
      requires Valid()
      modifies this
      ensures Valid() && online == old(online) && Docs(Other(k)) == old(Docs(Other(k)))
      ensures r.Ok? <==> old(online) && id !in old(Docs(k)).docs
      ensures r.Ok? ==> r.value == Document(id, createdAt, data) && Docs(k) == Created(old(Docs(k)), r.value)
      ensures r.Err? ==> Docs(k) == old(Docs(k))
    {
      if !online {
        return Err(Unreachable);
      }
      if id in Docs(k).docs {
        return Err(Conflict);
      }
      var d := Document(id, createdAt, data);
      CreatedNewest(Docs(k), d);
      Put(k, Created(Docs(k), d));
      r := Ok(d);
    }

    /** `getDocument`. */
    method GetDocument(k: Kind, id: string) returns (r: Result<Document, StoreError>)
      ensures r.Ok? <==> online && id in Docs(k).docs
      ensures r.Ok? ==> r.value == Docs(k).docs[id]
    {
      if !online {
        return Err(Unreachable);
      }
      if id !in Docs(k).docs {
        return Err(NotFound);
      }
      r := Ok(Docs(k).docs[id]);
    }

    /** `listDocuments` with equality filters and newest-first order. */
    method ListDocuments(k: Kind, keep: Document -> bool) returns (r: Result<seq<Document>, StoreError>)
      requires Valid()
      ensures r.Ok? <==> online
      ensures r.Ok? ==> r.value == Query(Docs(k), keep)
    {
      if !online {
        return Err(Unreachable);
      }
      r := Ok(Query(Docs(k), keep));
    }

    /** `updateDocument`: assigns the patch over the stored properties. */
    method UpdateDocument(k: Kind, id: string, patch: seq<Member>) returns (r: Result<Document, StoreError>)
      requires Valid()
      modifies this
      ensures Valid() && online == old(online) && Docs(Other(k)) == old(Docs(Other(k)))
      ensures r.Ok? <==> old(online) && id in old(Docs(k)).docs
      ensures r.Ok? ==> Docs(k) == Patched(old(Docs(k)), id, patch) && r.value == Docs(k).docs[id]
      ensures r.Err? ==> Docs(k) == old(Docs(k))
    {
      if !online {
        return Err(Unreachable);
      }
      if id !in Docs(k).docs {
        return Err(NotFound);
      }
      PatchedNewest(Docs(k), id, patch);
      Put(k, Patched(Docs(k), id, patch));
      r := Ok(Docs(k).docs[id]);
    }

    /** `deleteDocument`. */
    method DeleteDocument(k: Kind, id: string) returns (r: Result<(), StoreError>)
      requires Valid()
      modifies this
      ensures Valid() && online == old(online) && Docs(Other(k)) == old(Docs(Other(k)))
      ensures r.Ok? <==> old(online) && id in old(Docs(k)).docs
      ensures r.Ok? ==> Docs(k) == Deleted(old(Docs(k)), id)
      ensures r.Err? ==> Docs(k) == old(Docs(k))
    {
      if !online {
        return Err(Unreachable);
      }
      if id !in Docs(k).docs {
        return Err(NotFound);
      }
      DeletedNewest(Docs(k), id);
      Put(k, Deleted(Docs(k), id));
      r := Ok(());
    }
  }
}
