/** The master's "create workshop" page: the form schema, the access gate,
    the image upload and the record handed to the workshop service. */
module CreateWorkshopPage {
  import opened Wrappers
  import opened Json
  import opened Types
  import opened TypeGuards
  import opened Store
  import opened WorkshopService

  // ---------------------------------------------------------------------
  // The form and its schema
  // ---------------------------------------------------------------------

  /** The form's values; an optional input the user never touched is `None`. */
  datatype WorkshopForm = WorkshopForm(
    title: string,
    description: string,
    category: string,
    location: string,
    price: Option<string>,
    capacity: Option<string>,
    startDate: Option<string>,
    endDate: Option<string>,
    formColor: Option<string>,
    autoApprove: Option<bool>)

  /** The values the schema accepts; the optional inputs have no rule. */
  predicate SchemaAccepts(f: WorkshopForm)
  {
    |f.title| >= 1 && |f.description| >= 10 && |f.category| >= 1 && |f.location| >= 1
  }

  /** The schema's issues in declaration order. */
  function SchemaIssues(f: WorkshopForm): (issues: seq<Issue>)
    ensures issues == [] <==> SchemaAccepts(f)
    ensures Issue("title", "Title is required") in issues <==> |f.title| < 1
    ensures Issue("description", "Description must be at least 10 characters") in issues <==> |f.description| < 10
    ensures Issue("category", "Category is required") in issues <==> |f.category| < 1
    ensures Issue("location", "Location is required") in issues <==> |f.location| < 1
    ensures |issues| <= 4
  {
    (if |f.title| < 1 then [Issue("title", "Title is required")] else [])
    + (if |f.description| < 10 then [Issue("description", "Description must be at least 10 characters")] else [])
    + (if |f.category| < 1 then [Issue("category", "Category is required")] else [])
    + (if |f.location| < 1 then [Issue("location", "Location is required")] else [])
  }

  // ---------------------------------------------------------------------
  // The access gate
  // ---------------------------------------------------------------------

  datatype Screen = AccessDenied | CreateForm

  /** Only a signed-in master sees the form; everybody else sees "Access denied". */
  function ScreenFor(user: Option<User>): (s: Screen)
    ensures s == CreateForm ==> user.Some? && user.value.role == Master
    ensures user.None? ==> s == AccessDenied
    ensures user.Some? && user.value.role != Master ==> s == AccessDenied
  {
    if user.Some? && user.value.role == Master then CreateForm else AccessDenied
  }

  // ---------------------------------------------------------------------
  // parseInt
  // ---------------------------------------------------------------------

  predicate IsSpace(c: char)
  {
    c == ' ' || c == '\t' || c == '\n' || c == '\r'
  }

  /** The text after its leading white space. */
  function TrimStart(s: string): (r: string)
    ensures |r| <= |s| && r == s[|s| - |r|..]
    ensures r == [] || !IsSpace(r[0])
    ensures forall i :: 0 <= i < |s| - |r| ==> IsSpace(s[i])
  {
    if s != [] && IsSpace(s[0]) then
      var r := TrimStart(s[1..]);
      assert forall i :: 1 <= i < |s| - |r| ==> s[i] == s[1..][i - 1];
      r
    else s
  }

  /** The number a leading numeral denotes, `NaN` when there is none. */
  function LeadingNumber(s: string): (n: Number)
  {
    match ParseNumber(s)
    case Some((Num(v), _)) => Int(v)
    case _ => NotANumber
  }

  /** `parseInt(s)` in base ten: leading white space, an optional sign,
      then as many decimal digits as there are. */
  function ParseInt(s: string): (n: Number)
    ensures var t := TrimStart(s);
      t == [] || !(IsDigit(t[0]) || t[0] == '+' || t[0] == '-') ==> n == NotANumber
  {
    var t := TrimStart(s);
    if t != [] && t[0] == '+' then
      if |t| > 1 && t[1] == '-' then NotANumber else LeadingNumber(t[1..])
    else LeadingNumber(t)
  }

  lemma TrimStartNoSpace(s: string)
    requires s != [] && !IsSpace(s[0])
    ensures TrimStart(s) == s
  {
  }

  /** `parseInt` reads back the decimal text of every integer, whatever
      non-digit text follows it. */
  lemma ParseIntText(n: int, rest: string)
    requires rest == [] || !IsDigit(rest[0])
    ensures ParseInt(IntText(n) + rest) == Int(n)
  {
    var s := IntText(n) + rest;
    IntTextStart(n);
    IntTextParse(n, rest);
    assert s[0] == IntText(n)[0];
    TrimStartNoSpace(s);
  }

  // ---------------------------------------------------------------------
  // The image URL
  // ---------------------------------------------------------------------

  const BucketPath := "/storage/buckets/workshop-images/files/"
  const ViewPath := "/view?project="

  /** The public view URL of a stored image. */
  function ImageUrl(endpoint: string, fileId: string, projectId: string): (url: string)
    ensures |url| == |endpoint| + |BucketPath| + |fileId| + |ViewPath| + |projectId|
  {
    endpoint + BucketPath + fileId + ViewPath + projectId
  }

  /** The file id inside a view URL built for this endpoint and project. */
  function ImageFileId(endpoint: string, projectId: string, url: string): Option<string>
  {
    var pre := endpoint + BucketPath;
    var post := ViewPath + projectId;
    if |pre| + |post| <= |url| && url[..|pre|] == pre && url[|url| - |post|..] == post then
      Some(url[|pre|..|url| - |post|])
    else None
  }

  /** The URL names the stored file: the file id is recovered from it. */
  lemma ImageUrlRoundTrip(endpoint: string, fileId: string, projectId: string)
    ensures ImageFileId(endpoint, projectId, ImageUrl(endpoint, fileId, projectId)) == Some(fileId)
  {
    var url := ImageUrl(endpoint, fileId, projectId);
    var pre := endpoint + BucketPath;
    var post := ViewPath + projectId;
    assert url == pre + fileId + post;
    assert url[..|pre|] == pre;
    assert url[|url| - |post|..] == post;
    assert url[|pre|..|url| - |post|] == fileId;
  }

  /** Two different files never share a URL. */
  lemma ImageUrlInjective(endpoint: string, a: string, b: string, projectId: string)
    ensures ImageUrl(endpoint, a, projectId) == ImageUrl(endpoint, b, projectId) ==> a == b
  {
    ImageUrlRoundTrip(endpoint, a, projectId);
    ImageUrlRoundTrip(endpoint, b, projectId);
  }

  /** What `uploadImage` yields: nothing without an image or when the
      storage call fails (`stored == None`), the view URL otherwise. */
  function UploadResult(image: Option<string>, stored: Option<string>, endpoint: string, projectId: string): (url: Option<string>)
    ensures url.Some? <==> image.Some? && stored.Some?
    ensures url.Some? ==> ImageFileId(endpoint, projectId, url.value) == stored
  {
    if image.None? || stored.None? then None
    else
      ImageUrlRoundTrip(endpoint, stored.value, projectId);
      Some(ImageUrl(endpoint, stored.value, projectId))
  }

  // ---------------------------------------------------------------------
  // The record sent to the service
  // ---------------------------------------------------------------------

  /** A truthy text input: present and not empty. */
  predicate Given(s: Option<string>)
  {
    s.Some? && s.value != ""
  }

  /** `s || undefined`. */
  function TextOrUndefined(s: Option<string>): (v: Value)
    ensures Given(s) <==> v.Str?
    ensures !Given(s) ==> v == Undefined
    ensures Given(s) ==> v.s == s.value
  {
    if Given(s) then Str(s.value) else Undefined
  }

  /** `s ? parseInt(s) : undefined`. */
  function IntOrUndefined(s: Option<string>): (v: Value)
    ensures !Given(s) ==> v == Undefined
    ensures Given(s) ==> v == NumberValue(ParseInt(s.value)) && (v.Num? || v.NaN?)
  {
    if Given(s) then NumberValue(ParseInt(s.value)) else Undefined
  }

  /** The property names of the built record, in the order it writes them. */
  const RecordKeys := ["masterId", "title", "description", "category", "location", "price",
    "capacity", "startDate", "endDate", "applicationForm", "imageUrl", "formColor",
    "autoApprove", "status"]

  /** The values `onSubmit` writes, one for each name of `RecordKeys`. */
  function RecordValues(master: User, f: WorkshopForm, fields: seq<FormField>, imageUrl: Option<string>): (vs: seq<Value>)
    ensures |vs| == |RecordKeys|
  {
    [Str(master.id),
     Str(f.title),
     Str(f.description),
     Str(f.category),
     Str(f.location),
     IntOrUndefined(f.price),
     IntOrUndefined(f.capacity),
     TextOrUndefined(f.startDate),
     TextOrUndefined(f.endDate),
     FormValue(fields),
     if imageUrl.Some? then Str(imageUrl.value) else Undefined,
     Str(if Given(f.formColor) then f.formColor.value else DefaultFormColor),
     Bool(f.autoApprove == Some(true)),
     Str("draft")]
  }

  /** `workshopData` as `onSubmit` builds it: each name with its value. */
  function WorkshopData(master: User, f: WorkshopForm, fields: seq<FormField>, imageUrl: Option<string>): (data: seq<Member>)
    ensures Keys(data) == RecordKeys
  {
    var vs := RecordValues(master, f, fields, imageUrl);
    seq(|RecordKeys|, i requires 0 <= i < |RecordKeys| => Member(RecordKeys[i], vs[i]))
  }

  lemma RecordKeysDistinct()
    ensures forall i, j :: 0 <= i < j < |RecordKeys| ==> RecordKeys[i] != RecordKeys[j]
  {
  }

  lemma WorkshopDataDistinct(master: User, f: WorkshopForm, fields: seq<FormField>, imageUrl: Option<string>)
    ensures DistinctKeys(WorkshopData(master, f, fields, imageUrl))
  {
    RecordKeysDistinct();
  }

  /** The document the service creates from the built record. */
  function CreatedRecord(master: User, f: WorkshopForm, fields: seq<FormField>, imageUrl: Option<string>,
                         id: string, createdAt: string): Document
  {
    Document(id, createdAt, Defined(CreateData(WorkshopData(master, f, fields, imageUrl))))
  }

  /** Each name of the built record reads its own value. */
  lemma TextLookups(master: User, f: WorkshopForm, fields: seq<FormField>, imageUrl: Option<string>)
    ensures
      var data := WorkshopData(master, f, fields, imageUrl);
      && Lookup(data, "title") == Str(f.title)
      && Lookup(data, "description") == Str(f.description)
      && Lookup(data, "category") == Str(f.category)
      && Lookup(data, "location") == Str(f.location)
  {
    var data := WorkshopData(master, f, fields, imageUrl);
    WorkshopDataDistinct(master, f, fields, imageUrl);
    assert data[1].key == "title" && data[2].key == "description";
    assert data[3].key == "category" && data[4].key == "location";
    LookupAt(data, 1);
    LookupAt(data, 2);
    LookupAt(data, 3);
    LookupAt(data, 4);
  }

  lemma OwnerLookups(master: User, f: WorkshopForm, fields: seq<FormField>, imageUrl: Option<string>)
    ensures
      var data := WorkshopData(master, f, fields, imageUrl);
      && Lookup(data, "masterId") == Str(master.id)
      && Lookup(data, "applicationForm") == FormValue(fields)
      && Lookup(data, "status") == Str("draft")
  {
    var data := WorkshopData(master, f, fields, imageUrl);
    WorkshopDataDistinct(master, f, fields, imageUrl);
    assert data[0].key == "masterId" && data[9].key == "applicationForm" && data[13].key == "status";
    LookupAt(data, 0);
    LookupAt(data, 9);
    LookupAt(data, 13);
  }

  lemma OptionalLookups(master: User, f: WorkshopForm, fields: seq<FormField>, imageUrl: Option<string>)
    ensures
      var data := WorkshopData(master, f, fields, imageUrl);
      && Lookup(data, "price") == IntOrUndefined(f.price)
      && Lookup(data, "startDate") == TextOrUndefined(f.startDate)
      && Lookup(data, "imageUrl") == (if imageUrl.Some? then Str(imageUrl.value) else Undefined)
      && Lookup(data, "formColor") == Str(if Given(f.formColor) then f.formColor.value else DefaultFormColor)
      && Lookup(data, "autoApprove") == Bool(f.autoApprove == Some(true))
  {
    var data := WorkshopData(master, f, fields, imageUrl);
    WorkshopDataDistinct(master, f, fields, imageUrl);
    assert data[5].key == "price" && data[7].key == "startDate" && data[10].key == "imageUrl";
    assert data[11].key == "formColor" && data[12].key == "autoApprove";
    LookupAt(data, 5);
    LookupAt(data, 7);
    LookupAt(data, 10);
    LookupAt(data, 11);
    LookupAt(data, 12);
  }

  lemma ReadBackKey(data: seq<Member>, id: string, createdAt: string, k: string)
    requires DistinctKeys(data)
    requires k != "applicationForm" && k != "$id" && k != "$createdAt"
    ensures Get(DocumentValue(Document(id, createdAt, Defined(CreateData(data)))), k) == Lookup(data, k)
  {
    CreatedWorkshop(data, k);
    DocumentGet(Document(id, createdAt, Defined(CreateData(data))), k);
  }

  /** How the required properties of a created record read back. */
  lemma RequiredReadBack(data: seq<Member>, id: string, createdAt: string)
    requires DistinctKeys(data)
    ensures
      var w := SafeParseWorkshop(DocumentValue(Document(id, createdAt, Defined(CreateData(data)))));
      && w.masterId == TextOr(Lookup(data, "masterId"))
      && w.title == TextOr(Lookup(data, "title"))
      && w.description == TextOr(Lookup(data, "description"))
      && w.category == TextOr(Lookup(data, "category"))
      && w.location == TextOr(Lookup(data, "location"))
      && w.status == WorkshopStatusOf(Lookup(data, "status"))
  {
    ReadBackKey(data, id, createdAt, "masterId");
    ReadBackKey(data, id, createdAt, "title");
    ReadBackKey(data, id, createdAt, "description");
    ReadBackKey(data, id, createdAt, "category");
    ReadBackKey(data, id, createdAt, "location");
    ReadBackKey(data, id, createdAt, "status");
  }

  /** How the optional properties of a created record read back. */
  lemma OptionalsReadBack(data: seq<Member>, id: string, createdAt: string)
    requires DistinctKeys(data)
    ensures
      var w := SafeParseWorkshop(DocumentValue(Document(id, createdAt, Defined(CreateData(data)))));
      && w.imageUrl == StringOf(Lookup(data, "imageUrl"))
      && w.formColor == StringOf(Lookup(data, "formColor"))
      && w.autoApprove == BoolOf(Lookup(data, "autoApprove"))
      && w.price == NumberOf(Lookup(data, "price"))
      && w.startDate == StringOf(Lookup(data, "startDate"))
  {
    ReadBackKey(data, id, createdAt, "imageUrl");
    ReadBackKey(data, id, createdAt, "formColor");
    ReadBackKey(data, id, createdAt, "autoApprove");
    ReadBackKey(data, id, createdAt, "price");
    ReadBackKey(data, id, createdAt, "startDate");
  }

  /** Reading the created document back gives a draft owned by the current
      user, with the builder's form and the entered texts. */
  lemma CreatedReadsBack(master: User, f: WorkshopForm, fields: seq<FormField>, imageUrl: Option<string>,
                         id: string, createdAt: string)
    ensures
      var data := WorkshopData(master, f, fields, imageUrl);
      var w := SafeParseWorkshop(DocumentValue(Document(id, createdAt, Defined(CreateData(data)))));
      && w.masterId == master.id
      && w.title == f.title && w.description == f.description
      && w.category == f.category && w.location == f.location
      && w.status == Draft
      && w.applicationForm == fields
  {
    var data := WorkshopData(master, f, fields, imageUrl);
    WorkshopDataDistinct(master, f, fields, imageUrl);
    TextLookups(master, f, fields, imageUrl);
    OwnerLookups(master, f, fields, imageUrl);
    RequiredReadBack(data, id, createdAt);
    CreatedFormReadsBack(data, fields, id, createdAt);
  }

  /** The image, colour and auto-approval read back with their defaults:
      the uploaded image, blue when no colour is given, auto-approval off
      unless chosen. */
  lemma CreatedDefaults(master: User, f: WorkshopForm, fields: seq<FormField>, imageUrl: Option<string>,
                        id: string, createdAt: string)
    ensures
      var data := WorkshopData(master, f, fields, imageUrl);
      var w := SafeParseWorkshop(DocumentValue(Document(id, createdAt, Defined(CreateData(data)))));
      && w.imageUrl == imageUrl
      && w.formColor == Some(if Given(f.formColor) then f.formColor.value else DefaultFormColor)
      && w.autoApprove == Some(f.autoApprove == Some(true))
  {
    var data := WorkshopData(master, f, fields, imageUrl);
    WorkshopDataDistinct(master, f, fields, imageUrl);
    OptionalLookups(master, f, fields, imageUrl);
    OptionalsReadBack(data, id, createdAt);
  }

  /** The price reads back only when one was entered, as `parseInt` of the
      text; the start date only when it is not empty. */
  lemma CreatedPriceAndDate(master: User, f: WorkshopForm, fields: seq<FormField>, imageUrl: Option<string>,
                            id: string, createdAt: string)
    ensures
      var data := WorkshopData(master, f, fields, imageUrl);
      var w := SafeParseWorkshop(DocumentValue(Document(id, createdAt, Defined(CreateData(data)))));
      && w.price == (if Given(f.price) then Some(ParseInt(f.price.value)) else None)
      && w.startDate == (if Given(f.startDate) then f.startDate else None)
  {
    var data := WorkshopData(master, f, fields, imageUrl);
    WorkshopDataDistinct(master, f, fields, imageUrl);
    OptionalLookups(master, f, fields, imageUrl);
    OptionalsReadBack(data, id, createdAt);
    PriceReadsBack(f.price);
  }

  lemma PriceReadsBack(price: Option<string>)
    ensures NumberOf(IntOrUndefined(price)) == if Given(price) then Some(ParseInt(price.value)) else None
  {
    if Given(price) {
      NumberRoundTrip(ParseInt(price.value));
    }
  }

  lemma NumberRoundTrip(n: Number)
    ensures NumberOf(NumberValue(n)) == Some(n)
  {
  }

  // ---------------------------------------------------------------------
  // The page
  // ---------------------------------------------------------------------

  const Dashboard := "/master/dashboard"

  class CreateWorkshopPage {
    const user: Option<User>
    const service: WorkshopService
    /** The store's endpoint and project id from the environment. */
    const endpoint: string
    const projectId: string
    /** The builder's fields, kept in step by its change handler. */
    var formFields: seq<FormField>
    /** The chosen image's file name. */
    var image: Option<string>
    var isLoading: bool
    var uploadingImage: bool
    /** The ids of the files this page has put in the image bucket. */
    var uploaded: seq<string>
    /** Where the router was last sent. */
    var location: Option<string>

    constructor (user: Option<User>, service: WorkshopService, endpoint: string, projectId: string)
      ensures this.user == user && this.service == service
      ensures this.endpoint == endpoint && this.projectId == projectId
      ensures formFields == [] && image == None && uploaded == [] && location == None
      ensures !isLoading && !uploadingImage
    {
      this.user := user;
      this.service := service;
      this.endpoint := endpoint;
      this.projectId := projectId;
      formFields := [];
      image := None;
      isLoading := false;
      uploadingImage := false;
      uploaded := [];
      location := None;
    }

    /** The form builder's `onChange`. */
    method SetFormFields(fields: seq<FormField>)
      modifies this
      ensures formFields == fields
      ensures image == old(image) && isLoading == old(isLoading) && uploadingImage == old(uploadingImage)
      ensures uploaded == old(uploaded) && location == old(location)
    {
      formFields := fields;
    }

    /** `handleImageChange`: a selected file replaces the image; no file keeps it. */
    method HandleImageChange(file: Option<string>)
      modifies this
      ensures image == (if file.Some? then file else old(image))
      ensures formFields == old(formFields) && isLoading == old(isLoading) && uploadingImage == old(uploadingImage)
      ensures uploaded == old(uploaded) && location == old(location)
    {
      if file.Some? {
        image := file;
      }
    }

    /** `uploadImage`. `stored` is what the storage call gives back: the new
        file's id, or `None` when it fails. */
    method UploadImage(stored: Option<string>) returns (url: Option<string>)
      modifies this
      ensures url == UploadResult(image, stored, endpoint, projectId)
      ensures uploaded == if image.Some? && stored.Some? then old(uploaded) + [stored.value] else old(uploaded)
      ensures uploadingImage == (image.None? && old(uploadingImage))
      ensures formFields == old(formFields) && image == old(image)
      ensures isLoading == old(isLoading) && location == old(location)
    {
      if image.None? {
        return None;
      }
      uploadingImage := true;
      if stored.None? {
        url := None;
      } else {
        uploaded := uploaded + [stored.value];
        url := UploadResult(image, stored, endpoint, projectId);
      }
      uploadingImage := false;
    }

    /** The service call of `onSubmit` and the redirect after it. */
    method Publish(data: seq<Member>, id: string, createdAt: string)
      requires DistinctKeys(data) && service.db.Valid()
      modifies this, service.db
      ensures service.db.Valid() && service.db.applications == old(service.db.applications)
      ensures old(service.db.online) && id !in old(service.db.workshops.docs) ==>
        && service.db.workshops == Created(old(service.db.workshops), Document(id, createdAt, Defined(CreateData(data))))
        && location == Some(Dashboard)
      ensures !(old(service.db.online) && id !in old(service.db.workshops.docs)) ==>
        service.db.workshops == old(service.db.workshops) && location == old(location)
      ensures service.db.online == old(service.db.online)
      ensures isLoading == old(isLoading) && uploadingImage == old(uploadingImage)
      ensures formFields == old(formFields) && image == old(image) && uploaded == old(uploaded)
    {
      var created := service.CreateWorkshop(data, id, createdAt);
      if created.Ok? {
        location := Some(Dashboard);
      }
    }

    /** `onSubmit`, reached only through the form (so for a master) with
        values the schema accepted. `stored` is the storage call's outcome;
        `id` and `createdAt` are the ones the store assigns. */
    method OnSubmit(f: WorkshopForm, stored: Option<string>, id: string, createdAt: string)
      requires ScreenFor(user) == CreateForm && SchemaAccepts(f)
      requires service.db.Valid()
      modifies this, service.db
      ensures service.db.Valid() && service.db.applications == old(service.db.applications)
      ensures old(service.db.online) && id !in old(service.db.workshops.docs) ==>
        && service.db.workshops == Created(old(service.db.workshops),
             CreatedRecord(user.value, f, old(formFields), UploadResult(old(image), stored, endpoint, projectId), id, createdAt))
        && location == Some(Dashboard)
      ensures !(old(service.db.online) && id !in old(service.db.workshops.docs)) ==>
        service.db.workshops == old(service.db.workshops) && location == old(location)
      ensures service.db.online == old(service.db.online)
      ensures !isLoading && uploadingImage == (old(uploadingImage) && old(image).None?)
      ensures formFields == old(formFields) && image == old(image)
      ensures uploaded == if old(image).Some? && stored.Some? then old(uploaded) + [stored.value] else old(uploaded)
    {
      isLoading := true;
      var url := UploadImage(stored);
      WorkshopDataDistinct(user.value, f, formFields, url);
      Publish(WorkshopData(user.value, f, formFields, url), id, createdAt);
      isLoading := false;
    }
  }
}
