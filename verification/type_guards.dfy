/** Shape checks and total decoders from loosely typed store documents to
    the application's records. Every decoder is a function: where the
    original code catches an exception from `JSON.parse`, the model takes
    the fallback branch for text the parser rejects. */
module TypeGuards {
  import opened Wrappers
  import opened Json
  import opened Types

  // ---------------------------------------------------------------------
  // Shape predicates
  // ---------------------------------------------------------------------

  /** `typeof v === 'object' && v !== null`: arrays count as objects. */
  predicate IsObject(v: Value)
  {
    v.Arr? || v.Obj?
  }

  /** Only a plain object can pass: an array has none of the properties read. */
  predicate IsUser(v: Value)
    ensures IsUser(v) ==> v.Obj? && Get(v, "role") == Str(RoleName(RoleOf(Get(v, "role"))))
  {
    IsObject(v)
    && Get(v, "$id").Str?
    && Get(v, "email").Str?
    && Get(v, "name").Str?
    && Get(v, "role") in [Str("admin"), Str("master"), Str("student")]
  }

  /** The field type is only checked to be a string, not one of the five kinds. */
  predicate IsFormField(v: Value)
    ensures IsFormField(v) ==> v.Obj?
  {
    IsObject(v)
    && Get(v, "id").Str?
    && Get(v, "type").Str?
    && Get(v, "label").Str?
    && Get(v, "required").Bool?
  }

  predicate IsFormFieldArray(v: Value)
    ensures IsFormFieldArray(v) ==> v.Arr? && forall i :: 0 <= i < |v.elems| ==> v.elems[i].Obj?
  {
    v.Arr? && forall i :: 0 <= i < |v.elems| ==> IsFormField(v.elems[i])
  }

  lemma EmptyFormFieldArray()
    ensures IsFormFieldArray(Arr([]))
    ensures !IsFormFieldArray(Obj([]))
  {
  }

  // ---------------------------------------------------------------------
  // Attribute normalisation
  // ---------------------------------------------------------------------

  /** `typeof v === 'number' ? v : undefined` (NaN is a number too). */
  function NumberOf(v: Value): (r: Option<Number>)
    ensures r.Some? <==> v.Num? || v.NaN?
    ensures v.Num? ==> r == Some(Int(v.n))
  {
    match v
    case Num(n) => Some(Int(n))
    case NaN => Some(NotANumber)
    case _ => None
  }

  function NumberValue(n: Number): Value
  {
    match n
    case Int(k) => Num(k)
    case NotANumber => NaN
  }

  function StringOf(v: Value): (r: Option<string>)
    ensures r.Some? <==> v.Str?
    ensures r.Some? ==> r.value == v.s
  {
    if v.Str? then Some(v.s) else None
  }

  function BoolOf(v: Value): (r: Option<bool>)
    ensures r.Some? <==> v.Bool?
    ensures r.Some? ==> r.value == v.b
  {
    if v.Bool? then Some(v.b) else None
  }

  /** A stored string array; anything else reads as absent. */
  function StringsOf(v: Value): (r: Option<seq<string>>)
    ensures r.Some? ==> v.Arr? && |r.value| == |v.elems|
    ensures r.Some? ==> forall i :: 0 <= i < |v.elems| ==> v.elems[i] == Str(r.value[i])
  {
    if v.Arr? && forall i :: 0 <= i < |v.elems| ==> v.elems[i].Str? then
      Some(seq(|v.elems|, i requires 0 <= i < |v.elems| => v.elems[i].s))
    else None
  }

  lemma StringsOfStrValues(ss: seq<string>)
    ensures StringsOf(Arr(StrValues(ss))) == Some(ss)
  {
    var es := StrValues(ss);
    assert forall i :: 0 <= i < |es| ==> es[i].Str?;
    assert seq(|es|, i requires 0 <= i < |es| => es[i].s) == ss;
  }

  function WorkshopStatusOf(v: Value): (s: WorkshopStatus)
    ensures s == Published <==> v == Str("published")
    ensures s == Cancelled <==> v == Str("cancelled")
    ensures v.Str? && WorkshopStatusName(s) != v.s ==> s == Draft
  {
    if v == Str("published") then Published
    else if v == Str("cancelled") then Cancelled
    else Draft
  }

  function ScheduleTypeOf(v: Value): (t: Option<ScheduleType>)
    ensures t == Some(Fixed) <==> v == Str("fixed")
    ensures t == Some(Flexible) <==> v == Str("flexible")
  {
    if v == Str("fixed") then Some(Fixed)
    else if v == Str("flexible") then Some(Flexible)
    else None
  }

  function ApplicationStatusOf(v: Value): (s: ApplicationStatus)
    ensures s == Approved <==> v == Str("approved")
    ensures s == Rejected <==> v == Str("rejected")
    ensures v.Str? && ApplicationStatusName(s) != v.s ==> s == Pending
  {
    if v == Str("approved") then Approved
    else if v == Str("rejected") then Rejected
    else Pending
  }

  function RoleOf(v: Value): (r: Role)
    ensures r == Admin <==> v == Str("admin")
    ensures r == Master <==> v == Str("master")
    ensures v.Str? && RoleName(r) != v.s ==> r == Student
  {
    if v == Str("admin") then Admin
    else if v == Str("master") then Master
    else Student
  }

  /** An embedded user document, kept only when it has a user's shape. */
  function UserOf(v: Value): (r: Option<Value>)
    ensures r.Some? <==> IsUser(v)
    ensures r.Some? ==> r.value == v
  {
    if Truthy(v) && IsObject(v) && IsUser(v) then Some(v) else None
  }

  // ---------------------------------------------------------------------
  // Application forms
  // ---------------------------------------------------------------------

  function FieldOf(v: Value): FormField
    requires IsFormField(v)
  {
    FormField(
      Get(v, "id").s,
      Get(v, "type").s,
      Get(v, "label").s,
      Get(v, "required").b,
      StringsOf(Get(v, "options")),
      StringOf(Get(v, "placeholder")))
  }

  /** The stored `applicationForm` attribute as a field list: `[]` unless it
      is a string that parses to an array of form fields. */
  function ApplicationFormOf(stored: Value): (form: seq<FormField>)
    ensures !stored.Str? ==> form == []
    ensures stored.Str? && Parse(stored.s).None? ==> form == []
    ensures stored.Str? && Parse(stored.s).Some? && !IsFormFieldArray(Parse(stored.s).value) ==> form == []
    ensures stored.Str? && Parse(stored.s).Some? && IsFormFieldArray(Parse(stored.s).value) ==>
      |form| == |Parse(stored.s).value.elems|
      && forall i :: 0 <= i < |form| ==> form[i] == FieldOf(Parse(stored.s).value.elems[i])
  {
    var text := if stored.Str? then stored.s else "[]";
    assert Parse("[]") == Some(Arr([])) by {
      RoundTrip(Arr([]));
    }
    match Parse(text)
    case Some(parsed) =>
      if IsFormFieldArray(parsed) then
        seq(|parsed.elems|, i requires 0 <= i < |parsed.elems| => FieldOf(parsed.elems[i]))
      else []
    case None => []
  }

  lemma FieldRoundTrip(f: FormField)
    ensures IsFormField(FieldValue(f)) && FieldOf(FieldValue(f)) == f
  {
    FieldValueProperties(f);
    if f.options.Some? {
      StringsOfStrValues(f.options.value);
    }
  }

  /** A form stored as its serialization reads back as the same fields. */
  lemma FormRoundTrip(fields: seq<FormField>)
    ensures ApplicationFormOf(Str(Serialize(FormValue(fields)))) == fields
  {
    var v := FormValue(fields);
    RoundTrip(v);
    forall i | 0 <= i < |fields|
      ensures IsFormField(v.elems[i]) && FieldOf(v.elems[i]) == fields[i]
    {
      FieldRoundTrip(fields[i]);
    }
  }

  // ---------------------------------------------------------------------
  // Safe parsers
  // ---------------------------------------------------------------------

  function SafeParseWorkshop(data: Value): (w: Workshop)
    ensures Get(data, "title").Str? ==> w.title == Get(data, "title").s
    ensures !Truthy(Get(data, "title")) ==> w.title == ""
    ensures w.id == TextOr(Get(data, "$id")) && w.masterId == TextOr(Get(data, "masterId"))
    ensures w.description == TextOr(Get(data, "description")) && w.category == TextOr(Get(data, "category"))
    ensures w.location == TextOr(Get(data, "location")) && w.createdAt == TextOr(Get(data, "$createdAt"))
    ensures w.startDate == StringOf(Get(data, "startDate")) && w.endDate == StringOf(Get(data, "endDate"))
    ensures w.imageUrl == StringOf(Get(data, "imageUrl")) && w.formColor == StringOf(Get(data, "formColor"))
    ensures w.price == NumberOf(Get(data, "price")) && w.capacity == NumberOf(Get(data, "capacity"))
    ensures w.enrolledCount == NumberOf(Get(data, "enrolledCount"))
    ensures w.autoApprove == BoolOf(Get(data, "autoApprove"))
    ensures w.applicationForm == ApplicationFormOf(Get(data, "applicationForm"))
    ensures w.master == UserOf(Get(data, "master"))
    ensures w.status == Published <==> Get(data, "status") == Str("published")
    ensures w.status == Cancelled <==> Get(data, "status") == Str("cancelled")
    ensures w.scheduleType.Some? <==> Get(data, "scheduleType") in [Str("fixed"), Str("flexible")]
    ensures w.price.Some? <==> Get(data, "price").Num? || Get(data, "price").NaN?
    ensures w.capacity.Some? <==> Get(data, "capacity").Num? || Get(data, "capacity").NaN?
    ensures w.autoApprove.Some? <==> Get(data, "autoApprove").Bool?
    ensures !Get(data, "applicationForm").Str? ==> w.applicationForm == []
    ensures w.master.Some? ==> IsUser(w.master.value)
  {
    Workshop(
      TextOr(Get(data, "$id")),
      TextOr(Get(data, "masterId")),
      TextOr(Get(data, "title")),
      TextOr(Get(data, "description")),
      TextOr(Get(data, "category")),
      TextOr(Get(data, "location")),
      NumberOf(Get(data, "price")),
      NumberOf(Get(data, "capacity")),
      ScheduleTypeOf(Get(data, "scheduleType")),
      StringOf(Get(data, "startDate")),
      StringOf(Get(data, "endDate")),
      ApplicationFormOf(Get(data, "applicationForm")),
      StringOf(Get(data, "imageUrl")),
      StringOf(Get(data, "formColor")),
      BoolOf(Get(data, "autoApprove")),
      WorkshopStatusOf(Get(data, "status")),
      TextOr(Get(data, "$createdAt")),
      UserOf(Get(data, "master")),
      NumberOf(Get(data, "enrolledCount")))
  }

  /** The stored `responses` text as a value: `{}` unless it is a string
      that parses; a parsed value that is not an object is kept as it is. */
  function ResponsesOf(stored: Value): (r: Value)
    ensures !stored.Str? ==> r == Obj([])
    ensures stored.Str? && Parse(stored.s).None? ==> r == Obj([])
    ensures stored.Str? && Parse(stored.s).Some? ==> r == Parse(stored.s).value
  {
    var text := if stored.Str? then stored.s else "{}";
    assert Parse("{}") == Some(Obj([])) by {
      RoundTrip(Obj([]));
    }
    match Parse(text)
    case Some(parsed) => parsed
    case None => Obj([])
  }

  function SafeParseApplication(data: Value): (a: Application)
    ensures !Get(data, "responses").Str? ==> a.responses == Obj([])
    ensures a.status == Approved <==> Get(data, "status") == Str("approved")
    ensures a.status == Rejected <==> Get(data, "status") == Str("rejected")
    ensures a.workshop.Some? <==> IsObject(Get(data, "workshop"))
    ensures a.workshop.Some? ==> a.workshop.value == SafeParseWorkshop(Get(data, "workshop"))
    ensures a.responses == ResponsesOf(Get(data, "responses"))
    ensures a.student.Some? <==> IsUser(Get(data, "student"))
    ensures a.student.Some? ==> a.student.value == Get(data, "student")
    ensures a.id == TextOr(Get(data, "$id")) && a.workshopId == TextOr(Get(data, "workshopId"))
    ensures a.studentId == TextOr(Get(data, "studentId")) && a.createdAt == TextOr(Get(data, "$createdAt"))
  {
    var workshop := Get(data, "workshop");
    Application(
      TextOr(Get(data, "$id")),
      TextOr(Get(data, "workshopId")),
      TextOr(Get(data, "studentId")),
      ResponsesOf(Get(data, "responses")),
      ApplicationStatusOf(Get(data, "status")),
      TextOr(Get(data, "$createdAt")),
      if Truthy(workshop) && IsObject(workshop) then Some(SafeParseWorkshop(workshop)) else None,
      UserOf(Get(data, "student")))
  }

  /** The stored profile: parsed when it is a string (`{}` when that fails),
      kept when it is an object, `{}` otherwise. */
  function ProfileOf(stored: Value): (p: Value)
    ensures stored.Str? && Parse(stored.s).Some? ==> p == Parse(stored.s).value
    ensures stored.Str? && Parse(stored.s).None? ==> p == Obj([])
    ensures IsObject(stored) ==> p == stored
    ensures !stored.Str? && !IsObject(stored) ==> p == Obj([])
  {
    if stored.Str? then
      match Parse(stored.s)
      case Some(parsed) => parsed
      case None => Obj([])
    else if IsObject(stored) then stored
    else Obj([])
  }

  function SafeParseUser(data: Value): (u: User)
    ensures u.role == Admin <==> Get(data, "role") == Str("admin")
    ensures u.role == Master <==> Get(data, "role") == Str("master")
    ensures Get(data, "role") !in [Str("admin"), Str("master")] ==> u.role == Student
    ensures !Get(data, "profile").Str? && !IsObject(Get(data, "profile")) ==> u.profile == Obj([])
    ensures u.profile == ProfileOf(Get(data, "profile"))
    ensures u.id == TextOr(Get(data, "$id")) && u.email == TextOr(Get(data, "email"))
    ensures u.name == TextOr(Get(data, "name")) && u.createdAt == TextOr(Get(data, "$createdAt"))
  {
    User(
      TextOr(Get(data, "$id")),
      TextOr(Get(data, "email")),
      TextOr(Get(data, "name")),
      RoleOf(Get(data, "role")),
      ProfileOf(Get(data, "profile")),
      TextOr(Get(data, "$createdAt")))
  }

  // ---------------------------------------------------------------------
  // Encoders the safe parsers invert
  // ---------------------------------------------------------------------

  function NumberAttribute(o: Option<Number>): Value
  {
    if o.Some? then NumberValue(o.value) else Undefined
  }

  function TextAttribute(o: Option<string>): Value
  {
    if o.Some? then Str(o.value) else Undefined
  }

  function ScheduleAttribute(o: Option<ScheduleType>): Value
  {
    match o
    case Some(Fixed) => Str("fixed")
    case Some(Flexible) => Str("flexible")
    case None => Undefined
  }

  /** `doc` holds `w` in the form the services store a workshop: text
      attributes as strings, the form as its serialization, the status by
      name, and absent optional attributes as `undefined`. */
  predicate StoresWorkshop(doc: Value, w: Workshop)
  {
    && Get(doc, "$id") == Str(w.id)
    && Get(doc, "masterId") == Str(w.masterId)
    && Get(doc, "title") == Str(w.title)
    && Get(doc, "description") == Str(w.description)
    && Get(doc, "category") == Str(w.category)
    && Get(doc, "location") == Str(w.location)
    && Get(doc, "price") == NumberAttribute(w.price)
    && Get(doc, "capacity") == NumberAttribute(w.capacity)
    && Get(doc, "scheduleType") == ScheduleAttribute(w.scheduleType)
    && Get(doc, "startDate") == TextAttribute(w.startDate)
    && Get(doc, "endDate") == TextAttribute(w.endDate)
    && Get(doc, "applicationForm") == Str(Serialize(FormValue(w.applicationForm)))
    && Get(doc, "imageUrl") == TextAttribute(w.imageUrl)
    && Get(doc, "formColor") == TextAttribute(w.formColor)
    && Get(doc, "autoApprove") == (if w.autoApprove.Some? then Bool(w.autoApprove.value) else Undefined)
    && Get(doc, "status") == Str(WorkshopStatusName(w.status))
    && Get(doc, "$createdAt") == Str(w.createdAt)
    && Get(doc, "master") == (if w.master.Some? then w.master.value else Undefined)
    && Get(doc, "enrolledCount") == NumberAttribute(w.enrolledCount)
  }

  lemma NumberRoundTrip(o: Option<Number>)
    ensures NumberOf(NumberAttribute(o)) == o
  {
  }

  /** Decoding a document that stores a workshop gives back that workshop,
      whenever its embedded master (if any) has a user's shape. */
  lemma WorkshopRoundTrip(doc: Value, w: Workshop)
    requires StoresWorkshop(doc, w)
    requires w.master.Some? ==> IsUser(w.master.value)
    ensures SafeParseWorkshop(doc) == w
  {
    var p := SafeParseWorkshop(doc);
    WorkshopTextRoundTrip(doc, w);
    WorkshopNumbersRoundTrip(doc, w);
    WorkshopOptionalRoundTrip(doc, w);
    assert p.applicationForm == w.applicationForm by {
      FormRoundTrip(w.applicationForm);
    }
  }

  lemma WorkshopTextRoundTrip(doc: Value, w: Workshop)
    requires StoresWorkshop(doc, w)
    ensures var p := SafeParseWorkshop(doc);
      p.id == w.id && p.masterId == w.masterId && p.title == w.title
      && p.description == w.description && p.category == w.category
      && p.location == w.location && p.createdAt == w.createdAt && p.status == w.status
  {
  }

  lemma WorkshopNumbersRoundTrip(doc: Value, w: Workshop)
    requires StoresWorkshop(doc, w)
    ensures var p := SafeParseWorkshop(doc);
      p.price == w.price && p.capacity == w.capacity && p.enrolledCount == w.enrolledCount
      && p.scheduleType == w.scheduleType && p.autoApprove == w.autoApprove
  {
    NumberRoundTrip(w.price);
    NumberRoundTrip(w.capacity);
    NumberRoundTrip(w.enrolledCount);
  }

  lemma WorkshopOptionalRoundTrip(doc: Value, w: Workshop)
    requires StoresWorkshop(doc, w)
    requires w.master.Some? ==> IsUser(w.master.value)
    ensures var p := SafeParseWorkshop(doc);
      p.startDate == w.startDate && p.endDate == w.endDate && p.imageUrl == w.imageUrl
      && p.formColor == w.formColor && p.master == w.master
  {
  }

  /** `doc` holds `a` as the services store an application, with its
      responses serialized and any embedded workshop stored as above. */
  predicate StoresApplication(doc: Value, a: Application)
  {
    && Get(doc, "$id") == Str(a.id)
    && Get(doc, "workshopId") == Str(a.workshopId)
    && Get(doc, "studentId") == Str(a.studentId)
    && Get(doc, "responses") == Str(Serialize(a.responses))
    && Get(doc, "status") == Str(ApplicationStatusName(a.status))
    && Get(doc, "$createdAt") == Str(a.createdAt)
    && (a.workshop.Some? ==> Get(doc, "workshop").Obj? && StoresWorkshop(Get(doc, "workshop"), a.workshop.value))
    && (a.workshop.None? ==> Get(doc, "workshop") == Undefined)
    && Get(doc, "student") == (if a.student.Some? then a.student.value else Undefined)
  }

  lemma ApplicationRoundTrip(doc: Value, a: Application)
    requires StoresApplication(doc, a) && IsJson(a.responses)
    requires a.workshop.Some? ==> (a.workshop.value.master.Some? ==> IsUser(a.workshop.value.master.value))
    requires a.student.Some? ==> IsUser(a.student.value)
    ensures SafeParseApplication(doc) == a
  {
    var p := SafeParseApplication(doc);
    RoundTrip(a.responses);
    assert p.workshop == a.workshop by {
      if a.workshop.Some? {
        WorkshopRoundTrip(Get(doc, "workshop"), a.workshop.value);
      }
    }
    assert p.status == a.status;
    assert p.responses == a.responses;
  }

  /** `doc` holds `u` with its profile serialized. */
  predicate StoresUser(doc: Value, u: User)
  {
    && Get(doc, "$id") == Str(u.id)
    && Get(doc, "email") == Str(u.email)
    && Get(doc, "name") == Str(u.name)
    && Get(doc, "role") == Str(RoleName(u.role))
    && Get(doc, "profile") == Str(Serialize(u.profile))
    && Get(doc, "$createdAt") == Str(u.createdAt)
  }

  lemma UserRoundTrip(doc: Value, u: User)
    requires StoresUser(doc, u) && IsJson(u.profile)
    ensures SafeParseUser(doc) == u
  {
    RoundTrip(u.profile);
    assert RoleOf(Get(doc, "role")) == u.role;
  }

  // ---------------------------------------------------------------------
  // Dropping undefined properties
  // ---------------------------------------------------------------------

  /** The properties whose value is not `undefined`, in their order. */
  function Defined(ms: seq<Member>): (r: seq<Member>)
    ensures forall i :: 0 <= i < |r| ==> !r[i].value.Undefined?
    ensures |r| <= |ms|
  {
    if ms == [] then []
    else if ms[0].value.Undefined? then Defined(ms[1..])
    else [ms[0]] + Defined(ms[1..])
  }

  lemma {:induction false} DefinedConcat(a: seq<Member>, b: seq<Member>)
    ensures Defined(a + b) == Defined(a) + Defined(b)
  {
    if a == [] {
      assert a + b == b;
    } else {
      assert (a + b)[1..] == a[1..] + b;
      DefinedConcat(a[1..], b);
    }
  }

  lemma {:induction false} DefinedKeys(ms: seq<Member>)
    ensures forall k :: k in Keys(Defined(ms)) ==> k in Keys(ms)
  {
    if ms != [] {
      DefinedKeys(ms[1..]);
      assert ms == [ms[0]] + ms[1..];
      KeysCons(ms[0], ms[1..]);
      if !ms[0].value.Undefined? {
        KeysCons(ms[0], Defined(ms[1..]));
      }
    }
  }

  lemma {:induction false} LookupConcat(a: seq<Member>, b: seq<Member>, k: string)
    requires k !in Keys(a)
    ensures Lookup(a + b, k) == Lookup(b, k)
  {
    if a == [] {
      assert a + b == b;
    } else {
      assert (a + b)[1..] == a[1..] + b;
      assert a == [a[0]] + a[1..];
      KeysCons(a[0], a[1..]);
      LookupConcat(a[1..], b, k);
    }
  }

  lemma WithoutHeadMatch(m: Member, b: seq<Member>)
    requires m.key !in Keys(b)
    ensures Without([m] + b, m.key) == b
  {
    assert ([m] + b)[1..] == b;
    WithoutKeys(b, m.key);
  }

  lemma WithoutHeadOther(x: Member, rest: seq<Member>, k: string)
    requires x.key != k
    ensures Without([x] + rest, k) == [x] + Without(rest, k)
  {
    assert ([x] + rest)[1..] == rest;
  }

  lemma ConsSplit<T>(a: seq<T>, c: seq<T>)
    requires a != []
    ensures a + c == [a[0]] + (a[1..] + c)
  {
  }

  lemma {:induction false} WithoutConcat(a: seq<Member>, m: Member, b: seq<Member>)
    requires m.key !in Keys(a) && m.key !in Keys(b)
    ensures Without(a + ([m] + b), m.key) == a + b
  {
    if a == [] {
      assert a + ([m] + b) == [m] + b;
      WithoutHeadMatch(m, b);
    } else {
      assert m.key !in Keys(a[1..]) && a[0].key != m.key by {
        assert a == [a[0]] + a[1..];
        KeysCons(a[0], a[1..]);
      }
      ConsSplit(a, [m] + b);
      WithoutHeadOther(a[0], a[1..] + ([m] + b), m.key);
      WithoutConcat(a[1..], m, b);
      ConsSplit(a, b);
    }
  }

  /** One visit of the deletion loop: the property at `i` reads as its own
      value, and deleting it when `undefined` extends the filtered prefix. */
  lemma RemoveStep(obj: seq<Member>, i: nat)
    requires DistinctKeys(obj) && i < |obj|
    ensures Lookup(Defined(obj[..i]) + obj[i..], obj[i].key) == obj[i].value
    ensures obj[i].value.Undefined? ==>
      Without(Defined(obj[..i]) + obj[i..], obj[i].key) == Defined(obj[..i + 1]) + obj[i + 1..]
    ensures !obj[i].value.Undefined? ==>
      Defined(obj[..i]) + obj[i..] == Defined(obj[..i + 1]) + obj[i + 1..]
  {
    var done, later := Defined(obj[..i]), obj[i + 1..];
    KeyFresh(obj, i);
    DefinedSnoc(obj, i);
    assert obj[i..] == [obj[i]] + later;
    StepOn(done, obj[i], later);
  }

  /** The visit of a property `m` between the filtered prefix and the rest. */
  lemma StepOn(done: seq<Member>, m: Member, later: seq<Member>)
    requires m.key !in Keys(done) && m.key !in Keys(later)
    ensures Lookup(done + ([m] + later), m.key) == m.value
    ensures Without(done + ([m] + later), m.key) == done + later
    ensures done + ([m] + later) == (done + [m]) + later
  {
    LookupConcat(done, [m] + later, m.key);
    LookupCons(m, later, m.key);
    WithoutConcat(done, m, later);
  }

  lemma DefinedSnoc(obj: seq<Member>, i: nat)
    requires i < |obj|
    ensures obj[i].value.Undefined? ==> Defined(obj[..i + 1]) == Defined(obj[..i])
    ensures !obj[i].value.Undefined? ==> Defined(obj[..i + 1]) == Defined(obj[..i]) + [obj[i]]
  {
    assert obj[..i + 1] == obj[..i] + [obj[i]];
    DefinedConcat(obj[..i], [obj[i]]);
    assert Defined([obj[i]]) == if obj[i].value.Undefined? then [] else [obj[i]];
    if obj[i].value.Undefined? {
      assert Defined(obj[..i]) + [] == Defined(obj[..i]);
    }
  }

  /** In an object with distinct keys, the key at `i` occurs neither before nor after `i`. */
  lemma KeyFresh(obj: seq<Member>, i: nat)
    requires DistinctKeys(obj) && i < |obj|
    ensures obj[i].key !in Keys(Defined(obj[..i]))
    ensures obj[i].key !in Keys(obj[i + 1..])
  {
    DefinedKeys(obj[..i]);
    assert forall j :: 0 <= j < i ==> Keys(obj[..i])[j] == obj[j].key;
    var rest := obj[i + 1..];
    forall j | 0 <= j < |rest| ensures Keys(rest)[j] != obj[i].key {
      assert rest[j] == obj[i + 1 + j];
    }
  }

  /** `removeUndefinedValues`: copies the object, then deletes each own
      property whose value is `undefined`, visiting the keys in order. */
  method RemoveUndefinedValues(obj: seq<Member>) returns (result: seq<Member>)
    requires DistinctKeys(obj)
    ensures result == Defined(obj)
  {
    result := obj;
    var keys := Keys(result);
    var i := 0;
    while i < |keys|
      invariant 0 <= i <= |keys| == |obj|
      invariant result == Defined(obj[..i]) + obj[i..]
    {
      RemoveStep(obj, i);
      if Lookup(result, keys[i]) == Undefined {
        result := Without(result, keys[i]);
      }
      i := i + 1;
    }
    assert obj[..i] == obj;
  }

  lemma {:induction false} LookupAbsent(ms: seq<Member>, k: string)
    requires k !in Keys(ms)
    ensures Lookup(ms, k) == Undefined
  {
    if ms != [] {
      assert ms == [ms[0]] + ms[1..];
      KeysCons(ms[0], ms[1..]);
      LookupAbsent(ms[1..], k);
    }
  }

  /** Every property keeps its value: removed ones were `undefined` and
      read as `undefined` after removal. */
  lemma {:induction false} DefinedLookup(ms: seq<Member>, k: string)
    requires DistinctKeys(ms)
    ensures Lookup(Defined(ms), k) == Lookup(ms, k)
  {
    if ms != [] {
      DistinctHead(ms);
      DefinedLookup(ms[1..], k);
      if ms[0].key == k && ms[0].value.Undefined? {
        LookupAbsent(ms[1..], k);
      }
    }
  }

  /** The remaining keys are exactly the keys with a defined value. */
  lemma {:induction false} DefinedExactKeys(ms: seq<Member>, k: string)
    requires DistinctKeys(ms)
    ensures k in Keys(Defined(ms)) <==> k in Keys(ms) && Lookup(ms, k) != Undefined
  {
    if ms != [] {
      DistinctHead(ms);
      DefinedExactKeys(ms[1..], k);
      assert ms == [ms[0]] + ms[1..];
      KeysCons(ms[0], ms[1..]);
      if !ms[0].value.Undefined? {
        KeysCons(ms[0], Defined(ms[1..]));
      } else if ms[0].key == k {
        DefinedKeys(ms[1..]);
      }
    }
  }

  lemma {:induction false} DefinedDistinct(ms: seq<Member>)
    requires DistinctKeys(ms)
    ensures DistinctKeys(Defined(ms))
  {
    if ms != [] {
      DistinctHead(ms);
      DefinedDistinct(ms[1..]);
      if !ms[0].value.Undefined? {
        DefinedKeys(ms[1..]);
        DistinctCons(ms[0], Defined(ms[1..]));
      }
    }
  }

  /** Removing undefined properties a second time changes nothing. */
  lemma {:induction false} DefinedIdempotent(ms: seq<Member>)
    ensures Defined(Defined(ms)) == Defined(ms)
  {
    if ms != [] {
      DefinedIdempotent(ms[1..]);
      if !ms[0].value.Undefined? {
        assert ([ms[0]] + Defined(ms[1..]))[1..] == Defined(ms[1..]);
      }
    }
  }
}
