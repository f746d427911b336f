/** The application's records: form fields, workshops, applications and
    users, with the closed enumerations their attributes range over. */
module Types {
  import opened Wrappers
  import opened Json

  /** The five kinds of form field the builder offers. */
  datatype FieldType = TextInput | Textarea | MultipleChoice | ImageUpload | VideoUpload

  function TypeName(t: FieldType): string
  {
    match t
    case TextInput => "text-input"
    case Textarea => "textarea"
    case MultipleChoice => "multiple-choice"
    case ImageUpload => "image-upload"
    case VideoUpload => "video-upload"
  }

  /** The field type a stored type name denotes; None for any other string. */
  function FieldTypeNamed(name: string): (t: Option<FieldType>)
    ensures t.Some? ==> TypeName(t.value) == name
  {
    if name == "text-input" then Some(TextInput)
    else if name == "textarea" then Some(Textarea)
    else if name == "multiple-choice" then Some(MultipleChoice)
    else if name == "image-upload" then Some(ImageUpload)
    else if name == "video-upload" then Some(VideoUpload)
    else None
  }

  lemma TypeNameRoundTrip(t: FieldType)
    ensures FieldTypeNamed(TypeName(t)) == Some(t)
  {
  }

  /** One question of a workshop's application form. The type is kept as
      the string it is at run time: a stored field may carry any type name. */
  datatype FormField = FormField(
    id: string,
    fieldType: string,
    labelText: string,
    required: bool,
    options: Option<seq<string>>,
    placeholder: Option<string>)

  /** A JavaScript number: an integer or NaN (what `parseInt` returns for text without digits). */
  datatype Number = Int(n: int) | NotANumber

  datatype Role = Admin | Master | Student

  datatype WorkshopStatus = Draft | Published | Cancelled

  datatype ScheduleType = Fixed | Flexible

  datatype ApplicationStatus = Pending | Approved | Rejected

  function RoleName(r: Role): string
  {
    match r
    case Admin => "admin"
    case Master => "master"
    case Student => "student"
  }

  function WorkshopStatusName(s: WorkshopStatus): string
  {
    match s
    case Draft => "draft"
    case Published => "published"
    case Cancelled => "cancelled"
  }

  function ApplicationStatusName(s: ApplicationStatus): string
  {
    match s
    case Pending => "pending"
    case Approved => "approved"
    case Rejected => "rejected"
  }

  datatype User = User(
    id: string,
    email: string,
    name: string,
    role: Role,
    profile: Value,
    createdAt: string)

  /** A workshop as the application holds it after decoding a stored document.
      `master` is the embedded owner document, kept as it was stored. */
  datatype Workshop = Workshop(
    id: string,
    masterId: string,
    title: string,
    description: string,
    category: string,
    location: string,
    price: Option<Number>,
    capacity: Option<Number>,
    scheduleType: Option<ScheduleType>,
    startDate: Option<string>,
    endDate: Option<string>,
    applicationForm: seq<FormField>,
    imageUrl: Option<string>,
    formColor: Option<string>,
    autoApprove: Option<bool>,
    status: WorkshopStatus,
    createdAt: string,
    master: Option<Value>,
    enrolledCount: Option<Number>)

  /** An application as decoded from a stored document. `responses` is
      whatever the stored text parses to, keyed by form-field id. */
  datatype Application = Application(
    id: string,
    workshopId: string,
    studentId: string,
    responses: Value,
    status: ApplicationStatus,
    createdAt: string,
    workshop: Option<Workshop>,
    student: Option<Value>)

  /** The colour of an application form when its workshop names none. */
  const DefaultFormColor := "#3B82F6"

  /** A validation issue as a schema reports it: the input's name and a message. */
  datatype Issue = Issue(path: string, message: string)

  /** The plain object `JSON.stringify` sees for a field: absent optional
      attributes are not written (an `undefined` property is never serialized). */
  function FieldValue(f: FormField): Value
  {
    Obj([Member("id", Str(f.id))] + ([Member("type", Str(f.fieldType))]
      + ([Member("label", Str(f.labelText))] + ([Member("required", Bool(f.required))]
      + FieldOptionals(f)))))
  }

  function FieldOptionals(f: FormField): seq<Member>
  {
    var placeholder := if f.placeholder.Some? then [Member("placeholder", Str(f.placeholder.value))] else [];
    if f.options.Some? then [Member("options", Arr(StrValues(f.options.value)))] + placeholder
    else placeholder
  }

  lemma FieldOptionalsJson(f: FormField)
    ensures IsJson(Obj(FieldOptionals(f)))
    ensures forall k :: k in Keys(FieldOptionals(f)) ==> k == "options" || k == "placeholder"
    ensures Lookup(FieldOptionals(f), "options") == if f.options.Some? then Arr(StrValues(f.options.value)) else Undefined
    ensures Lookup(FieldOptionals(f), "placeholder") == if f.placeholder.Some? then Str(f.placeholder.value) else Undefined
  {
    var placeholder := if f.placeholder.Some? then [Member("placeholder", Str(f.placeholder.value))] else [];
    if f.placeholder.Some? {
      ObjectCons(Member("placeholder", Str(f.placeholder.value)), []);
      LookupCons(Member("placeholder", Str(f.placeholder.value)), [], "options");
      LookupCons(Member("placeholder", Str(f.placeholder.value)), [], "placeholder");
    }
    if f.options.Some? {
      StrValuesJson(f.options.value);
      ObjectCons(Member("options", Arr(StrValues(f.options.value))), placeholder);
      LookupCons(Member("options", Arr(StrValues(f.options.value))), placeholder, "options");
      LookupCons(Member("options", Arr(StrValues(f.options.value))), placeholder, "placeholder");
    }
  }

  lemma LookupFour(a: Member, b: Member, c: Member, d: Member, rest: seq<Member>, k: string)
    ensures Lookup([a] + ([b] + ([c] + ([d] + rest))), k)
      == if a.key == k then a.value else if b.key == k then b.value
         else if c.key == k then c.value else if d.key == k then d.value
         else Lookup(rest, k)
  {
    LookupCons(a, [b] + ([c] + ([d] + rest)), k);
    LookupCons(b, [c] + ([d] + rest), k);
    LookupCons(c, [d] + rest, k);
    LookupCons(d, rest, k);
  }

  /** The label, the required flag and the optional attributes form a JSON object. */
  lemma FieldTailJson(f: FormField)
    ensures var tail := [Member("label", Str(f.labelText))] + ([Member("required", Bool(f.required))] + FieldOptionals(f));
      IsJson(Obj(tail)) && forall k :: k in Keys(tail) ==> k != "id" && k != "type"
  {
    var c, d := Member("label", Str(f.labelText)), Member("required", Bool(f.required));
    var m4 := FieldOptionals(f);
    FieldOptionalsJson(f);
    ObjectCons(d, m4);
    ObjectCons(c, [d] + m4);
  }

  lemma FieldValueJson(f: FormField)
    ensures IsJson(FieldValue(f))
  {
    var a, b := Member("id", Str(f.id)), Member("type", Str(f.fieldType));
    var tail := [Member("label", Str(f.labelText))] + ([Member("required", Bool(f.required))] + FieldOptionals(f));
    FieldTailJson(f);
    ObjectCons(b, tail);
    ObjectCons(a, [b] + tail);
  }

  /** A serialized field is a JSON object holding the field's attributes. */
  lemma FieldValueProperties(f: FormField)
    ensures IsJson(FieldValue(f)) && FieldValue(f).Obj?
    ensures Get(FieldValue(f), "id") == Str(f.id)
    ensures Get(FieldValue(f), "type") == Str(f.fieldType)
    ensures Get(FieldValue(f), "label") == Str(f.labelText)
    ensures Get(FieldValue(f), "required") == Bool(f.required)
    ensures Get(FieldValue(f), "options") == if f.options.Some? then Arr(StrValues(f.options.value)) else Undefined
    ensures Get(FieldValue(f), "placeholder") == if f.placeholder.Some? then Str(f.placeholder.value) else Undefined
  {
    var a, b, c, d := Member("id", Str(f.id)), Member("type", Str(f.fieldType)),
      Member("label", Str(f.labelText)), Member("required", Bool(f.required));
    var m4 := FieldOptionals(f);
    FieldOptionalsJson(f);
    FieldValueJson(f);
    LookupFour(a, b, c, d, m4, "id");
    LookupFour(a, b, c, d, m4, "type");
    LookupFour(a, b, c, d, m4, "label");
    LookupFour(a, b, c, d, m4, "required");
    LookupFour(a, b, c, d, m4, "options");
    LookupFour(a, b, c, d, m4, "placeholder");
  }

  function StrValues(ss: seq<string>): (vs: seq<Value>)
    ensures |vs| == |ss|
    ensures forall i :: 0 <= i < |ss| ==> vs[i] == Str(ss[i])
  {
    if ss == [] then [] else [Str(ss[0])] + StrValues(ss[1..])
  }

  lemma {:induction false} StrValuesJson(ss: seq<string>)
    ensures AllJson(StrValues(ss))
  {
    if ss != [] {
      StrValuesJson(ss[1..]);
      assert StrValues(ss)[1..] == StrValues(ss[1..]);
    }
  }

  lemma {:induction false} AllJsonOf(vs: seq<Value>)
    requires forall i :: 0 <= i < |vs| ==> IsJson(vs[i])
    ensures AllJson(vs)
  {
    if vs != [] {
      assert forall i :: 0 <= i < |vs| - 1 ==> vs[1..][i] == vs[i + 1];
      AllJsonOf(vs[1..]);
    }
  }

  /** The array `JSON.stringify` sees for an application form. */
  function FormValue(fields: seq<FormField>): (v: Value)
    ensures v.Arr? && |v.elems| == |fields| && IsJson(v)
    ensures forall i :: 0 <= i < |fields| ==> v.elems[i] == FieldValue(fields[i])
  {
    var es := seq(|fields|, i requires 0 <= i < |fields| => FieldValue(fields[i]));
    assert forall i :: 0 <= i < |es| ==> IsJson(es[i]) by {
      forall i | 0 <= i < |es| ensures IsJson(es[i]) {
        FieldValueProperties(fields[i]);
      }
    }
    AllJsonOf(es);
    Arr(es)
  }
}
