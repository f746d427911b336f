/** The student's application form: one input per form field of a known
    type, the required rule each input carries, the responses object keyed
    by field id, and the submit handler's state. */
module ApplicationForm {
  import opened Wrappers
  import opened Json
  import opened Types
  import opened TypeGuards
  import opened Store
  import opened ApplicationService
  import CreateWorkshopPage

  // ---------------------------------------------------------------------
  // Rendering
  // ---------------------------------------------------------------------

  /** The input a field is shown as. */
  datatype Control =
    | TextBox(placeholder: string)
    | TextBlock(placeholder: string)
    | Radios(choices: seq<string>)
    | ImagePicker
    | VideoPicker

  /** A registered input: its name in the form's values, its label, its
      control and the message of its required rule, if it has one. */
  datatype Input = Input(name: string, labelText: string, control: Control, rule: Option<string>)

  /** The required rule: a message when the field is required, none otherwise. */
  function RequiredRule(required: bool, message: string): (rule: Option<string>)
    ensures rule.Some? <==> required
    ensures required ==> rule.value == message
  {
    if required then Some(message) else None
  }

  /** A multiple-choice field without options: its radios are registered one
      per option, so it shows its label but registers no rule. */
  predicate NoChoices(f: FormField)
  {
    f.fieldType == "multiple-choice" && (f.options.None? || f.options.value == [])
  }

  /** `renderField`: the input for a field of a known type, nothing for any other type. */
  function RenderField(f: FormField): (r: Option<Input>)
    ensures r.Some? <==> FieldTypeNamed(f.fieldType).Some?
    ensures r.Some? ==> r.value.name == f.id && r.value.labelText == f.labelText
    ensures r.Some? ==> (r.value.rule.Some? <==> f.required && !NoChoices(f))
    ensures r.Some? && f.fieldType == "multiple-choice" ==>
      r.value.control == Radios(if f.options.Some? then f.options.value else [])
    ensures r.Some? && f.required && !NoChoices(f) && f.fieldType == "multiple-choice" ==>
      r.value.rule == Some("Please select an option for " + f.labelText)
    ensures r.Some? && f.required && f.fieldType != "multiple-choice" ==>
      r.value.rule == Some(f.labelText + " is required")
  {
    var isRequired := f.required;
    var required := RequiredRule(isRequired, f.labelText + " is required");
    var placeholder := if f.placeholder.Some? then f.placeholder.value else "";
    match FieldTypeNamed(f.fieldType)
    case None => None
    case Some(TextInput) => Some(Input(f.id, f.labelText, TextBox(placeholder), required))
    case Some(Textarea) => Some(Input(f.id, f.labelText, TextBlock(placeholder), required))
    case Some(MultipleChoice) =>
      var choices := if f.options.Some? then f.options.value else [];
      Some(Input(f.id, f.labelText, Radios(choices), RequiredRule(isRequired && choices != [], "Please select an option for " + f.labelText)))
    case Some(ImageUpload) => Some(Input(f.id, f.labelText, ImagePicker, required))
    case Some(VideoUpload) => Some(Input(f.id, f.labelText, VideoPicker, required))
  }

  /** The rendered form: the fields' inputs in order, skipping what renders nothing. */
  function RenderForm(form: seq<FormField>): (inputs: seq<Input>)
    ensures |inputs| <= |form|
  {
    if form == [] then []
    else
      match RenderField(form[0])
      case None => RenderForm(form[1..])
      case Some(input) => [input] + RenderForm(form[1..])
  }

  lemma {:induction false} RenderFormConcat(a: seq<FormField>, b: seq<FormField>)
    ensures RenderForm(a + b) == RenderForm(a) + RenderForm(b)
  {
    if a != [] {
      assert (a + b)[0] == a[0] && (a + b)[1..] == a[1..] + b;
      RenderFormConcat(a[1..], b);
      match RenderField(a[0])
      case None =>
      case Some(input) =>
        assert [input] + (RenderForm(a[1..]) + RenderForm(b)) == ([input] + RenderForm(a[1..])) + RenderForm(b);
    } else {
      assert a + b == b;
    }
  }

  /** A field of an unknown type takes nothing away from the others. */
  lemma UnknownTypeRendersNothing(a: seq<FormField>, f: FormField, b: seq<FormField>)
    requires FieldTypeNamed(f.fieldType).None?
    ensures RenderForm(a + [f] + b) == RenderForm(a + b)
  {
    assert RenderForm([f]) == [] by {
      assert [f][1..] == [];
    }
    calc {
      RenderForm(a + [f] + b);
      { RenderFormConcat(a + [f], b); }
      RenderForm(a + [f]) + RenderForm(b);
      { RenderFormConcat(a, [f]); }
      RenderForm(a) + RenderForm(b);
      { RenderFormConcat(a, b); }
      RenderForm(a + b);
    }
  }

  /** Every field of a known type has its input in the rendered form. */
  lemma {:induction false} RenderedInputs(form: seq<FormField>, i: nat)
    requires i < |form| && FieldTypeNamed(form[i].fieldType).Some?
    ensures RenderField(form[i]).value in RenderForm(form)
  {
    if i > 0 {
      RenderedInputs(form[1..], i - 1);
    }
  }

  // ---------------------------------------------------------------------
  // Values, validation and responses
  // ---------------------------------------------------------------------

  /** The form's current values by input name. */
  type Values = map<string, Value>

  /** An input with no answer: nothing entered, or an empty text. A radio
      group counts as answered once a radio is checked, whatever its value. */
  predicate Unanswered(values: Values, input: Input)
  {
    || input.name !in values
    || values[input.name] in {Undefined, Null}
    || (!input.control.Radios? && values[input.name] == Str(""))
  }

  /** The messages blocking a submit, one per unanswered required input. */
  function Errors(inputs: seq<Input>, values: Values): (errors: seq<Issue>)
    ensures |errors| <= |inputs|
  {
    if inputs == [] then []
    else
      var input := inputs[0];
      (if input.rule.Some? && Unanswered(values, input) then [Issue(input.name, input.rule.value)] else [])
      + Errors(inputs[1..], values)
  }

  /** The form submits exactly when every required input is answered;
      each blocking message names its input and carries the input's rule. */
  lemma {:induction false} ErrorsExactly(inputs: seq<Input>, values: Values)
    ensures Errors(inputs, values) == [] <==>
      forall i :: 0 <= i < |inputs| && inputs[i].rule.Some? ==> !Unanswered(values, inputs[i])
    ensures forall e :: e in Errors(inputs, values) ==>
      exists i :: 0 <= i < |inputs| && inputs[i].name == e.path && inputs[i].rule == Some(e.message)
  {
    if inputs != [] {
      ErrorsExactly(inputs[1..], values);
      var rest := Errors(inputs[1..], values);
      forall e | e in Errors(inputs, values)
        ensures exists i :: 0 <= i < |inputs| && inputs[i].name == e.path && inputs[i].rule == Some(e.message)
      {
        if e !in rest {
          assert inputs[0].name == e.path && inputs[0].rule == Some(e.message);
        } else {
          var i :| 0 <= i < |inputs[1..]| && inputs[1..][i].name == e.path && inputs[1..][i].rule == Some(e.message);
          assert inputs[i + 1] == inputs[1..][i];
        }
      }
      if forall i :: 0 <= i < |inputs| && inputs[i].rule.Some? ==> !Unanswered(values, inputs[i]) {
        forall i | 0 <= i < |inputs[1..]| && inputs[1..][i].rule.Some?
          ensures !Unanswered(values, inputs[1..][i])
        {
          assert inputs[1..][i] == inputs[i + 1];
        }
      }
      if Errors(inputs, values) == [] {
        forall i | 0 <= i < |inputs| && inputs[i].rule.Some?
          ensures !Unanswered(values, inputs[i])
        {
          if i > 0 {
            assert inputs[i] == inputs[1..][i - 1];
          }
        }
      }
    }
  }

  /** A multiple-choice field without options never blocks a submit, even
      when it is marked required. */
  lemma NoChoicesNeverBlocks(f: FormField, values: Values)
    requires NoChoices(f)
    ensures Errors(RenderForm([f]), values) == []
  {
    assert [f][1..] == [];
  }

  /** A checked radio whose option text is empty answers its group; an
      empty text box leaves its input unanswered. */
  lemma EmptyTextAnswersOnlyRadios(name: string, labelText: string, choices: seq<string>, message: string)
    ensures Errors([Input(name, labelText, Radios(choices), Some(message))], map[name := Str("")]) == []
    ensures Errors([Input(name, labelText, TextBox(""), Some(message))], map[name := Str("")]) == [Issue(name, message)]
  {
  }

  /** `setValue(field.id, file.name)`: choosing a file records its name;
      closing the dialog without a file changes nothing. */
  function PickFile(values: Values, name: string, file: Option<string>): (r: Values)
    ensures file.Some? ==> name in r && r[name] == Str(file.value)
    ensures forall k :: k != name ==> (k in r <==> k in values) && (k in values ==> r[k] == values[k])
    ensures file.None? ==> r == values
  {
    if file.Some? then values[name := Str(file.value)] else values
  }

  /** The submitted data: one property per rendered input, named after it. */
  function Responses(inputs: seq<Input>, values: Values): (data: seq<Member>)
    ensures Keys(data) == seq(|inputs|, i requires 0 <= i < |inputs| => inputs[i].name)
  {
    if inputs == [] then []
    else
      var name := inputs[0].name;
      var rest := Responses(inputs[1..], values);
      KeysCons(Member(name, if name in values then values[name] else Undefined), rest);
      [Member(name, if name in values then values[name] else Undefined)] + rest
  }

  /** With distinct field ids, the response under a field's id is the value
      entered for it; a picked file contributes its name. */
  lemma {:induction false} ResponseKeyedById(form: seq<FormField>, values: Values, i: nat, file: Option<string>)
    requires i < |form| && FieldTypeNamed(form[i].fieldType).Some?
    requires form[i].id in values
    ensures Lookup(Responses(RenderForm(form), values), form[i].id) == values[form[i].id]
    ensures file.Some? ==>
      Lookup(Responses(RenderForm(form), PickFile(values, form[i].id, file)), form[i].id) == Str(file.value)
  {
    RenderedInputs(form, i);
    ResponseOfInput(RenderForm(form), values, form[i].id);
    if file.Some? {
      ResponseOfInput(RenderForm(form), PickFile(values, form[i].id, file), form[i].id);
    }
  }

  /** Some rendered input carries this name. */
  ghost predicate Named(inputs: seq<Input>, name: string)
  {
    exists input :: input in inputs && input.name == name
  }

  lemma {:induction false} ResponseOfInput(inputs: seq<Input>, values: Values, name: string)
    requires Named(inputs, name) && name in values
    ensures Lookup(Responses(inputs, values), name) == values[name]
  {
    var data := Responses(inputs, values);
    LookupCons(data[0], data[1..], name);
    assert data == [data[0]] + data[1..];
    if inputs[0].name != name {
      var input :| input in inputs && input.name == name;
      assert input in inputs[1..];
      ResponseOfInput(inputs[1..], values, name);
    }
  }

  // ---------------------------------------------------------------------
  // Colour
  // ---------------------------------------------------------------------

  /** `workshop.formColor || '#3B82F6'`. */
  function FormColor(w: Workshop): (color: string)
    ensures color != ""
    ensures w.formColor.Some? && w.formColor.value != "" ==> color == w.formColor.value
    ensures w.formColor.None? || w.formColor == Some("") ==> color == DefaultFormColor
  {
    if w.formColor.Some? && w.formColor.value != "" then w.formColor.value else DefaultFormColor
  }

  /** A workshop created on the create page shows the colour chosen there,
      or the default blue when none was chosen. */
  lemma CreatedColorShown(master: User, f: CreateWorkshopPage.WorkshopForm, fields: seq<FormField>,
                          imageUrl: Option<string>, id: string, createdAt: string)
    ensures
      var w := SafeParseWorkshop(DocumentValue(CreateWorkshopPage.CreatedRecord(master, f, fields, imageUrl, id, createdAt)));
      FormColor(w) == if CreateWorkshopPage.Given(f.formColor) then f.formColor.value else DefaultFormColor
  {
    CreateWorkshopPage.CreatedDefaults(master, f, fields, imageUrl, id, createdAt);
  }

  // ---------------------------------------------------------------------
  // Submitting
  // ---------------------------------------------------------------------

  const SubmitFailed := "Failed to submit application. Please try again."

  /** What the form hands to the application service. */
  function Submission(workshopId: string, studentId: string, responses: seq<Member>): (data: seq<Member>)
    ensures DistinctKeys(data)
    ensures Lookup(data, "workshopId") == Str(workshopId)
    ensures Lookup(data, "studentId") == Str(studentId)
    ensures Lookup(data, "responses") == Obj(responses)
    ensures Lookup(data, "status") == Str("pending")
  {
    var data := [Member("workshopId", Str(workshopId)), Member("studentId", Str(studentId)),
      Member("responses", Obj(responses)), Member("status", Str("pending"))];
    LookupAt(data, 1);
    LookupAt(data, 2);
    LookupAt(data, 3);
    data
  }

  class ApplicationFormView {
    const user: Option<User>
    const workshop: Workshop
    const service: ApplicationService
    var isSubmitting: bool
    var submitError: string
    /** How often `onSuccess` has been called. */
    var successes: nat

    constructor (user: Option<User>, workshop: Workshop, service: ApplicationService)
      ensures this.user == user && this.workshop == workshop && this.service == service
      ensures !isSubmitting && submitError == "" && successes == 0
    {
      this.user := user;
      this.workshop := workshop;
      this.service := service;
      isSubmitting := false;
      submitError := "";
      successes := 0;
    }

    /** `onSubmit` with the form's data; `id` and `createdAt` are the ones
        the store assigns. Without a user nothing happens. */
    method OnSubmit(data: seq<Member>, id: string, createdAt: string)
      requires service.db.Valid() && service.workshops.db == service.db
      modifies this, service.db
      ensures service.db.Valid() && service.db.workshops == old(service.db.workshops)
      ensures user.None? ==>
        service.db.applications == old(service.db.applications) && service.db.online == old(service.db.online)
        && isSubmitting == old(isSubmitting) && submitError == old(submitError) && successes == old(successes)
      ensures user.Some? ==>
        var created := old(service.db.online) && workshop.id in old(service.db.workshops.docs)
          && id !in old(service.db.applications.docs);
        && !isSubmitting && service.db.online == old(service.db.online)
        && (created ==>
              var stored := SafeParseWorkshop(DocumentValue(old(service.db.workshops.docs)[workshop.id]));
              var request := Submission(workshop.id, user.value.id, data);
              && service.db.applications == Created(old(service.db.applications),
                   Document(id, createdAt, ApplicationRecord(request, InitialStatus(stored))))
              && submitError == "" && successes == old(successes) + 1)
        && (!created ==>
              && service.db.applications == old(service.db.applications)
              && submitError == SubmitFailed && successes == old(successes))
    {
      if user.None? {
        return;
      }
      isSubmitting := true;
      submitError := "";
      var request := Submission(workshop.id, user.value.id, data);
      var r := service.CreateApplication(request, id, createdAt);
      if r.Ok? {
        successes := successes + 1;
      } else {
        submitError := SubmitFailed;
      }
      isSubmitting := false;
    }
  }
}
