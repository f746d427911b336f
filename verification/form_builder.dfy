/** The application-form builder: a list of form fields the master edits
    by adding, updating, removing and dragging fields and by editing the
    options of multiple-choice fields. The edits are pure functions of the
    field list; the builder object holds the list and the index of the
    field being dragged. */
module FormBuilder {
  import opened Wrappers
  import opened Types
  import opened Seqs

  // ---------------------------------------------------------------------
  // Adding a field
  // ---------------------------------------------------------------------

  /** A freshly added field: empty label, optional, one empty option for a
      multiple-choice field, an empty placeholder for the text fields. */
  function NewField(t: FieldType, id: string): FormField
  {
    FormField(id, TypeName(t), "", false,
      if t == MultipleChoice then Some([""]) else None,
      if t == TextInput || t == Textarea then Some("") else None)
  }

  /** The list with one new field of type `t` appended. The id is an input:
      the builder derives it from the clock, so nothing makes it unique. */
  function FieldAdded(fields: seq<FormField>, t: FieldType, id: string): (r: seq<FormField>)
    ensures |r| == |fields| + 1 && r[..|fields|] == fields
    ensures r[|fields|].id == id && r[|fields|].fieldType == TypeName(t)
    ensures r[|fields|].labelText == "" && !r[|fields|].required
    ensures r[|fields|].options == (if t == MultipleChoice then Some([""]) else None)
    ensures r[|fields|].placeholder.Some? <==> t == TextInput || t == Textarea
    ensures r[|fields|].placeholder.Some? ==> r[|fields|].placeholder.value == ""
  {
    fields + [NewField(t, id)]
  }

  // ---------------------------------------------------------------------
  // Updating and removing a field
  // ---------------------------------------------------------------------

  /** A partial field, as `{ ...field, ...updates }` reads it: `None` is a key
      the update does not carry; for the optional attributes `Some(None)` is
      a key present with the value `undefined`. */
  datatype FieldUpdate = FieldUpdate(
    id: Option<string>,
    fieldType: Option<string>,
    labelText: Option<string>,
    required: Option<bool>,
    options: Option<Option<seq<string>>>,
    placeholder: Option<Option<string>>)

  const NoChange := FieldUpdate(None, None, None, None, None, None)

  function OptionsUpdate(os: seq<string>): FieldUpdate
  {
    NoChange.(options := Some(Some(os)))
  }

  function Pick<T>(update: Option<T>, current: T): T
  {
    if update.Some? then update.value else current
  }

  /** The spread merge: every key the update carries wins. */
  function Merge(f: FormField, u: FieldUpdate): FormField
  {
    FormField(Pick(u.id, f.id), Pick(u.fieldType, f.fieldType), Pick(u.labelText, f.labelText),
      Pick(u.required, f.required), Pick(u.options, f.options), Pick(u.placeholder, f.placeholder))
  }

  /** An update that carries no key changes nothing. */
  lemma MergeNoChange(f: FormField)
    ensures Merge(f, NoChange) == f
  {
  }

  /** Applying the same update twice is applying it once. */
  lemma MergeIdempotent(f: FormField, u: FieldUpdate)
    ensures Merge(Merge(f, u), u) == Merge(f, u)
  {
  }

  /** The list with the update merged into the field at `index`. */
  function FieldUpdated(fields: seq<FormField>, index: int, u: FieldUpdate): (r: seq<FormField>)
    ensures |r| == |fields|
    ensures forall i :: 0 <= i < |fields| ==> r[i] == if i == index then Merge(fields[i], u) else fields[i]
    ensures !(0 <= index < |fields|) ==> r == fields
  {
    if 0 <= index < |fields| then Updated(fields, index, Merge(fields[index], u)) else fields
  }

  /** The list without the field at `index`. */
  function FieldRemoved(fields: seq<FormField>, index: int): (r: seq<FormField>)
    ensures 0 <= index < |fields| ==> |r| == |fields| - 1
    ensures 0 <= index < |fields| ==> r == fields[..index] + fields[index + 1..]
    ensures !(0 <= index < |fields|) ==> r == fields
  {
    RemovedAt(fields, index)
  }

  // ---------------------------------------------------------------------
  // Options of a multiple-choice field
  // ---------------------------------------------------------------------

  function OptionsOrEmpty(options: Option<seq<string>>): seq<string>
  {
    if options.Some? then options.value else []
  }

  /** Appends an empty option to a multiple-choice field; missing options
      count as none. Any other field is left alone. */
  function OptionAdded(fields: seq<FormField>, fieldIndex: int): (r: seq<FormField>)
    requires 0 <= fieldIndex < |fields|
    ensures fields[fieldIndex].fieldType != "multiple-choice" ==> r == fields
    ensures fields[fieldIndex].fieldType == "multiple-choice" ==>
      r == fields[fieldIndex := fields[fieldIndex].(options := Some(OptionsOrEmpty(fields[fieldIndex].options) + [""]))]
  {
    var field := fields[fieldIndex];
    if field.fieldType == "multiple-choice" then
      FieldUpdated(fields, fieldIndex, OptionsUpdate(OptionsOrEmpty(field.options) + [""]))
    else fields
  }

  /** Whether the option edits apply: a multiple-choice field that has options. */
  predicate HasOptions(f: FormField)
  {
    f.fieldType == "multiple-choice" && f.options.Some?
  }

  /** Replaces the option at `optionIndex` of a multiple-choice field. */
  function OptionUpdated(fields: seq<FormField>, fieldIndex: int, optionIndex: int, value: string): (r: seq<FormField>)
    requires 0 <= fieldIndex < |fields|
    ensures !HasOptions(fields[fieldIndex]) ==> r == fields
    ensures HasOptions(fields[fieldIndex]) ==>
      r == fields[fieldIndex := fields[fieldIndex].(options := Some(Updated(fields[fieldIndex].options.value, optionIndex, value)))]
  {
    var field := fields[fieldIndex];
    if HasOptions(field) then
      FieldUpdated(fields, fieldIndex, OptionsUpdate(Updated(field.options.value, optionIndex, value)))
    else fields
  }

  /** Deletes the option at `optionIndex` of a multiple-choice field. */
  function OptionRemoved(fields: seq<FormField>, fieldIndex: int, optionIndex: int): (r: seq<FormField>)
    requires 0 <= fieldIndex < |fields|
    ensures !HasOptions(fields[fieldIndex]) ==> r == fields
    ensures HasOptions(fields[fieldIndex]) ==>
      r == fields[fieldIndex := fields[fieldIndex].(options := Some(RemovedAt(fields[fieldIndex].options.value, optionIndex)))]
  {
    var field := fields[fieldIndex];
    if HasOptions(field) then
      FieldUpdated(fields, fieldIndex, OptionsUpdate(RemovedAt(field.options.value, optionIndex)))
    else fields
  }

  /** Adding an option and removing it again restores the field. */
  lemma OptionAddedRemoved(fields: seq<FormField>, fieldIndex: nat)
    requires fieldIndex < |fields| && HasOptions(fields[fieldIndex])
    ensures OptionRemoved(OptionAdded(fields, fieldIndex), fieldIndex, |fields[fieldIndex].options.value|) == fields
  {
    var os := fields[fieldIndex].options.value;
    assert RemovedAt(os + [""], |os|) == os by {
      assert (os + [""])[..|os|] == os;
    }
  }

  // ---------------------------------------------------------------------
  // Field ids
  // ---------------------------------------------------------------------

  predicate DistinctIds(fields: seq<FormField>)
  {
    forall i, j :: 0 <= i < j < |fields| ==> fields[i].id != fields[j].id
  }

  /** Ids stay distinct when the new field's id is not already in use. */
  lemma AddedKeepsIdsDistinct(fields: seq<FormField>, t: FieldType, id: string)
    requires DistinctIds(fields)
    requires forall i :: 0 <= i < |fields| ==> fields[i].id != id
    ensures DistinctIds(FieldAdded(fields, t, id))
  {
  }

  /** Removing a field keeps the remaining ids distinct. */
  lemma RemovedKeepsIdsDistinct(fields: seq<FormField>, index: int)
    requires DistinctIds(fields)
    ensures DistinctIds(FieldRemoved(fields, index))
  {
    var r := FieldRemoved(fields, index);
    if 0 <= index < |fields| {
      forall i, j | 0 <= i < j < |r| ensures r[i].id != r[j].id {
        assert r[i] == fields[if i < index then i else i + 1];
        assert r[j] == fields[if j < index then j else j + 1];
      }
    }
  }

  // ---------------------------------------------------------------------
  // The builder: the field list and the dragged index
  // ---------------------------------------------------------------------

  class Builder {
    var fields: seq<FormField>
    /** The index of the field being dragged, or None when no drag is active. */
    var dragged: Option<int>

    constructor (fields: seq<FormField>)
      ensures this.fields == fields && dragged == None
    {
      this.fields := fields;
      dragged := None;
    }

    method AddField(t: FieldType, id: string)
      modifies this
      ensures fields == FieldAdded(old(fields), t, id) && dragged == old(dragged)
    {
      fields := FieldAdded(fields, t, id);
    }

    method UpdateField(index: int, u: FieldUpdate)
      modifies this
      ensures fields == FieldUpdated(old(fields), index, u) && dragged == old(dragged)
    {
      fields := FieldUpdated(fields, index, u);
    }

    method RemoveField(index: int)
      modifies this
      ensures fields == FieldRemoved(old(fields), index) && dragged == old(dragged)
    {
      fields := FieldRemoved(fields, index);
    }

    method AddOption(fieldIndex: int)
      requires 0 <= fieldIndex < |fields|
      modifies this
      ensures fields == OptionAdded(old(fields), fieldIndex) && dragged == old(dragged)
    {
      fields := OptionAdded(fields, fieldIndex);
    }

    method UpdateOption(fieldIndex: int, optionIndex: int, value: string)
      requires 0 <= fieldIndex < |fields|
      modifies this
      ensures fields == OptionUpdated(old(fields), fieldIndex, optionIndex, value) && dragged == old(dragged)
    {
      fields := OptionUpdated(fields, fieldIndex, optionIndex, value);
    }

    method RemoveOption(fieldIndex: int, optionIndex: int)
      requires 0 <= fieldIndex < |fields|
      modifies this
      ensures fields == OptionRemoved(old(fields), fieldIndex, optionIndex) && dragged == old(dragged)
    {
      fields := OptionRemoved(fields, fieldIndex, optionIndex);
    }

    method HandleDragStart(index: int)
      modifies this
      ensures dragged == Some(index) && fields == old(fields)
    {
      dragged := Some(index);
    }

    /** Drops the dragged field onto `target`: on a copy of the list, the
        field is spliced out and then spliced back in at `target` of the
        shortened list. The drag ends. Without an active drag nothing changes. */
    method HandleDrop(target: nat)
      requires dragged.Some? ==> 0 <= dragged.value < |fields|
      modifies this
      ensures old(dragged).None? ==> fields == old(fields) && dragged == None
      ensures old(dragged).Some? ==> fields == Moved(old(fields), old(dragged).value, target) && dragged == None
    {
      if dragged.None? {
        return;
      }
      var from := dragged.value;
      var fs := fields;
      var copy := new FormField[|fs|](i requires 0 <= i < |fs| => fs[i]);
      var draggedField := copy[from];
      assert copy[..] == fs;
      var rest := RemovedAt(fs, from);
      SpliceOut(copy, from);
      var at := InsertionPoint(rest, target);
      SpliceIn(copy, at, draggedField);
      assert Inserted(rest, at, draggedField) == Inserted(rest, target, draggedField);
      fields := copy[..];
      dragged := None;
    }
  }

  /** The drag state can outlive the field it names: a drag of the last
      field that ends off every field keeps its index, and removing that
      field leaves the index one past the end of the list. A drop then
      falls outside `HandleDrop`'s precondition. */
  method StaleDragIndex(fields: seq<FormField>) returns (b: Builder)
    requires fields != []
    ensures b.dragged == Some(|fields| - 1) && b.fields == fields[..|fields| - 1]
    ensures !(0 <= b.dragged.value < |b.fields|)
  {
    b := new Builder(fields);
    b.HandleDragStart(|fields| - 1);
    b.RemoveField(|fields| - 1);
  }

  /** `a.splice(from, 1)` on an array whose length stays fixed: the
      elements after `from` move down one slot; the last slot keeps its
      old element. */
  method SpliceOut<T>(a: array<T>, from: nat)
    requires from < a.Length
    modifies a
    ensures a[..a.Length - 1] == RemovedAt(old(a[..]), from)
  {
    ghost var s := a[..];
    var i := from;
    while i < a.Length - 1
      invariant from <= i <= a.Length - 1
      invariant forall j :: 0 <= j < from ==> a[j] == s[j]
      invariant forall j :: from <= j < i ==> a[j] == s[j + 1]
      invariant forall j :: i <= j < a.Length ==> a[j] == s[j]
    {
      a[i] := a[i + 1];
      i := i + 1;
    }
    assert a[..a.Length - 1] == s[..from] + s[from + 1..];
  }

  /** `a.splice(at, 0, x)` on the first `a.Length - 1` elements of `a`: the
      elements from `at` on move up one slot, overwriting the last one, and
      `x` takes slot `at`. */
  method SpliceIn<T>(a: array<T>, at: nat, x: T)
    requires at < a.Length
    modifies a
    ensures a[..] == Inserted(old(a[..a.Length - 1]), at, x)
  {
    ghost var s := a[..a.Length - 1];
    var i := a.Length - 1;
    while i > at
      invariant at <= i <= a.Length - 1
      invariant forall j :: 0 <= j < i ==> a[j] == s[j]
      invariant forall j :: i < j < a.Length ==> a[j] == s[j - 1]
    {
      a[i] := a[i - 1];
      i := i - 1;
    }
    a[at] := x;
    assert InsertionPoint(s, at) == at;
    assert a[..] == s[..at] + [x] + s[at..];
  }

  /** Dropping keeps every field and only reorders them. */
  lemma DropPermutes(fields: seq<FormField>, from: nat, target: nat)
    requires from < |fields|
    ensures |Moved(fields, from, target)| == |fields|
    ensures multiset(Moved(fields, from, target)) == multiset(fields)
  {
    MovedShape(fields, from, target);
    MovedPermutes(fields, from, target);
  }
}
