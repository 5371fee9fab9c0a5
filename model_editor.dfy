/**
 * The schema editor inside the create-model modal (`ModelEditor`): a list of
 * fields, the model type, and the JSON preview generated from the fields.
 */
module ModelEditing {
  import opened Options
  import opened Seqs

  /** One schema field; `kind` is the field's `type`. */
  datatype Field = Field(id: int, name: string, kind: string, required: bool)

  function FieldId(f: Field): int { f.id }

  const FieldTypes: seq<string> := ["String", "Number", "Boolean", "Date", "Array", "Object"]

  const ModelTypes: seq<string> := ["状态数据 (Status)", "结果数据 (Result)"]

  const InitialFields: seq<Field> := [Field(1, "id", "String", true), Field(2, "timestamp", "Date", true)]

  /** What a submitted editor hands to the model list. */
  datatype ModelDraft = ModelDraft(name: string, description: string, kind: string, fields: seq<Field>)

  // ---------------------------------------------------------------------------
  // the preview
  // ---------------------------------------------------------------------------

  /** A value of the preview object: a string, a number, a boolean, `[]`, `{}` or `null`. */
  datatype Sample = SText(text: string) | SNumber(number: int) | SBool(flag: bool) | SEmptyArray | SEmptyObject | SNull

  /**
   * The sample shown for a field of type `kind`; `now` is the current time as an ISO
   * string (`new Date().toISOString()`), which a `Date` field shows.
   */
  function SampleFor(kind: string, now: string): (s: Sample)
    ensures s.SNull? <==> kind !in FieldTypes
    ensures s.SText? <==> kind == "String" || kind == "Date"
    ensures kind == "String" ==> s == SText("sample_text")
    ensures kind == "Date" ==> s == SText(now)
    ensures kind == "Number" <==> s == SNumber(123)
    ensures kind == "Boolean" <==> s == SBool(true)
    ensures kind == "Array" <==> s.SEmptyArray?
    ensures kind == "Object" <==> s.SEmptyObject?
  {
    if kind == "String" then SText("sample_text")
    else if kind == "Number" then SNumber(123)
    else if kind == "Boolean" then SBool(true)
    else if kind == "Date" then SText(now)
    else if kind == "Array" then SEmptyArray
    else if kind == "Object" then SEmptyObject
    else SNull
  }

  /**
   * The preview object: each field in list order assigns its sample to its name, so
   * the preview only ever holds keys that are field names.
   */
  function MockOf(fields: seq<Field>, now: string): (r: map<string, Sample>)
    ensures forall k :: k in r ==> exists f :: f in fields && f.name == k
  {
    if fields == [] then map[]
    else
      var last := fields[|fields| - 1];
      MockOf(fields[..|fields| - 1], now)[last.name := SampleFor(last.kind, now)]
  }

  function Names(fields: seq<Field>): set<string> {
    set f | f in fields :: f.name
  }

  /** The preview has exactly one key per distinct field name. */
  lemma {:induction false} MockKeys(fields: seq<Field>, now: string)
    ensures MockOf(fields, now).Keys == Names(fields)
  {
    if fields != [] {
      var init := fields[..|fields| - 1];
      MockKeys(init, now);
      assert fields == init + [fields[|fields| - 1]];
      assert Names(fields) == Names(init) + {fields[|fields| - 1].name};
    }
  }

  /** When two fields share a name the later one's sample is shown. */
  lemma {:induction false} MockLastWins(fields: seq<Field>, now: string, i: int)
    requires 0 <= i < |fields|
    requires forall j :: i < j < |fields| ==> fields[j].name != fields[i].name
    ensures fields[i].name in MockOf(fields, now)
    ensures MockOf(fields, now)[fields[i].name] == SampleFor(fields[i].kind, now)
  {
    if i < |fields| - 1 {
      var init := fields[..|fields| - 1];
      MockLastWins(init, now, i);
    }
  }

  /** The effect that builds the preview, one field after another. */
  method GenerateMock(fields: seq<Field>, now: string) returns (mock: map<string, Sample>)
    ensures mock == MockOf(fields, now)
  {
    mock := map[];
    var i := 0;
    while i < |fields|
      invariant 0 <= i <= |fields|
      invariant mock == MockOf(fields[..i], now)
    {
      var f := fields[i];
      if f.kind == "String" {
        mock := mock[f.name := SText("sample_text")];
      } else if f.kind == "Number" {
        mock := mock[f.name := SNumber(123)];
      } else if f.kind == "Boolean" {
        mock := mock[f.name := SBool(true)];
      } else if f.kind == "Date" {
        mock := mock[f.name := SText(now)];
      } else if f.kind == "Array" {
        mock := mock[f.name := SEmptyArray];
      } else if f.kind == "Object" {
        mock := mock[f.name := SEmptyObject];
      } else {
        mock := mock[f.name := SNull];
      }
      assert fields[..i + 1][..i] == fields[..i];
      i := i + 1;
    }
    assert fields[..|fields|] == fields;
  }

  // ---------------------------------------------------------------------------
  // field edits
  // ---------------------------------------------------------------------------

  /** `updateField(id, key, value)` for the three keys the form edits. */
  datatype FieldEdit = Rename(name: string) | Retype(kind: string) | SetRequired(required: bool)

  function ApplyFieldEdit(f: Field, e: FieldEdit): (r: Field)
    ensures r.id == f.id
    ensures e.Rename? ==> r == f.(name := e.name)
    ensures e.Retype? ==> r == f.(kind := e.kind)
    ensures e.SetRequired? ==> r == f.(required := e.required)
    ensures e.Rename? ==> r.kind == f.kind && r.required == f.required
    ensures e.Retype? ==> r.name == f.name && r.required == f.required
    ensures e.SetRequired? ==> r.name == f.name && r.kind == f.kind
  {
    match e
    case Rename(name) => f.(name := name)
    case Retype(kind) => f.(kind := kind)
    case SetRequired(required) => f.(required := required)
  }

  /** `fields.map(f => f.id === id ? { ...f, [key]: value } : f)`. */
  function EditFields(fields: seq<Field>, id: int, e: FieldEdit): (r: seq<Field>)
    ensures |r| == |fields|
    ensures forall i :: 0 <= i < |fields| ==> r[i] == if fields[i].id == id then ApplyFieldEdit(fields[i], e) else fields[i]
  {
    MapKey(fields, FieldId, id, f => ApplyFieldEdit(f, e))
  }

  class ModelEditor {
    var fields: seq<Field>
    var modelType: string
    /**
     * The preview object. The effect on `fields` rebuilds it after the first render
     * and after every change to the fields, so each field handler ends with it.
     */
    var preview: map<string, Sample>

    /** Field ids are unique. */
    ghost predicate Valid()
      reads this
    {
      UniqueKeys(fields, FieldId)
    }

    /** The first render, followed by the effect; `now` is the time the effect reads. */
    constructor (now: string)
      ensures Valid()
      ensures fields == InitialFields && modelType == ModelTypes[0]
      ensures preview == MockOf(fields, now)
      ensures forall f :: f in fields ==> f.required
    {
      var mock := GenerateMock(InitialFields, now);
      fields := InitialFields;
      modelType := ModelTypes[0];
      preview := mock;
      new;
      assert FieldId(fields[0]) != FieldId(fields[1]);
    }

    /** The effect on `fields`: the preview is rebuilt from the current fields. */
    method RefreshPreview(now: string)
      requires Valid()
      modifies this`preview
      ensures Valid()
      ensures preview == MockOf(fields, now)
    {
      preview := GenerateMock(fields, now);
    }

    /** `addField`: appends a blank optional `String` field under the supplied fresh id (`Date.now()`). */
    method AddField(freshId: int, now: string)
      requires Valid()
      requires !HasKey(fields, FieldId, freshId)
      modifies this`fields, this`preview
      ensures Valid()
      ensures fields == old(fields) + [Field(freshId, "", "String", false)]
      ensures preview == MockOf(fields, now)
    {
      AppendFreshKeepsUnique(fields, FieldId, Field(freshId, "", "String", false));
      fields := fields + [Field(freshId, "", "String", false)];
      RefreshPreview(now);
    }

    /** `removeField`: drops the fields with that id; the rest keep their order. */
    method RemoveField(id: int, now: string)
      requires Valid()
      modifies this`fields, this`preview
      ensures Valid()
      ensures fields == WithoutKey(old(fields), FieldId, id)
      ensures !HasKey(fields, FieldId, id) && IsSubseq(fields, old(fields))
      ensures preview == MockOf(fields, now)
    {
      WithoutKeyKeepsUnique(fields, FieldId, id);
      fields := WithoutKey(fields, FieldId, id);
      RefreshPreview(now);
    }

    /** `updateField`: changes one key of the field with that id and nothing else. */
    method UpdateField(id: int, e: FieldEdit, now: string)
      requires Valid()
      modifies this`fields, this`preview
      ensures Valid()
      ensures fields == EditFields(old(fields), id, e)
      ensures preview == MockOf(fields, now)
    {
      MapKeyKeepsKeys(fields, FieldId, id, f => ApplyFieldEdit(f, e));
      fields := EditFields(fields, id, e);
      RefreshPreview(now);
    }

    /** The model type select. */
    method SetModelType(t: string)
      requires Valid()
      modifies this`modelType
      ensures Valid() && modelType == t
    {
      modelType := t;
    }

    /** `handleSubmit`: the form's name and description with the current type and fields, unchanged. */
    method Submit(name: string, description: string) returns (draft: ModelDraft)
      requires Valid()
      ensures draft.name == name && draft.description == description
      ensures draft.kind == modelType && draft.fields == fields
    {
      draft := ModelDraft(name, description, modelType, fields);
    }
  }
}
