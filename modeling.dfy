/**
 * The data-model catalogue (`ModelingList`): model cards with a name search and a
 * type filter, a create modal hosting the schema editor, duplication, import of a
 * model file and a preview modal. Creating, duplicating and importing are offered
 * to administrators only.
 */
module Modeling {
  import opened Options
  import opened Seqs
  import opened Text
  import opened Ui
  import opened ModelEditing

  /** A model card; `kind` is the model's `type`. */
  datatype Model = Model(id: int, name: string, description: string, kind: string, fields: seq<Field>, lastModified: string)

  function ModelId(m: Model): int { m.id }

  /** The last-modified text of a model that was just created, copied or imported. */
  const JustNow: string := "刚刚"

  const CopySuffix: string := " (副本)"
  const ImportSuffix: string := " (导入)"

  /** The role that is offered the import, create, edit, copy and delete controls. */
  const Admin: string := "admin"

  /** The options of the type filter; `All` disables it. */
  const TypeFilters: seq<string> := ["All", "Status", "Result", "Advanced"]

  // ---------------------------------------------------------------------------
  // the card list
  // ---------------------------------------------------------------------------

  /** `filteredModels`: the lower-cased name contains the lower-cased term, and the type contains the filter unless it is `All`. */
  predicate Shown(m: Model, term: string, filterType: string) {
    Includes(Lower(m.name), Lower(term)) && (filterType == "All" || Includes(m.kind, filterType))
  }

  function ShownFor(term: string, filterType: string): Model -> bool {
    m => Shown(m, term, filterType)
  }

  function FilteredModels(models: seq<Model>, term: string, filterType: string): (r: seq<Model>)
    ensures forall m :: m in r <==> m in models && Shown(m, term, filterType)
    ensures IsSubseq(r, models)
    ensures term == "" && filterType == "All" ==> r == models
  {
    FilterIsSubseq(models, ShownFor(term, filterType));
    if term == "" && filterType == "All" then
      forall i | 0 <= i < |models| ensures Shown(models[i], term, filterType) {
        IncludesEmpty(Lower(models[i].name));
      }
      FilterKeepsAll(models, ShownFor(term, filterType));
      Filter(models, ShownFor(term, filterType))
    else
      Filter(models, ShownFor(term, filterType))
  }

  /** Narrowing by type only removes cards: every card shown under a type filter is shown under `All`. */
  lemma TypeFilterNarrows(models: seq<Model>, term: string, filterType: string, m: Model)
    ensures m in FilteredModels(models, term, filterType) ==> m in FilteredModels(models, term, "All")
  {
  }

  /** The badge of a card: the type up to its first space, in the warning colour for status data. */
  datatype TypeBadge = TypeBadge(text: string, variant: Variant)

  function BadgeFor(kind: string): (b: TypeBadge)
    ensures b.text == BeforeFirst(kind, ' ') && ' ' !in b.text && b.text <= kind
    ensures b.variant == Warning <==> Includes(kind, "Status")
    ensures b.variant == Warning || b.variant == Success
  {
    TypeBadge(BeforeFirst(kind, ' '), if Includes(kind, "Status") then Warning else Success)
  }

  /** Status data, the editor's first type, shows its Chinese name in the warning colour. */
  lemma StatusTypeBadge()
    ensures BadgeFor(ModelTypes[0]) == TypeBadge("状态数据", Warning)
  {
    var t := ModelTypes[0];
    StatusTypeHead(t);
    assert OccursAt(t, "Status", 6);
  }

  lemma StatusTypeHead(t: string)
    requires t == ModelTypes[0]
    ensures BeforeFirst(t, ' ') == "状态数据"
  {
    assert t == "状态数据" + " " + "(Status)";
    BeforeFirstOfJoin("状态数据", ' ', "(Status)");
  }

  /** Result data, the editor's second type, shows its Chinese name in the success colour. */
  lemma ResultTypeBadge()
    ensures BadgeFor(ModelTypes[1]) == TypeBadge("结果数据", Success)
  {
    var t := ModelTypes[1];
    ResultTypeHead(t);
    ResultTypeNotStatus(t);
  }

  lemma ResultTypeHead(t: string)
    requires t == ModelTypes[1]
    ensures BeforeFirst(t, ' ') == "结果数据"
  {
    assert t == "结果数据" + " " + "(Result)";
    BeforeFirstOfJoin("结果数据", ' ', "(Result)");
  }

  lemma ResultTypeNotStatus(t: string)
    requires t == ModelTypes[1]
    ensures !Includes(t, "Status")
  {
    assert 'S' !in t;
    MissingFirstCharExcludes(t, "Status");
  }

  // ---------------------------------------------------------------------------
  // importing a model file
  // ---------------------------------------------------------------------------

  /**
   * The parsed content of an imported file, as far as the list reads it: each
   * property may be absent (`undefined`).
   */
  datatype ImportedObject = ImportedObject(
    name: Option<string>, description: Option<string>, kind: Option<string>, fields: Option<seq<Field>>)

  /** The validation as written: a non-empty name and a `fields` property. */
  predicate ImportAcceptedAsWritten(obj: ImportedObject) {
    obj.name.Some? && obj.name.value != "" && obj.fields.Some?
  }

  /** As written, a file with a name and fields but no type is accepted, although every card reads the type. */
  lemma TypelessImportAcceptedAsWritten()
    ensures var obj := ImportedObject(Some("球员统计"), None, None, Some([]));
            ImportAcceptedAsWritten(obj) && obj.kind.None?
  {
  }

  /** The validation as intended: a non-empty name, a `fields` property and a type. */
  predicate ImportAccepted(obj: ImportedObject) {
    ImportAcceptedAsWritten(obj) && obj.kind.Some?
  }

  /** The corrected validation turns away exactly the typeless files the written one let through. */
  lemma ImportCorrectionRejectsOnlyTypeless(obj: ImportedObject)
    ensures ImportAccepted(obj) ==> ImportAcceptedAsWritten(obj)
    ensures ImportAcceptedAsWritten(obj) && !ImportAccepted(obj) ==> obj.kind.None?
  {
  }

  /**
   * The card an accepted file becomes: its own properties under a fresh id, the
   * name marked as imported, and just modified. An absent description is empty.
   */
  function ImportedModel(obj: ImportedObject, freshId: int): (r: Option<Model>)
    ensures r.Some? <==> ImportAccepted(obj)
    ensures r.Some? ==> r.value == Model(freshId, obj.name.value + ImportSuffix, obj.description.GetOr(""),
                                         obj.kind.value, obj.fields.value, JustNow)
  {
    if ImportAccepted(obj) then
      Some(Model(freshId, obj.name.value + ImportSuffix, obj.description.GetOr(""), obj.kind.value, obj.fields.value, JustNow))
    else None
  }

  // ---------------------------------------------------------------------------
  // the component
  // ---------------------------------------------------------------------------

  class ModelingList {
    const userRole: string
    var models: seq<Model>
    var searchTerm: string
    var filterType: string
    var isModalOpen: bool
    var previewModel: Option<Model>

    /** Model ids are unique. */
    ghost predicate Valid()
      reads this
    {
      UniqueKeys(models, ModelId)
    }

    constructor (role: string, initial: seq<Model>)
      requires UniqueKeys(initial, ModelId)
      ensures Valid()
      ensures userRole == role && models == initial
      ensures searchTerm == "" && filterType == "All" && !isModalOpen && previewModel == None
    {
      userRole := role;
      models := initial;
      searchTerm := "";
      filterType := "All";
      isModalOpen := false;
      previewModel := None;
    }

    /** The cards on screen. */
    function Visible(): (r: seq<Model>)
      reads this
      ensures forall m :: m in r <==> m in models && Shown(m, searchTerm, filterType)
    {
      FilteredModels(models, searchTerm, filterType)
    }

    method SetSearchTerm(term: string)
      requires Valid()
      modifies this`searchTerm
      ensures Valid() && searchTerm == term
    {
      searchTerm := term;
    }

    method SetFilterType(t: string)
      requires Valid()
      modifies this`filterType
      ensures Valid() && filterType == t
    {
      filterType := t;
    }

    /** The create button, offered to administrators. */
    method OpenCreate()
      requires Valid() && userRole == Admin
      modifies this`isModalOpen
      ensures Valid() && isModalOpen
    {
      isModalOpen := true;
    }

    /** The create modal's close and cancel buttons. */
    method CloseModal()
      requires Valid()
      modifies this`isModalOpen
      ensures Valid() && !isModalOpen
    {
      isModalOpen := false;
    }

    /**
     * `handleSaveModel`: the editor's draft becomes the first card, under the supplied
     * fresh id (`Date.now()`), just modified; the modal closes.
     */
    method SaveModel(draft: ModelDraft, freshId: int)
      requires Valid()
      requires !HasKey(models, ModelId, freshId)
      modifies this`models, this`isModalOpen
      ensures Valid() && !isModalOpen
      ensures models == [Model(freshId, draft.name, draft.description, draft.kind, draft.fields, JustNow)] + old(models)
      ensures |models| == |old(models)| + 1 && models[1..] == old(models)
    {
      var m := Model(freshId, draft.name, draft.description, draft.kind, draft.fields, JustNow);
      AppendFreshKeepsUnique(models, ModelId, m);
      models := [m] + models;
      isModalOpen := false;
    }

    /** `handleDuplicateModel`: a copy of `m` with a fresh id and a marked name becomes the first card. */
    method DuplicateModel(m: Model, freshId: int)
      requires Valid() && userRole == Admin
      requires !HasKey(models, ModelId, freshId)
      modifies this`models
      ensures Valid()
      ensures models == [m.(id := freshId, name := m.name + CopySuffix, lastModified := JustNow)] + old(models)
      ensures models[0].kind == m.kind && models[0].description == m.description && models[0].fields == m.fields
    {
      var copy := m.(id := freshId, name := m.name + CopySuffix, lastModified := JustNow);
      AppendFreshKeepsUnique(models, ModelId, copy);
      models := [copy] + models;
    }

    /**
     * The file input's reader callback once the file is parsed: a rejected object
     * leaves the list as it was (the alert is not modelled); an accepted one becomes
     * the first card.
     */
    method Import(obj: ImportedObject, freshId: int)
      requires Valid() && userRole == Admin
      requires !HasKey(models, ModelId, freshId)
      modifies this`models
      ensures Valid()
      ensures !ImportAccepted(obj) ==> models == old(models)
      ensures ImportAccepted(obj) ==> models == [ImportedModel(obj, freshId).value] + old(models)
    {
      var imported := ImportedModel(obj, freshId);
      if imported.None? {
        return;
      }
      AppendFreshKeepsUnique(models, ModelId, imported.value);
      models := [imported.value] + models;
    }

    /** The preview button of a card; the preview modal is open while a model is set. */
    method OpenPreview(m: Model)
      requires Valid()
      modifies this`previewModel
      ensures Valid() && previewModel == Some(m)
    {
      previewModel := Some(m);
    }

    method ClosePreview()
      requires Valid()
      modifies this`previewModel
      ensures Valid() && previewModel == None
    {
      previewModel := None;
    }
  }
}
