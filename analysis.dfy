/**
 * The visual query builder of the analysis screen (`AnalysisDashboard`): a model
 * select, the chips of the fields to query, a list of filter rows and the mock
 * result table.
 */
module Analysis {
  import opened Options
  import opened Seqs

  /** A filter row as it is added: field, operator and value. */
  datatype FilterRow = FilterRow(field: string, operator: string, value: string)

  const BlankFilter: FilterRow := FilterRow("", "=", "")

  datatype ResultRow = ResultRow(id: int, col1: string, col2: int, col3: string)

  /** The rows every query run shows. */
  const MockResults: seq<ResultRow> := [
    ResultRow(1, "Data A", 123, "2023-10-01"),
    ResultRow(2, "Data B", 456, "2023-10-02"),
    ResultRow(3, "Data C", 789, "2023-10-03")
  ]

  class AnalysisDashboard {
    /** The selected model's id as the select reports it; `""` for none. */
    var selectedModel: string
    var selectedFields: seq<string>
    var filters: seq<FilterRow>
    var results: Option<seq<ResultRow>>

    /** A field is selected at most once. */
    ghost predicate Valid()
      reads this
    {
      Distinct(selectedFields)
    }

    constructor ()
      ensures Valid()
      ensures selectedModel == "" && selectedFields == [] && filters == [] && results == None
    {
      selectedModel := "";
      selectedFields := [];
      filters := [];
      results := None;
    }

    /** The model select: another model is chosen and no field stays selected. */
    method SelectModel(model: string)
      requires Valid()
      modifies this`selectedModel, this`selectedFields
      ensures Valid()
      ensures selectedModel == model && selectedFields == []
    {
      selectedModel := model;
      selectedFields := [];
    }

    /** `handleAddField`: a field already selected changes nothing; another one is appended. */
    method AddField(field: string)
      requires Valid()
      modifies this`selectedFields
      ensures Valid()
      ensures selectedFields == AddIfAbsent(old(selectedFields), field)
    {
      AddIfAbsentPreservesDistinct(selectedFields, field);
      if field !in selectedFields {
        selectedFields := selectedFields + [field];
      }
    }

    /** `handleRemoveField`: the field is no longer selected; the others keep their order. */
    method RemoveField(field: string)
      requires Valid()
      modifies this`selectedFields
      ensures Valid()
      ensures selectedFields == Without(old(selectedFields), field)
      ensures field !in selectedFields && IsSubseq(selectedFields, old(selectedFields))
    {
      WithoutPreservesDistinct(selectedFields, field);
      selectedFields := Without(selectedFields, field);
    }

    /** Clicking a field chip: a selected field is removed, any other added. */
    method ChipClick(field: string)
      requires Valid()
      modifies this`selectedFields
      ensures Valid()
      ensures selectedFields == Toggle(old(selectedFields), field)
    {
      if field in selectedFields {
        RemoveField(field);
      } else {
        AddField(field);
      }
    }

    /** `handleAddFilter`: one blank row is appended. */
    method AddFilter()
      requires Valid()
      modifies this`filters
      ensures Valid()
      ensures filters == old(filters) + [BlankFilter]
    {
      filters := filters + [BlankFilter];
    }

    /**
     * The remove button of row `idx`: exactly that row goes and the others keep their
     * order; an index with no row (no button shows one) changes nothing.
     */
    method RemoveFilter(idx: int)
      requires Valid()
      modifies this`filters
      ensures Valid()
      ensures filters == RemoveAt(old(filters), idx)
      ensures 0 <= idx < |old(filters)| ==>
                |filters| == |old(filters)| - 1 && filters == old(filters)[..idx] + old(filters)[idx + 1..]
      ensures !(0 <= idx < |old(filters)|) ==> filters == old(filters)
    {
      filters := RemoveAt(filters, idx);
    }

    /** `handleRunQuery`: the mock rows are shown. */
    method RunQuery()
      requires Valid()
      modifies this`results
      ensures Valid() && results == Some(MockResults)
    {
      results := Some(MockResults);
    }
  }

  /** Clicking a chip twice restores which fields are selected. */
  lemma ChipTwiceRestoresSelection(selected: seq<string>, field: string, other: string)
    ensures other in Toggle(Toggle(selected, field), field) <==> other in selected
  {
  }

  /** Clicking an unselected chip twice restores the selection exactly, order included. */
  lemma ChipTwiceOnUnselected(selected: seq<string>, field: string)
    requires field !in selected
    ensures Toggle(Toggle(selected, field), field) == selected
  {
    ToggleTwiceAbsent(selected, field);
  }
}
