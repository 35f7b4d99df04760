/**
 * The workflow list shown by the picker and the pure list functions of
 * MainViewModel.kt: converting SDK workflows to picker rows, selecting a row
 * by id, the derived selected workflow and start-button state, and the
 * filter applied to the SDK's workflow list.
 */
module Workflows {
  import opened Outcomes

  /** A workflow as the SDK lists it after configuration. */
  datatype Workflow = Workflow(id: string, name: string)

  /** A picker row: the SDK workflow with a transient selection flag. */
  datatype UiWorkflow = UiWorkflow(id: string, name: string, isSelected: bool)

  /** `List<Workflow>.toUiWorkflows()`: one unselected row per workflow, in order. */
  function ToUiWorkflows(ws: seq<Workflow>): (r: seq<UiWorkflow>)
    ensures |r| == |ws|
    ensures forall i :: 0 <= i < |ws| ==> r[i].id == ws[i].id && r[i].name == ws[i].name
    ensures forall i :: 0 <= i < |r| ==> !r[i].isSelected
  {
    if ws == [] then []
    else [UiWorkflow(ws[0].id, ws[0].name, false)] + ToUiWorkflows(ws[1..])
  }

  /** `List<UiWorkflow>.selectWorkflow(id)`: a row is selected exactly when its id is `workflowId`. */
  function SelectWorkflow(ws: seq<UiWorkflow>, workflowId: string): (r: seq<UiWorkflow>)
    ensures |r| == |ws|
    ensures forall i :: 0 <= i < |ws| ==> r[i].id == ws[i].id && r[i].name == ws[i].name
    ensures forall i :: 0 <= i < |ws| ==> (r[i].isSelected <==> ws[i].id == workflowId)
  {
    if ws == [] then []
    else [ws[0].(isSelected := ws[0].id == workflowId)] + SelectWorkflow(ws[1..], workflowId)
  }

  /** `workflows.firstOrNull(UiWorkflow::isSelected)`: the first selected row, if any. */
  function SelectedWorkflow(ws: seq<UiWorkflow>): (r: Option<UiWorkflow>)
    ensures r.None? <==> forall i :: 0 <= i < |ws| ==> !ws[i].isSelected
    ensures r.Some? ==> r.value.isSelected && r.value == ws[FirstSelected(ws)]
  {
    if ws == [] then None
    else if ws[0].isSelected then Some(ws[0])
    else SelectedWorkflow(ws[1..])
  }

  /** Index of the first selected row; `|ws|` when no row is selected. */
  function FirstSelected(ws: seq<UiWorkflow>): (k: nat)
    ensures k <= |ws|
    ensures k < |ws| ==> ws[k].isSelected
    ensures forall j :: 0 <= j < k ==> !ws[j].isSelected
  {
    if ws == [] then 0
    else if ws[0].isSelected then 0
    else 1 + FirstSelected(ws[1..])
  }

  /** `btnStartWorkflowEnabled`: a workflow is selected. */
  function StartWorkflowEnabled(ws: seq<UiWorkflow>): (enabled: bool)
    ensures enabled <==> exists i :: 0 <= i < |ws| && ws[i].isSelected
  {
    SelectedWorkflow(ws).Some?
  }

  /** Which SDK workflows `getWorkflows` keeps: all of them, or those whose id is listed. */
  datatype WorkflowFilter = AnyWorkflow | IdIn(workflowIds: seq<string>)

  /** The filter lambdas of `getWorkflows`: `{ true }` and `{ workflow -> workflow.id in workflowIds }`. */
  function Accepts(filter: WorkflowFilter, w: Workflow): (accepted: bool)
    ensures filter.AnyWorkflow? ==> accepted
    ensures filter.IdIn? ==> (accepted <==> exists k :: 0 <= k < |filter.workflowIds| && filter.workflowIds[k] == w.id)
  {
    match filter
    case AnyWorkflow => true
    case IdIn(ids) => w.id in ids
  }

  /** `workflows.filter(filter)`: the accepted workflows, nothing else. */
  function Filter(ws: seq<Workflow>, filter: WorkflowFilter): (r: seq<Workflow>)
    ensures |r| <= |ws|
    ensures forall w :: w in r <==> w in ws && Accepts(filter, w)
  {
    if ws == [] then []
    else if Accepts(filter, ws[0]) then [ws[0]] + Filter(ws[1..], filter)
    else Filter(ws[1..], filter)
  }

  /** Filtering keeps the SDK's order: it distributes over concatenation. */
  lemma {:induction false} FilterAppend(a: seq<Workflow>, b: seq<Workflow>, filter: WorkflowFilter)
    ensures Filter(a + b, filter) == Filter(a, filter) + Filter(b, filter)
  {
    if a == [] {
      assert a + b == b;
    } else {
      assert (a + b)[0] == a[0];
      assert (a + b)[1..] == a[1..] + b;
      FilterAppend(a[1..], b, filter);
      if Accepts(filter, a[0]) {
        assert [a[0]] + (Filter(a[1..], filter) + Filter(b, filter))
            == ([a[0]] + Filter(a[1..], filter)) + Filter(b, filter);
      }
    }
  }

  /** The default filter of `getWorkflows` keeps the list as it is. */
  lemma {:induction false} FilterAnyIsIdentity(ws: seq<Workflow>)
    ensures Filter(ws, AnyWorkflow) == ws
  {
    if ws != [] {
      FilterAnyIsIdentity(ws[1..]);
    }
  }

  /** Filtering by ids keeps exactly the workflows whose id is listed, in order. */
  lemma {:induction false} FilterByIdsKeepsListed(ws: seq<Workflow>, ids: seq<string>)
    ensures forall w :: w in Filter(ws, IdIn(ids)) ==> w.id in ids
    ensures (forall i :: 0 <= i < |ws| ==> ws[i].id in ids) ==> Filter(ws, IdIn(ids)) == ws
    ensures (forall i :: 0 <= i < |ws| ==> ws[i].id !in ids) ==> Filter(ws, IdIn(ids)) == []
  {
    if ws != [] {
      FilterByIdsKeepsListed(ws[1..], ids);
    }
  }

  /** All selected rows carry the same id (so with distinct ids at most one row is selected). */
  ghost predicate SelectionConsistent(ws: seq<UiWorkflow>)
  {
    forall i, j :: 0 <= i < |ws| && 0 <= j < |ws| && ws[i].isSelected && ws[j].isSelected ==> ws[i].id == ws[j].id
  }

  ghost predicate DistinctIds(ws: seq<UiWorkflow>)
  {
    forall i, j :: 0 <= i < j < |ws| ==> ws[i].id != ws[j].id
  }

  /** Freshly shown rows and any selection by id leave the selection consistent. */
  lemma SelectionConsistentByConstruction(ws: seq<Workflow>, rows: seq<UiWorkflow>, workflowId: string)
    ensures SelectionConsistent(ToUiWorkflows(ws))
    ensures SelectionConsistent(SelectWorkflow(rows, workflowId))
  {
  }

  /** With distinct ids a consistent selection has at most one selected row. */
  lemma AtMostOneSelected(ws: seq<UiWorkflow>, i: int, j: int)
    requires SelectionConsistent(ws) && DistinctIds(ws)
    requires 0 <= i < |ws| && 0 <= j < |ws| && ws[i].isSelected && ws[j].isSelected
    ensures i == j
  {
  }

  /** Selecting again replaces the previous selection: only the last id counts. */
  lemma SelectLastWins(ws: seq<UiWorkflow>, first: string, second: string)
    ensures SelectWorkflow(SelectWorkflow(ws, first), second) == SelectWorkflow(ws, second)
  {
  }

  /** Rows are only relabelled: a selection over converted workflows keeps each id and name. */
  lemma SelectAfterShow(ws: seq<Workflow>, workflowId: string)
    ensures var r := SelectWorkflow(ToUiWorkflows(ws), workflowId);
      |r| == |ws| &&
      forall i :: 0 <= i < |ws| ==> r[i] == UiWorkflow(ws[i].id, ws[i].name, ws[i].id == workflowId)
  {
  }

  /**
   * After selecting `workflowId`, the start button is enabled exactly when
   * some row has that id, and the selected row is the first one with it.
   */
  lemma SelectedAfterSelect(ws: seq<UiWorkflow>, workflowId: string)
    ensures StartWorkflowEnabled(SelectWorkflow(ws, workflowId)) <==> exists i :: 0 <= i < |ws| && ws[i].id == workflowId
    ensures SelectedWorkflow(SelectWorkflow(ws, workflowId)) ==
      if exists i :: 0 <= i < |ws| && ws[i].id == workflowId
      then Some(ws[FirstWithId(ws, workflowId)].(isSelected := true))
      else None
  {
    var r := SelectWorkflow(ws, workflowId);
    var k := FirstWithId(ws, workflowId);
    FirstSelectedOfSelect(ws, workflowId);
    if k < |ws| {
      assert r[k] == ws[k].(isSelected := true);
    }
  }

  /** The first selected row after a selection is the first row carrying the selected id. */
  lemma FirstSelectedOfSelect(ws: seq<UiWorkflow>, workflowId: string)
    ensures FirstSelected(SelectWorkflow(ws, workflowId)) == FirstWithId(ws, workflowId)
  {
  }

  /** Index of the first row whose id is `workflowId`; `|ws|` when there is none. */
  function FirstWithId(ws: seq<UiWorkflow>, workflowId: string): (k: nat)
    ensures k <= |ws|
    ensures k < |ws| ==> ws[k].id == workflowId
    ensures forall j :: 0 <= j < k ==> ws[j].id != workflowId
  {
    if ws == [] then 0
    else if ws[0].id == workflowId then 0
    else 1 + FirstWithId(ws[1..], workflowId)
  }

  /**
   * Selecting the empty id clears the selection unless some row's id is
   * empty: those rows become selected.
   */
  lemma SelectEmptyId(ws: seq<UiWorkflow>)
    ensures StartWorkflowEnabled(SelectWorkflow(ws, "")) <==> exists i :: 0 <= i < |ws| && ws[i].id == ""
    ensures (forall i :: 0 <= i < |ws| ==> ws[i].id != "") ==> SelectedWorkflow(SelectWorkflow(ws, "")) == None
  {
  }

  /** Freshly shown workflows leave the start button disabled. */
  lemma ShownWorkflowsUnselected(ws: seq<Workflow>)
    ensures SelectedWorkflow(ToUiWorkflows(ws)) == None
    ensures !StartWorkflowEnabled(ToUiWorkflows(ws))
  {
  }
}
