/**
 * The view-model of the main screen (MainViewModel.kt): the four configure
 * button flags, the progress message, the last error and the workflow list,
 * updated by user requests and by the completions of the SDK's asynchronous
 * calls.
 *
 * Each SDK call is split in two. A request method makes the immediate state
 * changes and returns the `PendingCall` it issues, carrying what the SDK
 * callback closes over (the filter, the workflow id); `PrepareWorkflow`
 * returns `None` when it returns early without issuing a call. A completion method
 * (`OnInitialized`, `OnConfigured`, `OnWorkflowsLoaded`, `OnWorkflowPrepared`)
 * receives that data and the call's `Result` in place of the callback.
 */
module ViewModel {
  import opened Outcomes
  import opened Workflows

  /** The string resources shown as progress messages. */
  datatype Message = ConfiguringSdk | LoadingWorkflows | PreparingWorkflow

  /** The connection configuration a configure call uses. */
  datatype ConfigSource = ByCredentials | ByApiKey | ByUrl(url: string)

  /** An SDK call that has been issued and whose callback is still to come. */
  datatype PendingCall =
    | Configure(source: ConfigSource)
    | GetWorkflows(filter: WorkflowFilter)
    | Prepare(workflowId: string)

  /** The four configure buttons' enabled flags, in the order credentials, API key, URL, QR. */
  datatype ButtonFlags = ButtonFlags(cred: bool, apiKey: bool, url: bool, qr: bool)

  const AllEnabled := ButtonFlags(true, true, true, true)
  const AllDisabled := ButtonFlags(false, false, false, false)

  class MainViewModel {
    var btnCredConfigEnabled: bool
    var btnApiKeyConfigEnabled: bool
    var btnUrlConfigEnabled: bool
    var btnQrConfigEnabled: bool
    var progressMessage: Option<Message>
    var errorEvent: Option<SdkError>
    var workflows: seq<UiWorkflow>

    function Buttons(): ButtonFlags
      reads this
    {
      ButtonFlags(btnCredConfigEnabled, btnApiKeyConfigEnabled, btnUrlConfigEnabled, btnQrConfigEnabled)
    }

    /** `selectedWorkflow`, derived from the workflow list: its first selected row. */
    function SelectedWorkflow(): (r: Option<UiWorkflow>)
      reads this
      ensures r.None? <==> forall i :: 0 <= i < |workflows| ==> !workflows[i].isSelected
      ensures r.Some? ==> r.value.isSelected && r.value in workflows
      ensures r.Some? ==> r.value == workflows[FirstSelected(workflows)]
    {
      Workflows.SelectedWorkflow(workflows)
    }

    /** `btnStartWorkflowEnabled`: the start button is enabled exactly when a workflow is selected. */
    function BtnStartWorkflowEnabled(): (enabled: bool)
      reads this
      ensures enabled <==> SelectedWorkflow().Some?
    {
      StartWorkflowEnabled(workflows)
    }

    /**
     * What every operation keeps: the configure buttons are either all
     * enabled, all disabled, or only URL and QR enabled; and all selected
     * rows carry the same id.
     */
    ghost predicate Valid()
      reads this
    {
      && btnCredConfigEnabled == btnApiKeyConfigEnabled
      && btnUrlConfigEnabled == btnQrConfigEnabled
      && (btnCredConfigEnabled ==> btnUrlConfigEnabled)
      && SelectionConsistent(workflows)
    }

    /**
     * Under the invariant, when the SDK's workflow ids are distinct, the
     * selected workflow is the only selected row.
     */
    lemma SelectedIsOnlySelected(i: int)
      requires Valid() && DistinctIds(workflows)
      requires 0 <= i < |workflows| && workflows[i].isSelected
      ensures SelectedWorkflow() == Some(workflows[i])
    {
      var k := FirstSelected(workflows);
      AtMostOneSelected(workflows, i, k);
    }

    /**
     * The initial state. `init` then issues the SDK's `initialize` call; a
     * constructor cannot hand back a `PendingCall`, so that call has no variant
     * here and its completion is `OnInitialized`.
     */
    constructor ()
      ensures Valid()
      ensures Buttons() == AllEnabled
      ensures progressMessage == None && errorEvent == None && workflows == []
    {
      btnCredConfigEnabled, btnApiKeyConfigEnabled := true, true;
      btnUrlConfigEnabled, btnQrConfigEnabled := true, true;
      progressMessage, errorEvent := None, None;
      workflows := [];
    }

    /** Completion of `initialize`: a failure is reported, nothing else changes. */
    method OnInitialized(result: Result<()>)
      requires Valid()
      modifies this
      ensures Valid()
      ensures errorEvent == if result.Failure? then Some(result.error) else old(errorEvent)
      ensures Buttons() == old(Buttons()) && progressMessage == old(progressMessage)
      ensures workflows == old(workflows)
    {
      if result.Failure? {
        ShowError(result.error);
      }
    }

    method ConfigureByCredentials() returns (call: PendingCall)
      requires Valid()
      modifies this
      ensures Valid()
      ensures call == Configure(ByCredentials)
      ensures Buttons() == AllDisabled && progressMessage == Some(ConfiguringSdk)
      ensures errorEvent == old(errorEvent) && workflows == old(workflows)
    {
      DisableAllConfigureButtons();
      ShowProgress(ConfiguringSdk);
      call := Configure(ByCredentials);
    }

    method ConfigureByApiKey() returns (call: PendingCall)
      requires Valid()
      modifies this
      ensures Valid()
      ensures call == Configure(ByApiKey)
      ensures Buttons() == AllDisabled && progressMessage == Some(ConfiguringSdk)
      ensures errorEvent == old(errorEvent) && workflows == old(workflows)
    {
      DisableAllConfigureButtons();
      ShowProgress(ConfiguringSdk);
      call := Configure(ByApiKey);
    }

    /** Unlike the other two, configuring by URL first empties the workflow list. */
    method ConfigureByUrl(url: string) returns (call: PendingCall)
      requires Valid()
      modifies this
      ensures Valid()
      ensures call == Configure(ByUrl(url))
      ensures Buttons() == AllDisabled && progressMessage == Some(ConfiguringSdk)
      ensures errorEvent == old(errorEvent) && workflows == []
    {
      ClearWorkflows();
      DisableAllConfigureButtons();
      ShowProgress(ConfiguringSdk);
      call := Configure(ByUrl(url));
    }

    /**
     * Completion of `configure`. On failure: progress hidden, error reported,
     * all configure buttons enabled. On success: workflows are requested, with
     * the URL variant re-enabling only the URL and QR buttons and keeping only
     * the workflows whose id the SDK returned.
     */
    method OnConfigured(source: ConfigSource, result: Result<seq<string>>) returns (call: Option<PendingCall>)
      requires Valid()
      modifies this
      ensures Valid()
      ensures workflows == old(workflows)
      ensures result.Failure? ==>
        && call == None
        && progressMessage == None
        && errorEvent == Some(result.error)
        && Buttons() == AllEnabled
      ensures result.Success? ==>
        && call == Some(PendingCall.GetWorkflows(if source.ByUrl? then IdIn(result.value) else AnyWorkflow))
        && progressMessage == Some(LoadingWorkflows)
        && errorEvent == old(errorEvent)
        && Buttons() == if source.ByUrl? then old(Buttons()).(url := true, qr := true) else old(Buttons())
    {
      match result
      case Success(workflowIds) =>
        HideProgress();
        if source.ByUrl? {
          EnableConfigureByUrlButton();
          EnableConfigureByQrButton();
          var c := GetWorkflows(IdIn(workflowIds));
          call := Some(c);
        } else {
          var c := GetWorkflows(AnyWorkflow);
          call := Some(c);
        }
      case Failure(error) =>
        HideProgress();
        ShowError(error);
        EnableAllConfigureButtons();
        call := None;
    }

    /** `getWorkflows(filter)`: shows progress and issues the SDK call. */
    method GetWorkflows(filter: WorkflowFilter) returns (call: PendingCall)
      requires Valid()
      modifies this`progressMessage
      ensures Valid()
      ensures call == PendingCall.GetWorkflows(filter)
      ensures progressMessage == Some(LoadingWorkflows)
    {
      ShowProgress(LoadingWorkflows);
      call := PendingCall.GetWorkflows(filter);
    }

    /**
     * Completion of `getWorkflows`. On success the filtered list is shown with
     * nothing selected and, when exactly one workflow remains, it is prepared.
     * On failure the list is left as it was and the error is reported.
     */
    method OnWorkflowsLoaded(filter: WorkflowFilter, result: Result<seq<Workflow>>) returns (call: Option<PendingCall>)
      requires Valid()
      modifies this
      ensures Valid()
      ensures Buttons() == old(Buttons())
      ensures result.Failure? ==>
        && call == None
        && progressMessage == None
        && errorEvent == Some(result.error)
        && workflows == old(workflows)
      ensures result.Success? ==>
        var shown := Filter(result.value, filter);
        && errorEvent == old(errorEvent)
        && (|shown| == 1 ==>
              && call == Some(Prepare(shown[0].id))
              && progressMessage == Some(PreparingWorkflow)
              && workflows == Workflows.SelectWorkflow(ToUiWorkflows(shown), ""))
        && (|shown| != 1 ==>
              && call == None
              && progressMessage == None
              && workflows == ToUiWorkflows(shown))
    {
      match result
      case Success(all) =>
        var shown := Filter(all, filter);
        HideProgress();
        ShowWorkflows(shown);
        if |shown| == 1 {
          call := PrepareWorkflow(shown[0].id);
        } else {
          call := None;
        }
      case Failure(error) =>
        HideProgress();
        ShowError(error);
        call := None;
    }

    /**
     * `prepareWorkflow(id)`: nothing happens when `id` is the selected
     * workflow's; otherwise progress is shown, the selection is reset with
     * the empty id and the SDK call is issued.
     */
    method PrepareWorkflow(workflowId: string) returns (call: Option<PendingCall>)
      requires Valid()
      modifies this
      ensures Valid()
      ensures Buttons() == old(Buttons()) && errorEvent == old(errorEvent)
      ensures
        var selected := old(SelectedWorkflow());
        if selected.Some? && selected.value.id == workflowId then
          && call == None
          && progressMessage == old(progressMessage)
          && workflows == old(workflows)
        else
          && call == Some(Prepare(workflowId))
          && progressMessage == Some(PreparingWorkflow)
          && workflows == Workflows.SelectWorkflow(old(workflows), "")
    {
      var selected := SelectedWorkflow();
      if selected.Some? && selected.value.id == workflowId {
        return None;
      }
      ShowProgress(PreparingWorkflow);
      SelectWorkflow("");
      call := Some(Prepare(workflowId));
    }

    /** Completion of `prepareWorkflow`: on success exactly the rows with `workflowId` become selected. */
    method OnWorkflowPrepared(workflowId: string, result: Result<()>)
      requires Valid()
      modifies this
      ensures Valid()
      ensures Buttons() == old(Buttons()) && progressMessage == None
      ensures result.Success? ==>
        errorEvent == old(errorEvent) && workflows == Workflows.SelectWorkflow(old(workflows), workflowId)
      ensures result.Failure? ==>
        errorEvent == Some(result.error) && workflows == old(workflows)
    {
      HideProgress();
      match result
      case Success(_) =>
        SelectWorkflow(workflowId);
      case Failure(error) =>
        ShowError(error);
    }

    method EnableConfigureByUrlButton()
      modifies this`btnUrlConfigEnabled
      ensures btnUrlConfigEnabled
    {
      btnUrlConfigEnabled := true;
    }

    method EnableConfigureByQrButton()
      modifies this`btnQrConfigEnabled
      ensures btnQrConfigEnabled
    {
      btnQrConfigEnabled := true;
    }

    method EnableAllConfigureButtons()
      modifies this`btnCredConfigEnabled, this`btnApiKeyConfigEnabled, this`btnUrlConfigEnabled, this`btnQrConfigEnabled
      ensures Buttons() == AllEnabled
    {
      btnCredConfigEnabled := true;
      btnApiKeyConfigEnabled := true;
      btnUrlConfigEnabled := true;
      btnQrConfigEnabled := true;
    }

    method DisableAllConfigureButtons()
      modifies this`btnCredConfigEnabled, this`btnApiKeyConfigEnabled, this`btnUrlConfigEnabled, this`btnQrConfigEnabled
      ensures Buttons() == AllDisabled
    {
      btnCredConfigEnabled := false;
      btnApiKeyConfigEnabled := false;
      btnUrlConfigEnabled := false;
      btnQrConfigEnabled := false;
    }

    method ShowProgress(message: Message)
      modifies this`progressMessage
      ensures progressMessage == Some(message)
    {
      progressMessage := Some(message);
    }

    method HideProgress()
      modifies this`progressMessage
      ensures progressMessage == None
    {
      progressMessage := None;
    }

    method ShowError(error: SdkError)
      modifies this`errorEvent
      ensures errorEvent == Some(error)
    {
      errorEvent := Some(error);
    }

    /** Replaces the list with the given workflows, none selected. */
    method ShowWorkflows(ws: seq<Workflow>)
      modifies this`workflows
      ensures workflows == ToUiWorkflows(ws)
      ensures SelectionConsistent(workflows) && SelectedWorkflow() == None
    {
      workflows := ToUiWorkflows(ws);
      SelectionConsistentByConstruction(ws, workflows, "");
      ShownWorkflowsUnselected(ws);
    }

    /** Marks selected exactly the rows whose id is `workflowId`. */
    method SelectWorkflow(workflowId: string)
      modifies this`workflows
      ensures workflows == Workflows.SelectWorkflow(old(workflows), workflowId)
      ensures SelectionConsistent(workflows)
    {
      workflows := Workflows.SelectWorkflow(workflows, workflowId);
      SelectionConsistentByConstruction([], old(workflows), workflowId);
    }

    method ClearWorkflows()
      modifies this`workflows
      ensures workflows == []
    {
      workflows := [];
    }
  }
}
