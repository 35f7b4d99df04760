/**
 * Whole configuration flows on a fresh view-model, each SDK callback
 * delivered right after its request: what the screen shows once the calls
 * have completed.
 */
module Scenarios {
  import opened Outcomes
  import opened Workflows
  import opened ViewModel

  /**
   * Configure by credentials, then load every workflow. A successful
   * configuration leaves all four configure buttons disabled; the loaded
   * list is shown in full and nothing is selected unless a single workflow
   * was loaded, which is then being prepared.
   */
  method ConfigureByCredentialsFlow(configured: Result<seq<string>>, loaded: Result<seq<Workflow>>)
    returns (shown: seq<UiWorkflow>, startEnabled: bool, buttons: ButtonFlags, pending: Option<PendingCall>)
    ensures configured.Failure? ==>
      shown == [] && !startEnabled && buttons == AllEnabled && pending == None
    ensures configured.Success? ==> buttons == AllDisabled
    ensures configured.Success? && loaded.Failure? ==>
      shown == [] && !startEnabled && pending == None
    ensures configured.Success? && loaded.Success? ==>
      var ws := loaded.value;
      && |shown| == |ws|
      && (forall i :: 0 <= i < |ws| ==> shown[i].id == ws[i].id && shown[i].name == ws[i].name)
      && (|ws| != 1 ==> !startEnabled && pending == None)
      && (|ws| == 1 ==> pending == Some(Prepare(ws[0].id)) && (startEnabled <==> ws[0].id == ""))
  {
    var vm := new MainViewModel();
    var configure := vm.ConfigureByCredentials();
    var next := vm.OnConfigured(configure.source, configured);
    pending := None;
    if next.Some? {
      var load := next.value;
      pending := vm.OnWorkflowsLoaded(load.filter, loaded);
      if loaded.Success? {
        FilterAnyIsIdentity(loaded.value);
        ShownWorkflowsUnselected(loaded.value);
        SelectEmptyId(ToUiWorkflows(loaded.value));
      }
    }
    shown, startEnabled, buttons := vm.workflows, vm.BtnStartWorkflowEnabled(), vm.Buttons();
  }

  /**
   * Configure by URL, load the workflows whose id the SDK returned, and
   * complete a preparation if one was started. The URL and QR buttons end
   * enabled and the other two disabled; the start button is enabled after a
   * successful preparation of the single remaining workflow, and otherwise
   * only through a row whose id is empty.
   */
  method ConfigureByUrlFlow(url: string, workflowIds: seq<string>, loaded: seq<Workflow>, prepared: Result<()>)
    returns (selected: Option<UiWorkflow>, startEnabled: bool, buttons: ButtonFlags, progress: Option<Message>)
    ensures buttons == ButtonFlags(false, false, true, true)
    ensures progress == None
    ensures var shown := Filter(loaded, IdIn(workflowIds));
      && (|shown| != 1 ==> selected == None && !startEnabled)
      && (|shown| == 1 && prepared.Success? ==>
            selected == Some(UiWorkflow(shown[0].id, shown[0].name, true)) && startEnabled)
      && (|shown| == 1 && prepared.Failure? ==> (startEnabled <==> shown[0].id == ""))
  {
    var vm := new MainViewModel();
    var configure := vm.ConfigureByUrl(url);
    var next := vm.OnConfigured(configure.source, Success(workflowIds));
    var load := next.value;
    var prepare := vm.OnWorkflowsLoaded(load.filter, Success(loaded));
    var shown := Filter(loaded, IdIn(workflowIds));
    ShownWorkflowsUnselected(shown);
    if prepare.Some? {
      SelectEmptyId(ToUiWorkflows(shown));
      vm.OnWorkflowPrepared(prepare.value.workflowId, prepared);
      if prepared.Success? {
        SelectLastWins(ToUiWorkflows(shown), "", shown[0].id);
        SelectedAfterSelect(ToUiWorkflows(shown), shown[0].id);
      }
    }
    selected, startEnabled, buttons, progress := vm.SelectedWorkflow(), vm.BtnStartWorkflowEnabled(), vm.Buttons(), vm.progressMessage;
  }
}
