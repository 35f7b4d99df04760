# IDV sample: main-screen view-model

This project models the view-model behind the main screen of the identity-verification sample app
(`MainViewModel`). The view-model keeps four flags that enable the configure buttons (credentials,
API key, URL, QR code). It also keeps an optional progress message, the last error reported to the
user, and the list of workflows shown in the picker. Each picker row is a workflow id and name plus
an `isSelected` flag. From that list it derives the selected workflow (the first selected row) and
whether the start button is enabled.

The SDK's calls are asynchronous. In the model each call has two halves:

- A request method (`ConfigureByCredentials`, `ConfigureByApiKey`, `ConfigureByUrl`,
  `GetWorkflows`, `PrepareWorkflow`) makes the immediate state changes. It returns a `PendingCall`
  value that holds what the callback closes over: the workflow filter or the workflow id.
  `PrepareWorkflow` returns an optional `PendingCall`, which is `None` when it returns early because
  the workflow is already selected.
- A completion method (`OnInitialized`, `OnConfigured`, `OnWorkflowsLoaded`, `OnWorkflowPrepared`)
  takes that data and the SDK's `Result` in place of the callback.

One completion method, `OnConfigured`, stands for the three configure callbacks. The credentials and
API-key variants ignore the success value, as the source does.

Every transition is then a plain sequential update of a `MainViewModel` object. Its invariant `Valid()`
covers two things:

- The configure buttons are all enabled, all disabled, or only the URL and QR buttons are enabled.
- All selected rows carry the same id.

The list functions `toUiWorkflows` and `selectWorkflow`, the derived selection, and the workflow filter
are pure functions in module `Workflows`. Module `Scenarios` runs whole configuration flows on a new
view-model and states what the screen shows at the end.

Files: `outcomes.dfy` (Option, Result, SdkError), `workflows.dfy`, `main_view_model.dfy`,
`scenarios.dfy`.

The view-model never reads its four flags; the screen only uses them to enable the configure buttons.
Nothing stops a second preparation: a tap on a picker row always calls `prepareWorkflow`. After a URL
configuration succeeds, the URL and QR buttons are enabled again while the workflows load. So nothing
in the model claims that only one call is in flight.

After a configuration by credentials or by API key succeeds, nothing turns any configure button back
on, even when loading the workflows then fails: all four stay disabled (`ConfigureByCredentialsFlow`
proves this for the credentials variant).

## Model

| member | source | states |
|---|---|---|
| `Workflows.ToUiWorkflows` | IdvSample/app/src/main/java/com/regula/idv/sample/main/MainViewModel.kt:299-306 | one row per SDK workflow, same length and order, each id and name copied, no row selected |
| `Workflows.SelectWorkflow` | IdvSample/app/src/main/java/com/regula/idv/sample/main/MainViewModel.kt:308-313 | same length, order, ids and names; a row is selected exactly when its id equals the argument |
| `Workflows.SelectedWorkflow` | IdvSample/app/src/main/java/com/regula/idv/sample/main/MainViewModel.kt:69-72 | absent exactly when no row is selected; otherwise a selected row, and the first selected one |
| `Workflows.FirstSelected` | IdvSample/app/src/main/java/com/regula/idv/sample/main/MainViewModel.kt:71 | index of the first selected row (length of the list when none): that row is selected and none before it is |
| `Workflows.StartWorkflowEnabled` | IdvSample/app/src/main/java/com/regula/idv/sample/main/MainViewModel.kt:74-77 | the start button is enabled exactly when some row is selected |
| `Workflows.Accepts` | IdvSample/app/src/main/java/com/regula/idv/sample/main/MainViewModel.kt:174-187 | the default filter (line 187) accepts every workflow; the URL filter (line 174) accepts exactly the workflows whose id is listed |
| `Workflows.Filter` | IdvSample/app/src/main/java/com/regula/idv/sample/main/MainViewModel.kt:186-195 | the loaded list keeps exactly the workflows the filter accepts and is no longer than the SDK's list |
| `Workflows.FilterAppend` | IdvSample/app/src/main/java/com/regula/idv/sample/main/MainViewModel.kt:193-195 | filtering distributes over concatenation, so it keeps the SDK's order |
| `Workflows.FilterAnyIsIdentity` | IdvSample/app/src/main/java/com/regula/idv/sample/main/MainViewModel.kt:187 | the default filter keeps the SDK's list unchanged |
| `Workflows.FilterByIdsKeepsListed` | IdvSample/app/src/main/java/com/regula/idv/sample/main/MainViewModel.kt:173-175 | filtering by the returned ids keeps only listed ids; keeps everything when all are listed and nothing when none is |
| `Workflows.SelectionConsistentByConstruction` | IdvSample/app/src/main/java/com/regula/idv/sample/main/MainViewModel.kt:284-292 | showing workflows and selecting by id both leave every selected row with one common id |
| `Workflows.AtMostOneSelected` | IdvSample/app/src/main/java/com/regula/idv/sample/main/MainViewModel.kt:308-313 | with distinct ids, a consistent selection has at most one selected row |
| `Workflows.SelectLastWins` | IdvSample/app/src/main/java/com/regula/idv/sample/main/MainViewModel.kt:217-225 | selecting twice equals selecting the second id alone, so clearing with "" and then selecting the prepared id is the same as selecting it |
| `Workflows.SelectAfterShow` | IdvSample/app/src/main/java/com/regula/idv/sample/main/MainViewModel.kt:284-292 | selecting over freshly shown workflows gives each workflow's id and name with the flag set exactly on the matching id |
| `Workflows.SelectedAfterSelect` | IdvSample/app/src/main/java/com/regula/idv/sample/main/MainViewModel.kt:69-77 | after selecting an id, the start button is enabled exactly when some row has that id, and the selected workflow is the first such row |
| `Workflows.FirstSelectedOfSelect` | IdvSample/app/src/main/java/com/regula/idv/sample/main/MainViewModel.kt:71 | after selecting an id, the first selected row is the first row with that id |
| `Workflows.FirstWithId` | IdvSample/app/src/main/java/com/regula/idv/sample/main/MainViewModel.kt:311 | index of the first row with the id (length of the list when none): that row has it and none before it does |
| `Workflows.SelectEmptyId` | IdvSample/app/src/main/java/com/regula/idv/sample/main/MainViewModel.kt:216-217 | selecting "" enables the start button exactly when some row's id is empty; without such a row nothing is selected |
| `Workflows.ShownWorkflowsUnselected` | IdvSample/app/src/main/java/com/regula/idv/sample/main/MainViewModel.kt:284-287 | after workflows are shown no workflow is selected and the start button is disabled |
| `ViewModel.MainViewModel.SelectedWorkflow` | IdvSample/app/src/main/java/com/regula/idv/sample/main/MainViewModel.kt:69-72 | absent exactly when no row of the current list is selected; otherwise a selected row of that list |
| `ViewModel.MainViewModel.BtnStartWorkflowEnabled` | IdvSample/app/src/main/java/com/regula/idv/sample/main/MainViewModel.kt:74-77 | the start button is enabled exactly when there is a selected workflow |
| `ViewModel.MainViewModel.SelectedIsOnlySelected` | IdvSample/app/src/main/java/com/regula/idv/sample/main/MainViewModel.kt:69-72 | under the view-model's invariant and distinct workflow ids, any selected row is the selected workflow, so it is the only selected row |
| `ViewModel.MainViewModel.constructor` | IdvSample/app/src/main/java/com/regula/idv/sample/main/MainViewModel.kt:41-67 | all four configure buttons enabled, no progress, no error, empty list |
| `ViewModel.MainViewModel.OnInitialized` | IdvSample/app/src/main/java/com/regula/idv/sample/main/MainViewModel.kt:100-112 | a failed SDK initialisation sets the error; nothing else changes |
| `ViewModel.MainViewModel.ConfigureByCredentials` | IdvSample/app/src/main/java/com/regula/idv/sample/main/MainViewModel.kt:118-123 | disables all configure buttons, shows "configuring", keeps the list, issues a credentials configure |
| `ViewModel.MainViewModel.ConfigureByApiKey` | IdvSample/app/src/main/java/com/regula/idv/sample/main/MainViewModel.kt:139-144 | disables all configure buttons, shows "configuring", keeps the list, issues an API-key configure |
| `ViewModel.MainViewModel.ConfigureByUrl` | IdvSample/app/src/main/java/com/regula/idv/sample/main/MainViewModel.kt:160-166 | empties the list, disables all configure buttons, shows "configuring", issues a token configure |
| `ViewModel.MainViewModel.OnConfigured` | IdvSample/app/src/main/java/com/regula/idv/sample/main/MainViewModel.kt:123-183 | failure: progress hidden, error set, all configure buttons enabled. Success: loading shown, URL and QR re-enabled only for the URL variant, workflows requested (filtered by the returned ids for the URL variant). The list never changes |
| `ViewModel.MainViewModel.GetWorkflows` | IdvSample/app/src/main/java/com/regula/idv/sample/main/MainViewModel.kt:186-191 | shows "loading workflows" and issues the call with the given filter |
| `ViewModel.MainViewModel.OnWorkflowsLoaded` | IdvSample/app/src/main/java/com/regula/idv/sample/main/MainViewModel.kt:191-210 | success: the filtered list is shown unselected, and when exactly one workflow remains it is prepared. Failure: progress hidden, error set, list unchanged |
| `ViewModel.MainViewModel.PrepareWorkflow` | IdvSample/app/src/main/java/com/regula/idv/sample/main/MainViewModel.kt:212-220 | no change when the id is the selected workflow's; otherwise shows "preparing", resets the selection with "" and issues the call |
| `ViewModel.MainViewModel.OnWorkflowPrepared` | IdvSample/app/src/main/java/com/regula/idv/sample/main/MainViewModel.kt:220-232 | progress hidden. Success: exactly the rows with the id are selected. Failure: error set, selection left as reset |
| `ViewModel.MainViewModel.EnableConfigureByUrlButton` | IdvSample/app/src/main/java/com/regula/idv/sample/main/MainViewModel.kt:250-252 | only the URL flag changes, to enabled |
| `ViewModel.MainViewModel.EnableConfigureByQrButton` | IdvSample/app/src/main/java/com/regula/idv/sample/main/MainViewModel.kt:254-256 | only the QR flag changes, to enabled |
| `ViewModel.MainViewModel.EnableAllConfigureButtons` | IdvSample/app/src/main/java/com/regula/idv/sample/main/MainViewModel.kt:258-263 | all four flags enabled, nothing else changes |
| `ViewModel.MainViewModel.DisableAllConfigureButtons` | IdvSample/app/src/main/java/com/regula/idv/sample/main/MainViewModel.kt:265-270 | all four flags disabled, nothing else changes |
| `ViewModel.MainViewModel.ShowProgress` | IdvSample/app/src/main/java/com/regula/idv/sample/main/MainViewModel.kt:272-274 | only the progress message changes, to the given message |
| `ViewModel.MainViewModel.HideProgress` | IdvSample/app/src/main/java/com/regula/idv/sample/main/MainViewModel.kt:276-278 | only the progress message changes, to none |
| `ViewModel.MainViewModel.ShowError` | IdvSample/app/src/main/java/com/regula/idv/sample/main/MainViewModel.kt:280-282 | only the error changes, to the given one |
| `ViewModel.MainViewModel.ShowWorkflows` | IdvSample/app/src/main/java/com/regula/idv/sample/main/MainViewModel.kt:284-287 | only the list changes: it becomes the converted workflows, with nothing selected |
| `ViewModel.MainViewModel.SelectWorkflow` | IdvSample/app/src/main/java/com/regula/idv/sample/main/MainViewModel.kt:289-292 | only the list changes: it is reselected by the id and stays consistent |
| `ViewModel.MainViewModel.ClearWorkflows` | IdvSample/app/src/main/java/com/regula/idv/sample/main/MainViewModel.kt:294-296 | only the list changes, to empty |
| `Scenarios.ConfigureByCredentialsFlow` | IdvSample/app/src/main/java/com/regula/idv/sample/main/MainViewModel.kt:118-210 | after a credentials configure: on failure all buttons are enabled again and nothing is shown; on success all four stay disabled, the loaded list is shown in full, and the start button stays disabled unless exactly one workflow was loaded (that one is being prepared) |
| `Scenarios.ConfigureByUrlFlow` | IdvSample/app/src/main/java/com/regula/idv/sample/main/MainViewModel.kt:160-232 | after a URL configure, load and preparation: only URL and QR are enabled, progress is hidden, and the single remaining workflow ends selected when its preparation succeeds; otherwise nothing is selected unless that workflow's id is empty |

## Left out

- The SDK itself (`initialize`, `configure`, `getWorkflows`, `prepareWorkflow`, `startWorkflow`): it is a foreign, asynchronous library. Only the success or failure outcome of each call is modelled, as the argument of a completion method. The connection settings (base URL, user name, password, API key) are not modelled, and `ConfigSource` records only which variant was used and, for the URL variant, the token URL.
- `startWorkflow` and the SDK session listener: they only log and change no state.
- LiveData and `SingleLiveEvent` mechanics and logging. Each `.value =` is a field assignment. `errorEvent` holds the last error raised; the fact that the screen consumes it once is not modelled.
- `selectedWorkflow` and `btnStartWorkflowEnabled` are modelled as always derived from the current list. In the source they are mapped LiveData, which recompute only while observed; the screen observes `btnStartWorkflowEnabled`.
- The `_workflows.value` list is treated as never null. It starts as an empty list and is never set to null, so the `?.` in `selectWorkflow` never short-circuits.
- SDK workflow fields other than `id` and `name`: the view-model reads only these two.
- Android screens, camera and QR scanning, the URL input screen, the error dialog, the picker adapter and the utilities. They are presentation or system-service code with no state logic.
