# migu-data admin console: a Dafny model of its screen logic

The migu-data console is a React single-page admin console for a sports-data
platform. Every screen keeps its data in component state over hard-coded mock
lists. There is no backend. What can be modelled lives in the event handlers and
in the expressions that derive what is shown from that state. This project models
eleven screens:

- the visual pipeline editor: nodes, directed connections, the connect gesture
  and the resizable preview;
- the role list and the user list of the system screen;
- the data-model catalogue and its schema editor;
- the visual query builder of the analysis screen;
- the API definition form and the API call log;
- the security dashboard;
- the graphics playout console;
- the data-ingestion dashboard.

Each component is a `class`. Its fields are the component's state. Each handler
is a method whose `modifies` clause names the state it replaces and whose
`ensures` clauses give the new state in terms of the old one. Each class has a
`Valid()` invariant that every handler keeps. Examples:

- node, role, user, model, field, request and source ids are unique;
- the pipeline graph has no self-loop and no repeated pair;
- a connect gesture is in progress exactly when a temporary connection exists;
- the selected fields and the IP whitelist hold no duplicates.

Derived views are functions with contracts, and the properties that relate
several of them are lemmas. Examples of derived views: the filtered user,
model and log lists, the badges, the permission overview, the Bezier geometry,
and the mock JSON preview.

Shared modules:

- `Options`: an `Option` type.
- `Seqs`: order-preserving filters and keyed updates (`filter`, `map` by id,
  `find`, toggle), with the lemmas about them.
- `Text`: the JavaScript string operations the screens use. These are
  `toLowerCase` on ASCII, `includes`, `split(c)[0]`, and the global `parseInt`
  with no radix. That last one skips leading white space, reads an optional sign
  and a `0x` prefix, and takes the longest run of digits.
- `Ui`: the badge colour variants.

Values the browser supplies become method parameters:

- `Date.now()` ids become a `freshId` with a precondition that it is unused;
- `Math.random()` draws become numbers in [0, 1);
- `new Date().toISOString()` becomes a `now` string;
- `window.confirm` becomes a boolean;
- form data becomes the field values;
- the mouse position becomes canvas coordinates.

## Model

| member | source | states |
|---|---|---|
| Text.Lower | src/modules/system/UserList.jsx:22-23 | `toLowerCase` keeps the length and lowers each ASCII capital, leaving every other character as it is |
| Text.LowerIdempotent | src/modules/system/UserList.jsx:22-23 | lower-casing an already lower-cased term changes nothing |
| Text.Includes | src/modules/system/UserList.jsx:22-23 | `includes` is true exactly when the piece occurs at some position |
| Text.IncludesEmpty | src/modules/system/UserList.jsx:21-24 | every string includes the empty term |
| Text.BeforeFirst | src/modules/modeling/ModelingList.jsx:237 | `split(c)[0]` is a prefix without `c`, followed by `c` unless it is the whole string |
| Text.BeforeFirstOfJoin | src/modules/system/RoleList.jsx:140 | the piece before the first separator of `m + c + rest` is `m` when `m` has no separator |
| Text.TrimStart | src/modules/api/ApiLogs.jsx:19 | `parseInt` drops exactly a leading run of white space and line terminators |
| Text.DigitPrefix | src/modules/api/ApiLogs.jsx:19 | the digits read are the longest digit prefix: a prefix, all digits, and stopped at a non-digit |
| Text.NumeralRoundTrip | src/modules/api/ApiLogs.jsx:19 | `parseInt` of a decimal numeral followed by a non-digit suffix such as `ms` yields the number |
| Text.ParseUnsignedDecimal | src/modules/api/ApiLogs.jsx:19 | a string starting with a digit and no `0x` prefix is read in base 10 from its first character |
| Text.ParseInt | src/modules/api/ApiLogs.jsx:19 | `parseInt` yields a number only when the text holds a decimal digit; otherwise it is NaN |
| Text.ParsesAbove | src/modules/api/ApiLogs.jsx:19 | `parseInt(s) > bound` is false for a NaN result, so for any text without a digit |
| Text.Magnitude | src/modules/api/ApiLogs.jsx:19 | after the sign, `parseInt` is NaN exactly when the text does not start with a decimal digit, or when `0x` is followed by no hexadecimal digit; otherwise it starts with a digit |
| Text.NumeralMagnitude | src/modules/api/ApiLogs.jsx:19 | the unsigned digit run of a decimal numeral followed by a non-digit suffix is read as the number |
| Text.ParseIntNegative | src/modules/api/ApiLogs.jsx:19 | a leading `-` before a numeral negates the number read |
| Text.ParseIntSkipsSpace | src/modules/api/ApiLogs.jsx:19 | a leading white-space character does not change what `parseInt` reads |
| Text.ParsesAboveNumeral | src/modules/api/ApiLogs.jsx:19 | for a numeral followed by a suffix such as `ms`, `parseInt(s) > bound` holds exactly when the number exceeds the bound |
| Canvas.NodePos | src/modules/processing/ProcessingCanvas.jsx:93-96 | the position of the first node with the id, `(0,0)` for an unknown id |
| Canvas.PathBetween | src/modules/processing/ProcessingCanvas.jsx:99-113 | the curve starts at (x+206, y+40) and ends at (x−6, y+40); both control points sit halfway across, level with their own end |
| Canvas.PathTranslates | src/modules/processing/ProcessingCanvas.jsx:99-113 | moving both ends by one offset moves the whole curve by that offset |
| Canvas.EdgePaths | src/modules/processing/ProcessingCanvas.jsx:270-283 | one curve per connection, in order; curve i is the Bezier between the positions of connection i's source and target |
| Canvas.ClampHeight | src/modules/processing/ProcessingCanvas.jsx:71 | the preview height is always in [100, 600], equals the asked height inside the range and the nearer bound outside it |
| Canvas.ApplyEdit | src/modules/processing/ProcessingCanvas.jsx:144-148 | a drag changes only x and y; a config edit sets one key and keeps the others; a label edit changes only the label; id and type never change |
| Canvas.EditNodes | src/modules/processing/ProcessingCanvas.jsx:116 | the list keeps its length; the nodes with the id are edited and every other node is untouched |
| Canvas.EditKeepsIds | src/modules/processing/ProcessingCanvas.jsx:115-117 | an edit keeps ids unique, keeps the set of ids, and keeps every connection attached |
| Canvas.DragMovesOnlyThatNode | src/modules/processing/ProcessingCanvas.jsx:115-117 | after a drag the node is found at the new position and every other id is found where it was |
| Canvas.DragRedrawsOnlyTouchingEdges | src/modules/processing/ProcessingCanvas.jsx:270-283 | a drag leaves the curve of every connection not touching the dragged node unchanged |
| Canvas.EdgesAvoiding | src/modules/processing/ProcessingCanvas.jsx:133 | the connections kept are exactly those touching neither end of the deleted node, in their original order |
| Canvas.DeleteKeepsEndpoints | src/modules/processing/ProcessingCanvas.jsx:131-133 | if every connection was attached to existing nodes, it still is after a delete |
| Canvas.DeleteKeepsSimple | src/modules/processing/ProcessingCanvas.jsx:131-133 | a delete introduces no self-loop and no repeated pair |
| Canvas.Connect | src/modules/processing/ProcessingCanvas.jsx:186-195 | exactly one edge is appended when source and target differ and the pair is new; otherwise the list is unchanged |
| Canvas.ConnectEstablishes | src/modules/processing/ProcessingCanvas.jsx:186-195 | after connecting two distinct nodes the edge exists |
| Canvas.ConnectIdempotent | src/modules/processing/ProcessingCanvas.jsx:187-188 | repeating a connection gesture on the same pair adds nothing |
| Canvas.ConnectKeepsSimple | src/modules/processing/ProcessingCanvas.jsx:186-195 | connecting never creates a self-loop or a repeated pair |
| Canvas.ConnectKeepsEndpoints | src/modules/processing/ProcessingCanvas.jsx:186-195 | connecting two existing nodes keeps every connection attached |
| Canvas.SelectionSurvivesEdit | src/modules/processing/ProcessingCanvas.jsx:115-117 | a drag leaves the selection showing the type, label and config of a canvas node |
| Canvas.ProcessingCanvas.constructor | src/modules/processing/ProcessingCanvas.jsx:46-58 | three initial nodes and two connections, no selection, no gesture, preview shown at height 200 |
| Canvas.ProcessingCanvas.NodeDrag | src/modules/processing/ProcessingCanvas.jsx:115-117 | only the dragged node's position changes; the invariant and the attachment of connections are kept |
| Canvas.ProcessingCanvas.AddNode | src/modules/processing/ProcessingCanvas.jsx:119-129 | one node with the type, the label and an empty config is appended at (100+50·r1, 100+50·r2), within [100,150) |
| Canvas.ProcessingCanvas.DeleteNode | src/modules/processing/ProcessingCanvas.jsx:131-135 | the node and every connection touching it go, the remaining nodes and connections are ordered subsequences of the old lists, and the selection clears only if it was that node |
| Canvas.ProcessingCanvas.SelectNode | src/modules/processing/ProcessingCanvas.jsx:137-140 | the first node with the id is selected, or nothing when no node has it |
| Canvas.ProcessingCanvas.UpdateNodeConfig | src/modules/processing/ProcessingCanvas.jsx:142-149 | a no-op without a selection; otherwise one config key of the selected node changes in the list and in the selection |
| Canvas.ProcessingCanvas.UpdateLabel | src/modules/processing/ProcessingCanvas.jsx:319-325 | the label of the selected node changes in the list and in the selection |
| Canvas.ProcessingCanvas.EditSelected | src/modules/processing/ProcessingCanvas.jsx:142-149 | with a node selected, the edit is applied to the nodes with its id and to the selection; ids stay unique and connections stay attached |
| Canvas.ProcessingCanvas.ConnectStart | src/modules/processing/ProcessingCanvas.jsx:152-167 | an unknown node changes nothing; a known one starts a gesture at (x+206, y+40) with the mouse there too |
| Canvas.ProcessingCanvas.MouseMove | src/modules/processing/ProcessingCanvas.jsx:169-181 | during a gesture the loose end follows the mouse and the start stays; otherwise nothing changes |
| Canvas.ProcessingCanvas.ConnectEnd | src/modules/processing/ProcessingCanvas.jsx:183-199 | a no-op without a gesture; otherwise the list becomes `Connect` of the old list and the gesture is reset |
| Canvas.ProcessingCanvas.MouseUp | src/modules/processing/ProcessingCanvas.jsx:201-206 | releasing the mouse button cancels a gesture without adding an edge |
| Canvas.ProcessingCanvas.TogglePreview | src/modules/processing/ProcessingCanvas.jsx:258 | the preview button flips the preview |
| Canvas.ProcessingCanvas.StartResize | src/modules/processing/ProcessingCanvas.jsx:476-479 | pressing the handle starts resizing |
| Canvas.ProcessingCanvas.ResizeMove | src/modules/processing/ProcessingCanvas.jsx:68-73 | while resizing the height becomes the clamped distance from the mouse to the bottom of the window |
| Canvas.ProcessingCanvas.EndResize | src/modules/processing/ProcessingCanvas.jsx:75-79 | releasing the mouse button stops resizing |
| Roles.PermissionIds | src/modules/system/RoleList.jsx:71 | one id per permission, in order |
| Roles.LeafIds | src/modules/system/RoleList.jsx:71 | the `flatMap` holds exactly the ids of the children of the tree's groups |
| Roles.AllExpandsToNineLeaves | src/modules/system/RoleList.jsx:32-60 | the leaves of the tree are the nine ids in tree order, with no repeats |
| Roles.InitialSelection | src/modules/system/RoleList.jsx:70-73 | editing a role holding `all` selects every leaf of the tree; otherwise it selects the role's own list |
| Roles.PermissionLabel | src/modules/system/RoleList.jsx:140-149 | a badge shows the display name of the module before the first `.`, or that module itself |
| Roles.LabelOfQualifiedId | src/modules/system/RoleList.jsx:140-149 | the label of `m.action` is the label of `m` |
| Roles.TreePermissionsShowGroupName | src/modules/system/RoleList.jsx:140-149 | every permission of the tree is shown with the name of its group |
| Roles.ModuleBadges | src/modules/system/RoleList.jsx:139-150 | one module badge per permission, in order |
| Roles.OverviewBadges | src/modules/system/RoleList.jsx:136-155 | one badge for `all`; otherwise badges for the first three permissions and a `+n` badge with n = length−3 exactly when there are more than three |
| Roles.RoleList.constructor | src/modules/system/RoleList.jsx:63-66 | the given roles, modal closed, no role being edited, nothing selected |
| Roles.RoleList.Edit | src/modules/system/RoleList.jsx:68-75 | opens the modal on the role with the `all`-expanded selection |
| Roles.RoleList.Create | src/modules/system/RoleList.jsx:108 | opens the modal on a new role with nothing selected |
| Roles.RoleList.PermToggle | src/modules/system/RoleList.jsx:77-83 | an unselected id is appended at the end; a selected one is removed everywhere and the others keep their order |
| Roles.RoleList.SaveRole | src/modules/system/RoleList.jsx:85-102 | an edit replaces the role with that id, keeping id and user count; a new role is appended with no users; ids stay unique; the modal closes |
| Roles.RoleList.CloseModal | src/modules/system/RoleList.jsx:164 | the modal closes |
| Roles.SaveEditReplacesInPlace | src/modules/system/RoleList.jsx:96-97 | saving an edit keeps the count, touches only the role with that id, and keeps ids unique |
| Users.FilteredUsers | src/modules/system/UserList.jsx:21-24 | exactly the users whose lower-cased name or e-mail includes the lower-cased term, in order; an empty term keeps everyone |
| Users.SearchIgnoresCase | src/modules/system/UserList.jsx:21-24 | a term and its lower-cased form select the same users |
| Users.StatusLabel | src/modules/system/UserList.jsx:103 | 活跃 exactly for `active`, 停用 otherwise |
| Users.RoleVariant | src/modules/system/UserList.jsx:95 | the role badge is highlighted exactly for 系统管理员 |
| Users.UserList.constructor | src/modules/system/UserList.jsx:16-19 | the given users, an empty search, modal closed, nobody being edited |
| Users.UserList.Visible | src/modules/system/UserList.jsx:85 | the rows shown are the users matching the current term |
| Users.UserList.SetSearchTerm | src/modules/system/UserList.jsx:63 | the search input sets the term |
| Users.UserList.Delete | src/modules/system/UserList.jsx:26-30 | without confirmation nothing changes; with it exactly the users with that id go and the rest keep their order |
| Users.UserList.OpenCreate | src/modules/system/UserList.jsx:68 | opens the modal on a new user |
| Users.UserList.OpenEdit | src/modules/system/UserList.jsx:109 | opens the modal on that user |
| Users.UserList.CloseModal | src/modules/system/UserList.jsx:121 | the modal closes |
| Users.UserList.SaveUser | src/modules/system/UserList.jsx:32-51 | an edit replaces the user in place, keeping id and last login; a new user is appended with last login `-`; the modal closes and nobody is being edited |
| Users.SaveEditReplacesInPlace | src/modules/system/UserList.jsx:44-45 | saving an edit keeps the count, touches only the user with that id, and keeps ids unique |
| ModelEditing.SampleFor | src/modules/modeling/ModelEditor.jsx:22-30 | the sample value by type: String `sample_text`, Number 123, Boolean true, Date the current time, Array `[]`, Object `{}`, any other type `null` |
| ModelEditing.MockOf | src/modules/modeling/ModelEditor.jsx:20-31 | every key of the preview object is the name of some field |
| ModelEditing.MockKeys | src/modules/modeling/ModelEditor.jsx:20-31 | the preview has one key per distinct field name |
| ModelEditing.MockLastWins | src/modules/modeling/ModelEditor.jsx:21-31 | when several fields share a name, the last one's sample is shown |
| ModelEditing.GenerateMock | src/modules/modeling/ModelEditor.jsx:18-33 | the loop over the fields builds exactly the preview object |
| ModelEditing.ApplyFieldEdit | src/modules/modeling/ModelEditor.jsx:44 | an edit changes only the given key of a field and never its id |
| ModelEditing.EditFields | src/modules/modeling/ModelEditor.jsx:43-45 | only fields with that id are edited; the length and all other fields are unchanged |
| ModelEditing.ModelEditor.constructor | src/modules/modeling/ModelEditor.jsx:11-33 | two required fields `id` and `timestamp`, the first model type, and the preview the first effect run builds from them |
| ModelEditing.ModelEditor.RefreshPreview | src/modules/modeling/ModelEditor.jsx:18-33 | the effect rebuilds the preview from the current fields; nothing else changes |
| ModelEditing.ModelEditor.AddField | src/modules/modeling/ModelEditor.jsx:18-37 | one optional `String` field with an empty name is appended, and the preview follows the new fields |
| ModelEditing.ModelEditor.RemoveField | src/modules/modeling/ModelEditor.jsx:18-41 | exactly the fields with that id go, the rest keep their order, and the preview follows the new fields |
| ModelEditing.ModelEditor.UpdateField | src/modules/modeling/ModelEditor.jsx:18-45 | one key of the field with that id changes, ids stay unique, and the preview follows the new fields |
| ModelEditing.ModelEditor.SetModelType | src/modules/modeling/ModelEditor.jsx:72 | the type select sets the model type |
| ModelEditing.ModelEditor.Submit | src/modules/modeling/ModelEditor.jsx:47-56 | hands on the form's name and description with the current type and fields unchanged |
| Modeling.FilteredModels | src/modules/modeling/ModelingList.jsx:176-180 | exactly the models whose lower-cased name includes the lower-cased term and whose type includes the filter unless it is `All`, in order |
| Modeling.TypeFilterNarrows | src/modules/modeling/ModelingList.jsx:178 | a card shown under a type filter is also shown under `All` |
| Modeling.BadgeFor | src/modules/modeling/ModelingList.jsx:236-237 | the badge text is the type up to its first space; the colour is warning exactly when the type includes `Status` |
| Modeling.StatusTypeBadge | src/modules/modeling/ModelingList.jsx:236-237 | the status type shows 状态数据 in the warning colour |
| Modeling.ResultTypeBadge | src/modules/modeling/ModelingList.jsx:236-237 | the result type shows 结果数据 in the success colour |
| Modeling.TypelessImportAcceptedAsWritten | src/modules/modeling/ModelingList.jsx:156 | the validation as written accepts a file with a name and fields but no type |
| Modeling.ImportCorrectionRejectsOnlyTypeless | src/modules/modeling/ModelingList.jsx:156 | the corrected validation accepts a subset of what the written one accepts, and rejects only typeless files beyond it |
| Modeling.ImportedModel | src/modules/modeling/ModelingList.jsx:156-165 | an accepted file becomes a card with a fresh id, the name suffixed ` (导入)` and modified just now; a rejected one becomes nothing |
| Modeling.ModelingList.constructor | src/modules/modeling/ModelingList.jsx:102-107 | the given role and models, an empty search, the `All` filter, both modals closed |
| Modeling.ModelingList.Visible | src/modules/modeling/ModelingList.jsx:228 | the cards shown are the models the search and the filter keep |
| Modeling.ModelingList.SetSearchTerm | src/modules/modeling/ModelingList.jsx:192 | the search input sets the term |
| Modeling.ModelingList.SetFilterType | src/modules/modeling/ModelingList.jsx:200 | the filter select sets the type filter |
| Modeling.ModelingList.OpenCreate | src/modules/modeling/ModelingList.jsx:211-221 | an administrator opens the create modal |
| Modeling.ModelingList.CloseModal | src/modules/modeling/ModelingList.jsx:265 | the create modal closes |
| Modeling.ModelingList.SaveModel | src/modules/modeling/ModelingList.jsx:110-121 | the draft becomes the first card with a fresh id, modified just now; the list grows by one and the modal closes |
| Modeling.ModelingList.DuplicateModel | src/modules/modeling/ModelingList.jsx:123-131 | a copy with the same type, description and fields, a fresh id and the name suffixed ` (副本)` becomes the first card |
| Modeling.ModelingList.Import | src/modules/modeling/ModelingList.jsx:152-166 | with the corrected validation (see Findings): a rejected file, including a typeless one the source would prepend, leaves the list unchanged; an accepted one becomes the first card |
| Modeling.ModelingList.OpenPreview | src/modules/modeling/ModelingList.jsx:247 | the preview modal opens on that model |
| Modeling.ModelingList.ClosePreview | src/modules/modeling/ModelingList.jsx:278 | the preview modal closes |
| Analysis.AnalysisDashboard.constructor | src/modules/analysis/AnalysisDashboard.jsx:16-19 | no model, no fields, no filters, no results |
| Analysis.AnalysisDashboard.SelectModel | src/modules/analysis/AnalysisDashboard.jsx:82-85 | choosing a model empties the selected fields |
| Analysis.AnalysisDashboard.AddField | src/modules/analysis/AnalysisDashboard.jsx:22-26 | a selected field changes nothing; another is appended; no duplicates ever |
| Analysis.AnalysisDashboard.RemoveField | src/modules/analysis/AnalysisDashboard.jsx:28-30 | the field goes and the others keep their order |
| Analysis.AnalysisDashboard.ChipClick | src/modules/analysis/AnalysisDashboard.jsx:106 | a chip click toggles the field |
| Analysis.AnalysisDashboard.AddFilter | src/modules/analysis/AnalysisDashboard.jsx:32-34 | one blank row `{field:'', operator:'=', value:''}` is appended |
| Analysis.AnalysisDashboard.RemoveFilter | src/modules/analysis/AnalysisDashboard.jsx:138 | exactly row `idx` goes, the others keep their order and the length drops by one; an index with no row changes nothing |
| Analysis.AnalysisDashboard.RunQuery | src/modules/analysis/AnalysisDashboard.jsx:36-43 | the three mock rows are shown |
| Analysis.ChipTwiceRestoresSelection | src/modules/analysis/AnalysisDashboard.jsx:106 | two clicks on a chip restore which fields are selected |
| Analysis.ChipTwiceOnUnselected | src/modules/analysis/AnalysisDashboard.jsx:106 | two clicks on an unselected chip restore the selection exactly, order included |
| ApiEditing.ApplyConfigEdit | src/modules/api/ApiEditor.jsx:48-143 | each control replaces its own property; the rate limit is `parseInt` of the input; the whitelist and metrics are untouched |
| ApiEditing.RateLimitRoundTrip | src/modules/api/ApiEditor.jsx:143 | typing a number into the rate-limit input stores that number |
| ApiEditing.ApiEditor.constructor | src/modules/api/ApiEditor.jsx:8-19 | endpoint `/api/v1/`, method GET, API_KEY auth, rate limit 1000, empty whitelist and metrics, empty input |
| ApiEditing.ApiEditor.SetIpInput | src/modules/api/ApiEditor.jsx:155 | the address input sets the text |
| ApiEditing.ApiEditor.AddIp | src/modules/api/ApiEditor.jsx:21-26 | a non-empty new address is appended and the input cleared; an empty or listed one changes neither |
| ApiEditing.ApiEditor.RemoveIp | src/modules/api/ApiEditor.jsx:28-30 | the address goes, the rest keep their order, and every other property is unchanged |
| ApiEditing.ApiEditor.Edit | src/modules/api/ApiEditor.jsx:48-143 | a form control applies its edit |
| ApiEditing.ApiEditor.Save | src/modules/api/ApiEditor.jsx:36 | the current definition, whose whitelist is duplicate-free, is handed on |
| ApiEditing.AddThenRemoveIp | src/modules/api/ApiEditor.jsx:21-30 | adding a new address and then removing it restores the whitelist |
| ApiLogs.FilteredLogs | src/modules/api/ApiLogs.jsx:17-21 | `error` keeps exactly status ≥ 400; `slow` keeps exactly flagged calls or latency > 200; anything else keeps all; always an ordered subsequence |
| ApiLogs.StatusVariant | src/modules/api/ApiLogs.jsx:76 | error from 500, warning for 400–499, success below 400 |
| ApiLogs.LatencyWarned | src/modules/api/ApiLogs.jsx:80 | the latency cell is never warned when its text holds no digit, `parseInt` giving NaN |
| ApiLogs.LatencyWarnedByMilliseconds | src/modules/api/ApiLogs.jsx:19 | a latency written `<n>ms` is warned exactly when n > 200 |
| ApiLogs.RowHighlighted | src/modules/api/ApiLogs.jsx:69-76 | a row is highlighted exactly when its status badge is not green |
| ApiLogs.MockErrorLogs | src/modules/api/ApiLogs.jsx:6-18 | over the mock log, the error selector keeps the 500 and the 403 calls, in that order |
| ApiLogs.ErrorRowsHighlighted | src/modules/api/ApiLogs.jsx:69 | under the error selector every row shown is highlighted |
| ApiLogs.SlowRowsWarned | src/modules/api/ApiLogs.jsx:19 | under the slow selector every row shown is flagged or has its latency warned |
| ApiLogs.SlowSelectsByMilliseconds | src/modules/api/ApiLogs.jsx:19 | a latency written `<n>ms` is kept by the slow selector exactly when flagged or n > 200 |
| Security.PanelsShown | src/modules/security/SecurityDashboard.jsx:53 | each panel is rendered exactly when the tab is its own, so at most one is |
| Security.AuditVariant | src/modules/security/SecurityDashboard.jsx:223 | green exactly for `Success`, red otherwise |
| Security.SecurityDashboard.constructor | src/modules/security/SecurityDashboard.jsx:9-27 | the access tab with the given requests and logs |
| Security.SecurityDashboard.SetTab | src/modules/security/SecurityDashboard.jsx:41-48 | a tab button renders exactly its own panel |
| Security.SecurityDashboard.Dismiss | src/modules/security/SecurityDashboard.jsx:29-36 | the request with that id goes, the others keep their order, and the logs are untouched |
| Security.SecurityDashboard.Approve | src/modules/security/SecurityDashboard.jsx:29-32 | removes exactly the request with that id and changes nothing else |
| Security.SecurityDashboard.Reject | src/modules/security/SecurityDashboard.jsx:34-36 | has the same effect on the list as approving |
| Security.DismissAllLeavesUndecided | src/modules/security/SecurityDashboard.jsx:29-36 | after deciding a series of requests, exactly the undecided ones remain, whatever the order |
| Security.AccessContent | src/modules/security/SecurityDashboard.jsx:59-62 | the empty-state text exactly when no request is pending; otherwise one card per request, in list order |
| Security.DecidingAllLeavesNone | src/modules/security/SecurityDashboard.jsx:29-36 | deciding every pending request leaves none, so the empty state shows |
| Security.InitialRequestsDecided | src/modules/security/SecurityDashboard.jsx:12-15 | the two initial requests have distinct ids, show as cards, and deciding both shows the empty state |
| Playout.ApplyGraphicEdit | src/modules/playout/PlayoutControl.jsx:84-101 | each input changes exactly its own line of the graphic |
| Playout.ProgramOutput | src/modules/playout/PlayoutControl.jsx:116-130 | the program window shows the current graphic exactly while on air, otherwise the placeholder |
| Playout.ProgramBadge | src/modules/playout/PlayoutControl.jsx:112-114 | red exactly while on air, neutral when idle |
| Playout.TemplateIdsDistinct | src/modules/playout/PlayoutControl.jsx:8-13 | the gallery's template ids are distinct |
| Playout.PlayoutControl.constructor | src/modules/playout/PlayoutControl.jsx:16-22 | the first template, off air, the initial graphic |
| Playout.PlayoutControl.SelectTemplate | src/modules/playout/PlayoutControl.jsx:42-43 | the clicked template is selected and it is the only one highlighted |
| Playout.PlayoutControl.Take | src/modules/playout/PlayoutControl.jsx:24-26 | goes on air with the current graphic; an enabled TAKE flips the state; graphic and template are untouched |
| Playout.PlayoutControl.Clear | src/modules/playout/PlayoutControl.jsx:28-30 | goes off air; an enabled CLEAR flips the state; graphic and template are untouched |
| Playout.PlayoutControl.Highlighted | src/modules/playout/PlayoutControl.jsx:42 | the selected template is marked, and no other gallery template is |
| Playout.PlayoutControl.TakeEnabled | src/modules/playout/PlayoutControl.jsx:140 | TAKE is enabled exactly while the program window shows no signal and the badge is idle |
| Playout.PlayoutControl.ClearEnabled | src/modules/playout/PlayoutControl.jsx:150 | CLEAR is enabled exactly while a graphic is on air, so exactly one of TAKE and CLEAR is |
| Playout.PlayoutControl.Program | src/modules/playout/PlayoutControl.jsx:116-130 | the program window shows the current graphic exactly while on air |
| Playout.PlayoutControl.EditGraphic | src/modules/playout/PlayoutControl.jsx:84-101 | one line of the graphic changes, and while on air the program shows it at once |
| Ingestion.SourceBadge | src/modules/ingestion/IngestionDashboard.jsx:79 | green for connected, amber for syncing, red for anything else |
| Ingestion.TaskBadge | src/modules/ingestion/IngestionDashboard.jsx:105 | green exactly for 成功, amber otherwise |
| Ingestion.UnitOf | src/modules/ingestion/IngestionDashboard.jsx:377 | ms below 1000, seconds below 60000, minutes from there on |
| Ingestion.UnitMonotone | src/modules/ingestion/IngestionDashboard.jsx:377 | a longer delay never shows in a smaller unit |
| Ingestion.SliderPosition | src/modules/ingestion/IngestionDashboard.jsx:367-371 | the slider positions are 10, 110, … up to 3 599 910 ms, the maximum 3 600 000 not being a step |
| Ingestion.SliderUnits | src/modules/ingestion/IngestionDashboard.jsx:367-377 | slider positions below a second show in ms; the last position is 3 599 910 ms and shows in minutes |
| Ingestion.TabsShown | src/modules/ingestion/IngestionDashboard.jsx:329-333 | a tab's content is rendered exactly when `activeTab` is its key |
| Ingestion.OneTabShown | src/modules/ingestion/IngestionDashboard.jsx:310-333 | a tab button renders exactly one content, its own |
| Ingestion.IngestionDashboard.constructor | src/modules/ingestion/IngestionDashboard.jsx:286-289 | the overview tab, the given sources, modal closed, delay 0 |
| Ingestion.IngestionDashboard.SetTab | src/modules/ingestion/IngestionDashboard.jsx:310-324 | a tab button sets the tab and exactly its content shows |
| Ingestion.IngestionDashboard.OpenModal | src/modules/ingestion/IngestionDashboard.jsx:329 | the add button opens the modal |
| Ingestion.IngestionDashboard.CloseModal | src/modules/ingestion/IngestionDashboard.jsx:383 | the cancel button closes the modal |
| Ingestion.IngestionDashboard.SetDelay | src/modules/ingestion/IngestionDashboard.jsx:373 | the slider stores its position |
| Ingestion.IngestionDashboard.AddSource | src/modules/ingestion/IngestionDashboard.jsx:291-304 | one connected, just-synced source with the form's name and type is appended under a fresh id; the modal closes |

## Findings

| source | as written | input that shows it | evidently intended | confidence | as-written member | corrected member |
|---|---|---|---|---|---|---|
| src/modules/modeling/ModelingList.jsx:156 | an imported file is accepted when it has a truthy `name` and `fields`; its `type` is not checked | the file `{"name": "球员统计", "fields": []}` is accepted and prepended. Every card then calls `model.type.includes` and `model.type.split` (lines 236-237), which throw on `undefined`. | a model file without a type is rejected like one without a name | not executed | Modeling.TypelessImportAcceptedAsWritten | Modeling.ImportCorrectionRejectsOnlyTypeless (used by Modeling.ModelingList.Import) |

## Left out

- Unicode case mapping: `Text.Lower` lowers ASCII letters only, so searches over non-ASCII capitals are not modelled.
- Text.ParseInt: numbers are unbounded integers. The model ignores the floating-point rounding of very long digit runs and the `-0` result.
- Ingestion.UnitOf: only the unit is chosen; the `toFixed(1)` text is not modelled.
- Canvas.PathBetween: gives the curve's coordinates, not the SVG `d` string. The dashed temporary curve is not modelled.
- Canvas.ProcessingCanvas.MouseMove: takes canvas coordinates; the `getBoundingClientRect` offset is not modelled.
- Canvas.ProcessingCanvas.ResizeMove and EndResize: these are the window listeners, modelled as methods. Registering and removing them is not modelled.
- Canvas.ProcessingCanvas.ConnectEnd: keeps every connection attached only when both ends exist. If a node is deleted during a gesture, a connection to it can still be added. The source allows this too.
- The publish-API modal, the clipboard copy and its `setTimeout`, and the version select of the canvas: browser side effects with no state logic.
- File reading, `JSON.parse`, the alerts and the export download of the model list: only the validation after parsing is modelled.
- Modeling.ImportedObject: a `name` that is not a string, a `fields` value that is not an array and a `type` that is not a string (which would make `includes` and `split` throw in the card) are not modelled. An absent description becomes `""`. Extra properties of the file are not kept.
- Roles.PermissionLabel: only the five module names are in the table. Keys found on `Object.prototype`, such as `constructor`, are not modelled.
- Users.UserList.Delete: `window.confirm` is the `confirmed` input.
- Modeling.ModelingList.OpenCreate, DuplicateModel and Import require an administrator because only administrators are shown the controls. The user context is a constructor input.
- Ingestion.IngestionDashboard.AddSource: requires a non-empty name and a listed type, as the form does. The URL, encryption flag and delay of the form are not stored, and neither are they in the source. The icon is not modelled.
- Analysis: the visual/code mode switch and the SQL text are not modelled. Neither are the filter rows' inputs, which are uncontrolled and never written back.
- Playout: the Update button has no handler and is not modelled. Template thumbnails are stored as text only.
- ModelEditing.MockOf: the preview is a map from names to sample values. Its JSON text and key order are not modelled. `new Date()` is read once per `Date` field, while the model gives every such field the same `now`. A field named `__proto__` goes through the object's prototype setter, which is not modelled: the model gives it an ordinary key.
- MockKeys: states one key per distinct field name, which does not hold for a field named `__proto__`. Assigning it a primitive sample adds no key, and assigning `[]`, `{}` or `null` replaces the prototype instead; after a `null` prototype, a later `__proto__` field does become an own key.
- Mock data contents: the constructors take the initial lists as inputs. Only the canvas, the model editor, the API form and the playout console start from constants.
- The presentational components (`Card`, `Button`, `Badge`, `Modal`) and all styling: no logic.
- `ProcessingNode.jsx`, `ModelPreview.jsx`, `ApiDebugger.jsx`, `ApiDashboard.jsx`, `ApiList.jsx`, `SystemDashboard.jsx`, `ReferenceManagement.jsx`, `App.jsx` and `AppShell.jsx` are not part of this model. They hold drag wrappers, routing, static tables and a fake delayed response.
