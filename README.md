# Project registry dashboard: form, list and table logic

A Dafny model of the sequential logic under the project dashboard of
IA-GestorProjetos, a React front end that keeps a table of "projects"
(a system title, its URLs, credentials, Supabase and GitHub details, notes)
in a remote table service:

- `ProjectForm` (module `CreateForm`, file `project_form.dfy`): the create
  form's URL list, which always shows at least one input; the insert payload,
  where three switches null out the credentials behind them and blank URL
  entries are dropped (kept entries are not trimmed); the submit outcome,
  including the "no signed-in user" error; the submit-enabled condition and
  the `loading` flag.
- `ProjectEditForm` (module `EditForm`, file `project_edit_form.dfy`): the
  defaults derived from a stored project (`|| ""`, URLs joined by newlines),
  the URL text normalisation on submit (split at newlines, trim, drop empty
  pieces), the full-row update (`|| null`, no gating) and validation.
- `ProjectList` (module `ListView`, file `project_list.dfy`): the secret
  visibility map keyed by `projectId + "-" + field`, the masking renderer,
  the detail dialog that reads the same map, and the fetch and delete
  transitions.
- `ProjectTable` (module `TableView`, file `project_table.dfy`): the single
  "pending confirmation" slot of the two-step delete.
- Module `Js` (file `js.dfy`) models the JavaScript built-ins this logic
  relies on: `String.prototype.trim` with ECMAScript's whitespace and line
  terminator set, `split("\n")`, `join("\n")` and `Array.prototype.filter`.
- Module `Projects` (file `projects.dfy`) holds the stored row and the shapes
  of the service's replies. Every call to the service (select, insert,
  update, delete, current user) is replaced by its reply, passed to the
  operation as a parameter.

The create form and the list and table views keep state that their handlers
change step by step, so they are classes whose methods are the handlers. The
edit form's logic is object literals and a `split`/`map`/`filter` chain, so
it is functions and lemmas, with a small class for its `loading` flag.

Two behaviours of the code worth knowing:

- The create form keeps URL entries untrimmed: it only drops the entries
  whose trimmed text is empty (src/components/ProjectForm.tsx:69). The edit
  form does trim them. `EditForm.EditTrimsWhatCreateKeeps` relates the two
  paths.
- The detail dialog uses the same `renderPasswordField` and visibility map as
  the cards, reveal button included (src/components/ProjectList.tsx:352-380).

## Model

| member | source | states |
|---|---|---|
| Js.Trim | src/components/ProjectForm.tsx:69 | `trim` gives a string with no whitespace at either end, empty exactly when the input is all whitespace |
| Js.TrimIsPiece | src/components/ProjectEditForm.tsx:103 | the trimmed text is a contiguous piece of the input with only whitespace before and after it |
| Js.TrimStartEmpty | src/components/ProjectEditForm.tsx:103 | dropping leading whitespace leaves nothing exactly when the input is all whitespace |
| Js.TrimNoNewline | src/components/ProjectEditForm.tsx:103 | trimming a newline-free text gives a newline-free text |
| Js.TrimOfTrimmed | src/components/ProjectEditForm.tsx:103 | trimming a text without surrounding whitespace leaves it unchanged |
| Js.TrimStart | src/components/ProjectEditForm.tsx:103 | the longest suffix not starting with whitespace; everything dropped is whitespace |
| Js.TrimEnd | src/components/ProjectEditForm.tsx:103 | the longest prefix not ending with whitespace; everything dropped is whitespace |
| Js.SplitLines | src/components/ProjectEditForm.tsx:102 | `split("\n")` gives at least one piece and no piece contains a newline |
| Js.JoinLinesConcat | src/components/ProjectEditForm.tsx:79 | `join("\n")` of two non-empty lists concatenated is the join of each with one newline between |
| Js.JoinSplitLines | src/components/ProjectEditForm.tsx:101-102 | joining the pieces of a split gives the text back |
| Js.SplitJoinLines | src/components/ProjectEditForm.tsx:79 | splitting the join of one or more newline-free pieces gives the pieces back |
| Js.SplitLinesConcat | src/components/ProjectEditForm.tsx:102 | the pieces of `a + "\n" + b` are the pieces of `a` followed by those of `b` |
| Js.SplitLinesSingle | src/components/ProjectEditForm.tsx:102 | a newline-free text splits into itself alone |
| Js.Filter | src/components/ProjectEditForm.tsx:104 | `filter` keeps exactly the elements satisfying the predicate and never lengthens the list |
| Js.FilterConcat | src/components/ProjectEditForm.tsx:104 | filtering a concatenation filters each part, in order |
| Js.FilterCons | src/components/ProjectEditForm.tsx:104 | `filter` keeps a list's first element exactly when it passes, and filters the rest |
| Js.FilterKeepsAll | src/components/ProjectEditForm.tsx:104 | filtering a list whose elements all pass returns it unchanged |
| CreateForm.SubmittedUrls | src/components/ProjectForm.tsx:69 | the submitted URLs are exactly the entries that are not all whitespace, kept as typed |
| CreateForm.KeptUrlsKeepTheirSpaces | src/components/ProjectForm.tsx:69 | an entry with surrounding spaces is written with them; whitespace-only and empty entries are dropped |
| CreateForm.Gate | src/components/ProjectForm.tsx:75-82 | a gated column is null exactly when its switch is off, the typed text otherwise |
| CreateForm.BuildInsert | src/components/ProjectForm.tsx:65-84 | the insert carries the user id; its URLs are exactly `SubmittedUrls` of the entries; title, SaaS flag, location, e-mail, password, referral link, the three switches and notes are written as typed; the referral e-mail is null iff not referred, the Supabase columns iff no Supabase, the GitHub columns iff no GitHub, and the typed text otherwise |
| CreateForm.GatedTextDoesNotLeak | src/components/ProjectForm.tsx:75-82 | with every switch off the insert does not depend on what the gated inputs hold |
| CreateForm.ReferralLinkNotGated | src/components/ProjectForm.tsx:73-75 | the referral link is written as typed whichever way the referral switch is set |
| CreateForm.Submit | src/components/ProjectForm.tsx:59-96 | an insert is sent iff a user is signed in; without one the outcome is the "Usuário não autenticado" error; the outcome is saved iff a user is signed in and the insert succeeds, otherwise the service's message; the row sent is `BuildInsert` of the signed-in user and the inputs |
| CreateForm.WithoutIndex | src/components/ProjectForm.tsx:45 | the positional filter removes exactly entry `index` keeping the order of the rest; an index out of range removes nothing |
| CreateForm.ProjectForm.constructor | src/components/ProjectForm.tsx:19-36 | the form opens with one empty URL entry, every input empty and every switch off, not loading |
| CreateForm.ProjectForm.AddUrl | src/components/ProjectForm.tsx:39-41 | appends one empty entry after the existing ones; at least one entry remains |
| CreateForm.ProjectForm.RemoveUrl | src/components/ProjectForm.tsx:43-47 | with more than one entry and an index in range removes exactly that entry in order; otherwise nothing changes; never fewer than one entry |
| CreateForm.ProjectForm.UpdateUrl | src/components/ProjectForm.tsx:49-53 | entry `index` becomes the typed value; the length and every other entry are unchanged |
| CreateForm.ProjectForm.SetFields | src/components/ProjectForm.tsx:20-36 | the other inputs take the values typed |
| CreateForm.ProjectForm.SubmitEnabled | src/components/ProjectForm.tsx:343 | the submit button is enabled iff not loading and the title has a non-whitespace character |
| CreateForm.ProjectForm.HandleSubmit | src/components/ProjectForm.tsx:55-99 | callable only while the submit button is enabled (line 343) and the `type="email"` inputs on screen (lines 184, 224, 256) pass the browser's check; the submission is the one `Submit` describes for the current inputs, an insert never carries a blank title, every e-mail it carries is empty or accepted, and `loading` is false afterwards whatever the outcome |
| EditForm.OrEmpty | src/components/ProjectEditForm.tsx:77 | the `or ""` default is empty iff the column is absent or empty, and the column's text otherwise |
| EditForm.NullIfEmpty | src/components/ProjectEditForm.tsx:110 | the `or null` write is null iff the input is empty, and the input otherwise |
| EditForm.TrimAll | src/components/ProjectEditForm.tsx:103 | `map(url => url.trim())` trims each piece and keeps the count |
| EditForm.TrimAllConcat | src/components/ProjectEditForm.tsx:103 | trimming each piece of a concatenation trims each part |
| EditForm.NormalizeUrls | src/components/ProjectEditForm.tsx:101-104 | every submitted URL is non-empty, has no surrounding whitespace and no newline |
| EditForm.TrimmedPiecesClean | src/components/ProjectEditForm.tsx:102-103 | the trimmed pieces of a split have no surrounding whitespace and no newline |
| EditForm.KeptPiecesClean | src/components/ProjectEditForm.tsx:104 | dropping the empty ones of such pieces leaves a clean URL list |
| EditForm.NormalizeJoinRoundTrip | src/components/ProjectEditForm.tsx:79-104 | stored URLs that are non-empty, trimmed and newline-free come back unchanged from being joined into the text box and normalised |
| EditForm.NormalizeIdempotent | src/components/ProjectEditForm.tsx:101-104 | normalising the joined result of a normalisation gives the same list |
| EditForm.NormalizeConcat | src/components/ProjectEditForm.tsx:101-104 | the URLs of two texts joined by a newline are those of the first followed by those of the second |
| EditForm.NormalizeLine | src/components/ProjectEditForm.tsx:101-104 | a single line gives its trimmed text, or nothing when blank |
| EditForm.NormalizeEmpty | src/components/ProjectEditForm.tsx:101-104 | an empty text box submits no URL |
| EditForm.LeadingBlankLineDropped | src/components/ProjectEditForm.tsx:104 | a blank first line contributes no URL |
| EditForm.TrimPadded | src/components/ProjectEditForm.tsx:103 | a trimmed non-empty text with one space on each side trims back to itself |
| EditForm.NormalizePadded | src/components/ProjectEditForm.tsx:101-104 | a URL with one space on each side normalises to the bare URL |
| EditForm.NormalizePaddedLines | src/components/ProjectEditForm.tsx:101-104 | two padded URLs around a blank line normalise to the two bare URLs |
| EditForm.NormalizeExample | src/components/ProjectEditForm.tsx:101-104 | `" https://a.com \n\n https://b.com "` normalises to `["https://a.com", "https://b.com"]` |
| EditForm.Defaults | src/components/ProjectEditForm.tsx:75-95 | title and switches are copied; the URL text is the stored URLs joined with newlines, and for clean stored URLs it normalises back to the stored list |
| EditForm.DefaultsShowColumns | src/components/ProjectEditForm.tsx:77-94 | each optional text input opens with its column's value, or "" when the column is absent |
| EditForm.PayloadRow | src/components/ProjectEditForm.tsx:108-128 | title and switches written as they are, the URL list as given, and no text column written as "" |
| EditForm.UpdatePayload | src/components/ProjectEditForm.tsx:101-128 | title and switches written as they are, the URLs are the normalised URL text and are clean, and no text column written as "" |
| EditForm.RowWritesInputs | src/components/ProjectEditForm.tsx:110-127 | each optional text column is written as its input, or null when the input is empty |
| EditForm.PayloadWritesInputs | src/components/ProjectEditForm.tsx:110-127 | each optional text column of the update is its input, or null when the input is empty |
| EditForm.NoGatingOnEdit | src/components/ProjectEditForm.tsx:116-126 | the switches change only their own columns; a dependent column is written even with its switch off |
| EditForm.Validates | src/components/ProjectEditForm.tsx:15-35 | values validate exactly when the title is non-empty, each of the three e-mails is empty or accepted by the e-mail check, and the referral link is empty or accepted by the URL check |
| EditForm.Submit | src/components/ProjectEditForm.tsx:98-146 | an update is sent iff the values validate, and it is `UpdatePayload` of the values for row `id`; values that fail validation send nothing and end as `Invalid`, with no toast; a sent update is saved iff the service succeeds, and a failed update gives the service's message |
| EditForm.WhitespaceTitleAccepted | src/components/ProjectEditForm.tsx:16 | the title rule is length at least one, not trimmed: a title of one space validates, which the create form would refuse |
| EditForm.EditTrimsWhatCreateKeeps | src/components/ProjectEditForm.tsx:101-104 | trimming the entries the create form keeps gives exactly the trimmed non-empty entries the edit form keeps |
| EditForm.AsRow | src/components/ProjectEditForm.tsx:108-128 | a stored row seen as an update has the same title, switches, text columns and URLs |
| EditForm.Overwrite | src/components/ProjectEditForm.tsx:106-129 | an update replaces every column but the id and creation time |
| EditForm.NullIfEmptyOfOrEmpty | src/components/ProjectEditForm.tsx:77-127 | an absent or non-empty column shown with `or ""` and written back with `or null` comes back unchanged |
| EditForm.DefaultsRowWritesSameRow | src/components/ProjectEditForm.tsx:75-128 | for a row with no column holding "", the defaults written back with the row's own URLs give the row |
| EditForm.SaveUnchangedWritesSameRow | src/components/ProjectEditForm.tsx:75-128 | opening the form on a clean row and saving it untouched writes the row as it is |
| EditForm.SaveIsStable | src/components/ProjectEditForm.tsx:75-128 | after any update, opening the form again and saving untouched writes the same update |
| EditForm.ProjectEditForm.constructor | src/components/ProjectEditForm.tsx:71-96 | the form opens on the defaults of its project, not loading |
| EditForm.ProjectEditForm.SetValues | src/components/ProjectEditForm.tsx:73-96 | the values become the ones typed |
| EditForm.ProjectEditForm.HandleSubmit | src/components/ProjectEditForm.tsx:98-150 | callable only while not loading (the button is disabled while loading, line 397); the submission is the one `Submit` describes, and `loading` is false afterwards whatever the outcome |
| ListView.Key | src/components/ProjectList.tsx:73 | the key is the project id, a '-', then the field name |
| ListView.FieldPartOfKey | src/components/ProjectList.tsx:73 | a field name without '-' is recovered from any key built with it |
| ListView.KeyInjective | src/components/ProjectList.tsx:72-77 | for field names without '-', equal keys mean the same project and the same field |
| ListView.KeysCanCollide | src/components/ProjectList.tsx:73 | ("a-b", "c") and ("a", "b-c") share the key "a-b-c" |
| ListView.Visible | src/components/ProjectList.tsx:84 | `showPasswords[key]` read as a truth value: a key never toggled reads as hidden, any other reads its stored value |
| ListView.Toggled | src/components/ProjectList.tsx:74-77 | toggling flips the visibility of the key and of no other, a missing key reading as hidden |
| ListView.ToggleTwiceRestores | src/components/ProjectList.tsx:76 | toggling the same key twice restores every key's visibility |
| ListView.ToggleLeavesOtherSecrets | src/components/ProjectList.tsx:72-78 | toggling one secret leaves every other (project, field) pair's visibility alone when field names have no '-' |
| ListView.CollidingToggle | src/components/ProjectList.tsx:73 | toggling ("a-b", "c") flips ("a", "b-c") too |
| ListView.RenderSecret | src/components/ProjectList.tsx:80-89 | an empty or absent secret shows "-"; a non-empty one shows itself when visible and eight bullets otherwise |
| ListView.MaskRevealsNothing | src/components/ProjectList.tsx:89 | every hidden non-empty secret shows the same mask |
| ListView.ProjectList.constructor | src/components/ProjectList.tsx:38-42 | no projects, loading, an empty map so every secret hidden, dialog closed |
| ListView.ProjectList.FetchProjects | src/components/ProjectList.tsx:45-66 | rows replace the list (none when the data is null); an error keeps the list and shows the fetch-error toast; loading is false either way |
| ListView.ProjectList.TogglePasswordVisibility | src/components/ProjectList.tsx:72-78 | the map becomes the toggled map: this secret's visibility flips and no other key's changes |
| ListView.ProjectList.RenderPasswordField | src/components/ProjectList.tsx:80-89 | a non-empty secret shows itself when its key is visible and the mask otherwise; an empty or absent one shows "-" |
| ListView.ProjectList.CardSecrets | src/components/ProjectList.tsx:220-281 | a card shows the rendered password first, then the rendered Supabase password only with Supabase, then the rendered GitHub password last only with GitHub, each under its own key |
| ListView.ProjectList.DialogSecrets | src/components/ProjectList.tsx:352-380 | the dialog shows the selected project's rendered password first, then its Supabase password only with Supabase, then its GitHub password last only with GitHub |
| ListView.ProjectList.OpenDetails | src/components/ProjectList.tsx:167-170 | selects the project, opens the dialog, and the dialog's secrets are exactly the card's secrets |
| ListView.DialogSharesCardVisibility | src/components/ProjectList.tsx:352-380 | the dialog's secrets are the card's secrets for the selected project, read from the same map |
| ListView.ProjectList.DeleteProject | src/components/ProjectList.tsx:102-130 | a delete is sent iff the user confirms; the parent re-fetches iff it was confirmed and succeeded; the toasts of success and failure; the local list and flags are left alone |
| TableView.ConfirmShown | src/components/ProjectTable.tsx:139 | a row shows the confirm pair iff its id is the pending one |
| TableView.AtMostOneRowConfirms | src/components/ProjectTable.tsx:37 | with distinct ids no two rows show the confirm pair |
| TableView.ProjectTable.constructor | src/components/ProjectTable.tsx:36-37 | the table holds the rows it is given and nothing is pending |
| TableView.ProjectTable.RowsConfirming | src/components/ProjectTable.tsx:139 | the rows showing the confirm pair are those whose id is pending |
| TableView.ProjectTable.RequestDelete | src/components/ProjectTable.tsx:162 | the row becomes the pending one, replacing any other; only rows with its id show the confirm pair |
| TableView.ProjectTable.CancelDelete | src/components/ProjectTable.tsx:152 | nothing is pending and no row shows the confirm pair |
| TableView.ProjectTable.DeleteProject | src/components/ProjectTable.tsx:40-65 | success re-fetches, shows the success toast and clears the slot; failure shows the service's message and leaves the slot; the rows are never changed |
| TableView.ProjectTable.EditRow | src/components/ProjectTable.tsx:134 | the edit button hands the whole row to the parent |

## Left out

- The remote table service and authentication: each select, insert, update, delete and current-user call is replaced by its reply, a parameter of the operation that issues it.
- The e-mail and URL syntax checks are library or browser checks; they are the parameters `isEmail` and `isUrl`. In the create form `isEmail` stands for the browser's check of the `type="email"` inputs on screen (src/components/ProjectForm.tsx:184, 224, 256). In the edit form it stands for both the schema's check (src/components/ProjectEditForm.tsx:20-26) and the browser's check of its `type="email"` inputs (lines 220, 257, 363); the schema checks all three e-mails whether shown or not, so the browser's check of the shown ones adds no case, and both are taken to accept the same addresses.
- The browser's `confirm()` dialog before a list delete is the boolean parameter `confirmed`.
- src/pages/Dashboard.tsx and src/pages/Index.tsx: session handling, navigation and a static landing page.
- JSX rendering, styling, the success toasts of the create and edit forms, the `onSuccess` and `onCancel` callbacks, and date formatting.
- Overlapping requests and unmounting: each handler runs to completion before the next event.
- `loading` is observed only before and after a handler; the value it holds while a request is in flight is not a state of the model.
- CreateForm.ProjectForm.UpdateUrl: requires an index inside the list, as its only caller passes the index of a rendered input; writing past the end, which in JavaScript leaves holes in the array, is not modelled.
- The model treats strings as sequences of Unicode code points; JavaScript's UTF-16 code units only differ for characters outside the Basic Multilingual Plane, none of which is whitespace.
- Client-side filters, project steps, `order_index` and `general_progress` are not part of this model.
