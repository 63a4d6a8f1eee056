# Prompt Stash: a verified model of `PromptStashApp`

Prompt Stash is a browser page where a user saves text prompts. Each prompt
has a title, content, tags and an optional project. Projects are coloured
folders shown in a sidebar. The class `PromptStashApp` keeps two lists in
memory, `savedPrompts` and `savedProjects`. It also keeps:

- a view filter `currentProject`: `"all"`, `"unassigned"` or a project id;
- the colour picked for the next project, `selectedColor`;
- a delete staged by the confirmation dialog, `deleteTarget`.

This project models that state machine in Dafny and proves what its
operations promise.

- `wrappers.dfy` (`Wrappers`): the `Option` type.
- `seqs.dfy` (`Seqs`): `Array.prototype.filter` and `splice(i, 1)` on
  sequences. It proves that a filter is an order-preserving selection that
  misses nothing.
- `text.dfy` (`Text`): `String.prototype.trim` over the ECMAScript white-space
  set, `split(',')` and `join(',')`, and the tag pipeline of `addPrompt`.
- `store.dfy` (`Store`): the prompt and project records and the views. It
  also has the badge counts, the delete cascade, the store invariant (unique
  ids, no prompt filed under a missing project) and `findIndex`/`find`.
- `app.dfy` (`App`): the class `PromptStashApp` with its fields and one
  method per event handler. Each method is proved against the functions of
  `Store` and `Text`.
- `scenario.dfy` (`Scenario`): small clients that use the class through its
  contracts and the functions of `Store` and `Seqs`.

Form fields are method parameters. So are the ids `generateId` would
produce and the timestamps `new Date().toISOString()` would produce.

Three facts about the code shape the model:

- A prompt is deleted by its position in `savedPrompts`. The card's delete
  button carries that position as `data-id`, and `confirmDelete` splices at
  `parseInt` of it. The prompt's id is not used for the delete.
- `!prompt.projectId` is true for a prompt with no project and also for one
  whose project id is the empty string. The "unassigned" view and badge use
  `!prompt.projectId`, while a project's view compares with `===`.
- The staged delete is never cleared, neither by confirming nor by
  cancelling.

## Model

| member | source | states |
|---|---|---|
| App.PromptStashApp.constructor | common_resources/js/promptStash.js:88-98 | the lists start as loaded, the view is "all", the colour is `#3B82F6`, and nothing is staged |
| App.PromptStashApp.AddPrompt | common_resources/js/promptStash.js:357-382 | succeeds exactly when the trimmed title and content are both non-empty; on failure nothing changes; on success exactly one prompt with the trimmed fields, parsed tags and `value \|\| null` project is appended; a fresh id is then found at the end; the store invariant is kept for a fresh id and a project the selector offers |
| App.PromptStashApp.CreateProject | common_resources/js/promptStash.js:211-232 | succeeds exactly when the trimmed name is non-empty; on failure nothing changes; on success one project with the picked colour is appended and the colour goes back to `#3B82F6`; the store invariant is kept for a fresh id |
| App.PromptStashApp.PickColor | common_resources/js/promptStash.js:150-157 | a click on a colour option makes that colour the one the next project gets |
| App.PromptStashApp.CancelNewProject | common_resources/js/promptStash.js:140-143 | cancelling the new-project dialog resets the picked colour to `#3B82F6` and changes nothing else (the click outside the dialog at :176-179 does the same) |
| App.PromptStashApp.StagePromptDelete | common_resources/js/promptStash.js:194-203 | stages the prompt at the position the card's button carries |
| App.PromptStashApp.DeleteProject | common_resources/js/promptStash.js:275-285 | stages the project; reports the first project with that id, or none; reports the number of its prompts, which is the number of cards its view shows |
| App.PromptStashApp.ConfirmDelete | common_resources/js/promptStash.js:287-302 | a staged prompt is spliced out at its position and nothing else changes; a staged project is removed, its prompts are unassigned, and the view switches to "all" only when it showed that project; the store invariant is kept |
| App.PromptStashApp.UnassignPrompts | common_resources/js/promptStash.js:293-297 | the loop leaves exactly the unassigned list `Store.Unassign` describes |
| App.PromptStashApp.SelectProject | common_resources/js/promptStash.js:324-352 | sets the view filter; the header count equals the number of cards that view shows, in all three branches |
| App.PromptStashApp.GetFilteredPrompts | common_resources/js/promptStash.js:435-443 | the cards are stored prompts, no more of them than are stored, and a stored prompt is a card exactly when the current view shows it |
| App.PromptStashApp.UpdateCounts | common_resources/js/promptStash.js:445-449 | the two badges are the number of cards of the "all" and of the "unassigned" view |
| App.PromptStashApp.SidebarCounts | common_resources/js/promptStash.js:245-250 | one count per project in sidebar order, each the number of that project's prompts; in a consistent store they add up, with the unassigned badge, to the number of prompts |
| Seqs.Filter | common_resources/js/promptStash.js:291 | a filter never lengthens the list |
| Seqs.FilterKeeps | common_resources/js/promptStash.js:291 | an element is in the filtered list exactly when it is in the list and satisfies the predicate |
| Seqs.FilterSelects | common_resources/js/promptStash.js:439-441 | the filtered list is the subsequence at strictly increasing positions whose elements satisfy the predicate, and it misses none of them |
| Seqs.RemoveAt | common_resources/js/promptStash.js:289 | removing at an index in range drops exactly that element: the elements before it stay, the elements after it move up one, and the multiset loses exactly that element |
| Seqs.SpliceOne | common_resources/js/promptStash.js:289 | `splice(start, 1)` for any integer start: a negative start counts from the end and is clamped at 0, and a start past the end removes nothing |
| Text.IsWhiteSpace | common_resources/js/promptStash.js:358 | the characters `trim` removes: exactly the ECMAScript WhiteSpace and LineTerminator code points |
| Text.TrimStart | common_resources/js/promptStash.js:358 | the result is a suffix of the input, the dropped prefix is white space, and the result does not start with white space |
| Text.TrimEnd | common_resources/js/promptStash.js:358 | the result is a prefix of the input, the dropped suffix is white space, and the result does not end with white space |
| Text.Trim | common_resources/js/promptStash.js:358-360 | the result neither starts nor ends with white space |
| Text.TrimIsSlice | common_resources/js/promptStash.js:358-360 | the trim is a slice of the input with only white space outside it |
| Text.TrimKeepsChars | common_resources/js/promptStash.js:358-361 | trimming adds no character |
| Text.TrimOfTrimmed | common_resources/js/promptStash.js:358-360 | a string with no white space at either end is its own trim |
| Text.TrimIdempotent | common_resources/js/promptStash.js:358-361 | trimming twice is trimming once |
| Text.Split | common_resources/js/promptStash.js:361 | `split(',')` yields at least one piece, and no piece contains a comma |
| Text.JoinSplit | common_resources/js/promptStash.js:361 | joining the pieces of a split with commas gives back the input |
| Text.SplitJoin | common_resources/js/promptStash.js:361 | splitting a comma-join of comma-free pieces gives back the pieces |
| Text.TrimEach | common_resources/js/promptStash.js:361 | `.map(tag => tag.trim())`: the contract states one result per piece; that each result is the trim of its piece is the body, and `Text.TrimEachSelects` states it for what the filter keeps |
| Text.NonEmpty | common_resources/js/promptStash.js:361 | the truthiness test of `filter(tag => tag)`: a string is kept exactly when it is not empty |
| Text.TrimPieceIsTag | common_resources/js/promptStash.js:361 | a comma-free piece that trims to something non-empty trims to a tag |
| Text.ParseTags | common_resources/js/promptStash.js:360-361 | every stored tag is non-empty, comma-free and has no white space at either end |
| Text.ParseTagsInOrder | common_resources/js/promptStash.js:360-361 | the tags are the trimmed pieces of the trimmed input, in input order, and exactly the pieces that trim to nothing are dropped |
| Store.IsUnassigned | common_resources/js/promptStash.js:439 | `!prompt.projectId`, also used by the badge at :448: the prompt has no project, or its project id is the empty string |
| Store.BelongsTo | common_resources/js/promptStash.js:441 | `prompt => prompt.projectId === pid`, also used at :250, :281 and :294: the prompt's project id is exactly `pid`, and a prompt with no project belongs to none |
| Store.NotId | common_resources/js/promptStash.js:291 | `p => p.id !== pid`: the project's id differs from `pid` |
| Store.FilteredPrompts | common_resources/js/promptStash.js:435-443 | the three branches of `getFilteredPrompts` for a given view, never more prompts than are stored; `Store.ViewSelects` and `Store.ViewMembership` describe it |
| Store.ViewSelects | common_resources/js/promptStash.js:435-443 | each view is the subsequence of the stored prompts it shows, in stored order, missing none: every prompt for "all", the prompts without a project for "unassigned", and otherwise that project's prompts |
| Store.ViewMembership | common_resources/js/promptStash.js:435-443 | a prompt is in a view exactly when it is stored and the view shows it |
| Store.UnassignedCount | common_resources/js/promptStash.js:447-448 | the unassigned badge, at most the number of prompts; `Store.CountsAddUp` and `Store.CascadeGrowsUnassigned` describe it |
| Store.ProjectPromptCount | common_resources/js/promptStash.js:250 | a project's count, also the one at :281, at most the number of prompts; `Store.CountsAddUp`, `Store.CascadeChangesAnnouncedCount` and `App.PromptStashApp.DeleteProject` describe it |
| Store.ProjectCounts | common_resources/js/promptStash.js:245-250 | one count per project, the j-th being the number of prompts of the j-th project |
| Store.CountsAddUp | common_resources/js/promptStash.js:250 | with no dangling project reference and unique, non-empty project ids, the unassigned badge plus the sidebar counts equals the number of prompts |
| Store.RemoveProject | common_resources/js/promptStash.js:291 | the filter on project ids, never longer than the list; `Store.RemoveProjectKeepsOthers` describes it |
| Store.RemoveProjectKeepsOthers | common_resources/js/promptStash.js:291 | the removal keeps every project with another id, in order, and drops every project with that id |
| Store.RemoveProjectKeepsUnique | common_resources/js/promptStash.js:291 | removing a project keeps project ids unique |
| Store.Unassign | common_resources/js/promptStash.js:293-297 | the length is kept; no prompt refers to the deleted project any more; its prompts lose only their project; every other prompt is unchanged |
| Store.CascadeChangesAnnouncedCount | common_resources/js/promptStash.js:281-297 | the number of prompts the cascade changes equals the count the confirmation message announced |
| Store.CascadeEmptiesView | common_resources/js/promptStash.js:293-297 | after the cascade the deleted project has no prompts |
| Store.CascadeKeepsOtherViews | common_resources/js/promptStash.js:293-297 | after the cascade every other project's view and count are unchanged |
| Store.CascadeGrowsUnassigned | common_resources/js/promptStash.js:293-297 | the unassigned badge grows by exactly the announced count, except for the empty id, whose prompts were counted as unassigned already |
| Store.CascadeKeepsReferences | common_resources/js/promptStash.js:291-297 | removing a project together with its cascade leaves no dangling project reference |
| Store.RemovePromptKeepsInvariants | common_resources/js/promptStash.js:289 | splicing out one prompt keeps prompt ids unique and leaves no dangling reference |
| Store.ProjectRef | common_resources/js/promptStash.js:362 | `value \|\| null`: no project exactly for the empty choice, otherwise the chosen id |
| Store.AppendPromptKeepsInvariants | common_resources/js/promptStash.js:362-382 | appending a prompt with a fresh id, filed under no project or under one the selector offers, keeps the store invariant |
| Store.AppendProjectKeepsInvariants | common_resources/js/promptStash.js:218-225 | appending a project with a fresh id keeps the store invariant |
| Store.FindIndex | common_resources/js/promptStash.js:406 | `findIndex` returns -1 exactly when no prompt has the id, otherwise the first position holding it |
| Store.FindProject | common_resources/js/promptStash.js:280 | `find` returns nothing exactly when no project has the id, otherwise the first project with it |
| Store.CardIndices | common_resources/js/promptStash.js:405-406 | one `data-id` per card of the view, each -1 or a position in the list; `Store.CardDeletesItsPrompt` describes it |
| Store.CardDeletesItsPrompt | common_resources/js/promptStash.js:405-415 | with unique ids, the position on the k-th card's delete button is in range and holds that card's prompt, and splicing there removes exactly that prompt |
| Store.NewPromptIsFound | common_resources/js/promptStash.js:382 | a prompt appended with a fresh id is found at the end of the list |

## Left out

- Rendering is not modelled: the DOM, `innerHTML`, the modals, the sidebar toggles, the active-item highlight, the header title and the error text. The numbers the page shows are modelled as formulas over the current lists; when the page computes them is not modelled (the SidebarCounts and SelectProject lines below say where the page lags).
- `saveToStorage` and the `localStorage`/JSON round trip are not modelled. The constructor takes the loaded lists as parameters.
- `generateId` and `new Date().toISOString()` are not modelled, because they are randomness and clock. Ids and timestamps are parameters.
- The time text `toLocaleString` is not modelled, because it depends on the locale.
- The display side of the colour options and the dialogs is not modelled: the highlighted option and showing or hiding a modal. Their effect on `selectedColor` is `PickColor` and `CancelNewProject`.
- Cancelling the delete dialog, by its button (:170-172) or by a click outside it (:180-182), only hides it, so it has no method.
- Clearing the form after a successful `addPrompt` is not modelled, because the form fields are parameters here.
- `init`, `initializeElements`, `updateProjectSelector` and the page-load hook are not modelled, because they only touch the DOM. `setupEventListeners` is not modelled as one operation. Each of its handlers that changes state is a method of its own: `PickColor`, `CancelNewProject`, `StagePromptDelete`, `CreateProject`, `AddPrompt`, `ConfirmDelete` and `SelectProject`.
- App.PromptStashApp.ConfirmDelete: a call with nothing staged is excluded by its precondition. The page throws a TypeError there, and nothing is changed before the throw.
- App.PromptStashApp.DeleteProject: for an id with no project the page throws at `project.name` after staging. The model stages and returns `None`, so the count is still computed.
- App.PromptStashApp.SelectProject: for an id with no project the page throws at `project.name` after setting the filter and before re-rendering. The model sets the filter and returns the count.
- Store.CardDeletesItsPrompt: requires unique prompt ids. With a duplicate id, `findIndex` points every such card at the first copy, and the lemma does not describe which prompt is then deleted.
- App.PromptStashApp.StagePromptDelete: `parseInt` of the button's `data-id` is modelled by taking the integer position directly, since the page only ever writes an integer there.
- App.PromptStashApp.SidebarCounts: returns the counts of the current lists. The page writes them only in `renderProjects` (:117, :227, :305). `addPrompt` (:382-385) does not call it. So after a prompt is added, the sidebar entry of its project shows the old count until the next project is created or a delete is confirmed. The model keeps no displayed copy of the counts. So `Store.CountsAddUp` is an identity over the current lists, not over the numbers on the page in that window, where the "all" badge (:385) is already up to date.
- App.PromptStashApp.SelectProject: returns the header count at the moment a view is selected, which is when the page writes it (:340-351). Nothing else rewrites that header. After `addPrompt`, a confirmed prompt delete, or a confirmed project delete that does not switch the view (the "unassigned" view gains the unassigned prompts), the page still shows the old number, while the view's cards are re-rendered. The model keeps no displayed header.
- App.PromptStashApp.SidebarCounts: the identity between the badges holds only when no project has the empty id. With such a project, its prompts count both in its sidebar entry and as unassigned.
