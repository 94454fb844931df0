# Notes web client: a Dafny model of its client-side state and rules

The notes client is a Next.js/React front end. Users keep notes, archive them and tag them with coloured
categories. This project models the part of it that holds rules and state:

- the use-case validators of the domain layer (guard, then delegate to a repository);
- the response-envelope decoding of `NotesService` and the four-way category shape sniff of `useCategories`;
- the networked hooks `useNotes` and `useCategories`, as classes whose methods send requests to a server
  oracle and then edit `notes`/`categories`, `loading` and `error` in the order the hooks do;
- the offline hooks `useNotesMock` and `useCategoriesMock`, as classes over a model of the browser's
  `localStorage` (a stored list plus a shown list);
- the `AuthProvider` session (initial load, login, logout) over the same storage;
- the route guard in `middleware.ts`;
- the selection rules of the notes page: which list it shows, which fetch it runs, which archive operation
  a card dispatches, and its empty-state and count texts.

Layout, one module per file:

| file | module | models |
|---|---|---|
| wrappers.dfy | Wrappers | `Option`, `Result` |
| js_values.dfy | JsValues | the JavaScript values a response can hold, truthiness, property reads that throw on `null`/`undefined`, `err instanceof Error ? err.message : fallback` |
| js_strings.dfy | JsStrings | `trim()` over the ECMAScript white-space and line-terminator set, `startsWith`, decimal rendering of counts |
| lists.dfy | Lists | `filter`, `map` and `find` over sequences, with their laws |
| entities.dfy | Entities | `Note`, `Category` and the create/update inputs |
| repositories.dfy | Repositories | the two repository interfaces as records of functions, and the calls a use case makes |
| use_cases.dfy | UseCases | the eight validating use cases |
| browser_storage.dfy | BrowserStorage | `localStorage` keys 'notes', 'categories' and 'token' |
| backend.dfy | Backend | the remote API: a request log and a reply function of (history, request) |
| notes_service.dfy | NotesService | request shapes and envelope decoding of `NotesService` |
| auth_context.dfy | AuthContext | `AuthProvider` |
| use_notes.dfy | UseNotes | `useNotes` |
| use_categories.dfy | UseCategories | `useCategories` |
| use_notes_mock.dfy | UseNotesMock | `useNotesMock` |
| use_categories_mock.dfy | UseCategoriesMock | `useCategoriesMock` |
| middleware.dfy | Middleware | `middleware` |
| notes_page.dfy | NotesPage | the selection rules of `app/notes/page.tsx` |

How the source's effects are modelled:

- **Errors.** A thrown exception is a `Failure`. `Thrown` separates a real `Error` from any other thrown
  value, because `HttpClient` throws a plain object. The hooks record the fallback message for such a value.
- **React state.** A sequence of `setX` calls is a sequence of field assignments. A functional update sees
  the value the previous call queued. This is why the mock's `createNote` shows its new note twice.
- **Ids and dates.** `Date.now()` ids and `new Date()` timestamps are method parameters.
- **Storage reads.** A read of a storage key is `Absent`, `Stored(value)` or `Corrupt(message)`. `Corrupt`
  is text that `JSON.parse` rejects, and it is the only failure path of the offline hooks.

Where the description of the system and the code disagree, the model follows the code:

- The route guard counts an `authorization` header only when it is a non-empty string. The test is
  `token || authHeader`, so an empty header is falsy.
- `CreateNoteUseCase` checks `description` with 'Description is required'. Its tests expect
  'Content is required', and the model keeps the code's message.
- The same tests pass `{title, content}` and no `description`, also in their "valid data" case
  (`src/core/application/useCases/__tests__/CreateNoteUseCase.test.ts:23-43`). The code rejects that input
  with 'Description is required' before any repository call, and `UseCases.CreateNoteTestCases` states so.

## Model

| member | source | states |
|---|---|---|
| JsValues.Prop | src/app/infrastructure/http/NotesService.ts:34-36 | reading a property of `null`/`undefined` throws; a missing key of an object reads as `undefined` |
| JsValues.MessageOf | src/hooks/useNotes.ts:22-23 | an `Error` contributes its message, any other thrown value the fallback |
| JsStrings.TrimEmptyIffBlank | src/core/application/useCases/CreateNoteUseCase.ts:8 | `s.trim().length === 0` holds exactly when every character of `s` is white space |
| JsStrings.NatToStringRoundTrip | app/notes/page.tsx:351 | a count renders as a non-empty digit string without leading zero that reads back as the count |
| UseCases.MissingOrTrimsEmptyIsAbsentOrBlank | src/core/application/useCases/CreateNoteUseCase.ts:8-14 | the creation test (missing, or trims to empty) means "absent or whitespace only"; the update test (defined and trims to empty) means "present and whitespace only" |
| UseCases.CreateNote | src/core/application/useCases/CreateNoteUseCase.ts:7-17 | a blank or missing title fails first with 'Title is required', then a blank or missing description with 'Description is required', neither calling the repository; otherwise exactly one `createNote` call with the untouched input, whose result is returned |
| UseCases.UpdateNote | src/core/application/useCases/UpdateNoteUseCase.ts:7-21 | in the order id, title, content: an empty id, a present but blank title, a present but blank `content` each fail with their message and no call; an absent field passes; otherwise one `updateNote(id, data)` call whose result is returned |
| UseCases.UpdateIgnoresDescription | src/core/application/useCases/UpdateNoteUseCase.ts:12-18 | whether an update is rejected, and how, does not depend on `description` |
| UseCases.CreateCategory | src/core/application/useCases/CreateCategoryUseCase.ts:7-17 | name is checked before colour, each failing when missing or blank; otherwise one call with the untrimmed name and colour |
| UseCases.AddCategoryToNote | src/core/application/useCases/AddCategoryToNoteUseCase.ts:6-16 | only emptiness of noteId, then of categoryId, is refused (a whitespace id passes); otherwise one call with both ids |
| UseCases.FilterNotesByCategory | src/core/application/useCases/FilterNotesByCategoryUseCase.ts:7-13 | an empty id is refused with no call; otherwise one call and the repository's list returned unchanged |
| UseCases.ArchiveNote | src/core/application/useCases/ArchiveNoteUseCase.ts:7-13 | an empty id is refused with no call; otherwise exactly one `archiveNote(id)` call and its note returned |
| UseCases.UnarchiveNote | src/core/application/useCases/UnarchiveNoteUseCase.ts:7-13 | an empty id is refused with no call; otherwise exactly one `unarchiveNote(id)` call and its note returned |
| UseCases.DeleteNote | src/core/application/useCases/DeleteNoteUseCase.ts:6-12 | an empty id is refused with no call; otherwise exactly one `deleteNote(id)` call, its failure passed on |
| UseCases.AtMostOneCall | src/core/application/useCases/CreateNoteUseCase.ts:8-16 | across the use cases, at most one repository call is made, and creating a note, updating a note, creating a category or tagging a note without a call is a failure |
| UseCases.CreateNoteTestCases | src/core/application/useCases/__tests__/CreateNoteUseCase.test.ts:23-79 | the creation suite's cases as the code answers them: blank titles get 'Title is required', and every input with a non-blank title, the "valid data" case included, gets 'Description is required' with no call, since the suite never passes `description` |
| UseCases.UpdateNoteTestCases | src/core/application/useCases/__tests__/UpdateNoteUseCase.test.ts:47-97 | the update suite's refusals and the partial update that passes hold of the model |
| NotesService.UnwrapEntity | src/app/infrastructure/http/NotesService.ts:85 | `response.data` when truthy, else the whole response; a `null`/`undefined` response throws |
| NotesService.DecodeCreated | src/app/infrastructure/http/NotesService.ts:34-41 | a created note is accepted exactly when the unwrapped value has a truthy `id`, and is then that value; otherwise 'Created note has no ID', or the unwrap's own failure |
| NotesService.DecodeList | src/app/infrastructure/http/NotesService.ts:55 | an array is returned as is; an object gives its truthy `data` or the empty list |
| NotesService.DecodeCreatedRoundTrip | src/app/infrastructure/http/NotesService.ts:33-41 | a note decodes to itself whether bare or inside the `{statusCode, message, data}` envelope |
| NotesService.DecodeListRoundTrip | src/app/infrastructure/http/NotesService.ts:54-57 | a list decodes to itself bare or enveloped; an envelope without truthy `data` gives the empty list |
| NotesService.CreatedWithoutIdRefused | src/app/infrastructure/http/NotesService.ts:36-39 | an enveloped note without `id` is refused |
| NotesService.CreateNoteOutcome | src/app/infrastructure/http/NotesService.ts:30-41 | a failed request propagates untouched; a reply is decoded as a created note |
| NotesService.ListOutcome | src/app/infrastructure/http/NotesService.ts:51-57 | a failed request propagates untouched; a reply is decoded as a list |
| NotesService.UpdateNoteOutcome | src/app/infrastructure/http/NotesService.ts:82-86 | a failed request propagates untouched; a reply is unwrapped with no id check |
| NotesService.VoidOutcome | src/app/infrastructure/http/NotesService.ts:93-98 | archive, unarchive and delete succeed exactly when the request does and return nothing |
| NotesService.CreateNote | src/app/infrastructure/http/NotesService.ts:27-42 | sends one POST to /notes with the payload and returns the decoded reply |
| NotesService.GetActiveNotes | src/app/infrastructure/http/NotesService.ts:48-58 | sends one GET to /notes/active and returns the decoded list |
| NotesService.GetArchivedNotes | src/app/infrastructure/http/NotesService.ts:64-73 | sends one GET to /notes/archived and returns the decoded list |
| NotesService.UpdateNote | src/app/infrastructure/http/NotesService.ts:79-87 | sends one PUT to /notes/:id and returns the unwrapped reply |
| NotesService.ArchiveNote | src/app/infrastructure/http/NotesService.ts:93-98 | sends one POST with an empty body to /notes/:id/archive |
| NotesService.UnarchiveNote | src/app/infrastructure/http/NotesService.ts:104-109 | sends one POST with an empty body to /notes/:id/unarchive |
| NotesService.DeleteNote | src/app/infrastructure/http/NotesService.ts:115-120 | sends one DELETE to /notes/:id |
| AuthContext.AuthProvider.constructor | src/context/AuthContext.tsx:17-18 | the provider starts with no token and loading |
| AuthContext.AuthProvider.Init | src/context/AuthContext.tsx:21-33 | the stored token is adopted only when it is a non-empty string and reading did not throw; loading ends either way, so the children render |
| AuthContext.AuthProvider.Login | src/context/AuthContext.tsx:35-49 | from any state, a successful sign-in stores the token and sets the same token in state, and authenticates exactly when the token is non-empty; a failure is rethrown with store and state unchanged |
| AuthContext.AuthProvider.Logout | src/context/AuthContext.tsx:51-55 | the stored token and the state token are both cleared, the provider is no longer authenticated, nothing else changes |
| AuthContext.AuthProvider.IsAuthenticated | src/context/AuthContext.tsx:72 | `!!token` holds exactly when the token is present and non-empty |
| AuthContext.SessionLifecycle | src/context/AuthContext.tsx:58-72 | from any storage, the children render after the mount effect, a sign-in returning `t` authenticates exactly when `t` is non-empty, and a logout signs out and clears the stored token |
| UseNotes.WithoutIdSpec | src/hooks/useNotes.ts:85 | removing an id keeps exactly the other entries, in order, and is idempotent |
| UseNotes.ReplaceIdSpec | src/hooks/useNotes.ts:67-69 | replacing by an id no entry has changes nothing; replacing twice is replacing once |
| UseNotes.NotesHook.constructor | src/hooks/useNotes.ts:10-12 | the hook starts with an empty list, not loading, no error |
| UseNotes.NotesHook.FetchActiveNotes | src/hooks/useNotes.ts:15-27 | without a token: 'No auth token' and no request; otherwise one request, the list replaced by the decoded reply, or kept with the message recorded; never rethrows; loading ends false |
| UseNotes.NotesHook.FetchArchivedNotes | src/hooks/useNotes.ts:29-41 | as the active fetch, against /notes/archived |
| UseNotes.NotesHook.CreateNote | src/hooks/useNotes.ts:43-59 | on success the created note heads the list; on failure the list is kept, the message recorded and the failure returned |
| UseNotes.NotesHook.UpdateNote | src/hooks/useNotes.ts:61-77 | on success every entry with the id becomes the returned note; on failure the list is kept and the failure returned |
| UseNotes.NotesHook.DeleteNote | src/hooks/useNotes.ts:79-92 | on success every entry with the id leaves the list; on failure the list is kept and the failure returned |
| UseNotes.NotesHook.ArchiveNote | src/hooks/useNotes.ts:94-107 | on success every entry with the id leaves the list; on failure the list is kept and the failure returned |
| UseNotes.NotesHook.UnarchiveNote | src/hooks/useNotes.ts:109-122 | on success every entry with the id leaves the list; on failure the list is kept and the failure returned |
| UseCategories.ExtractCategories | src/hooks/useCategories.ts:28-37 | the first array among the response, `data.categories`, `categories` and `data`, or the empty list |
| UseCategories.ExtractRoundTrip | src/hooks/useCategories.ts:28-37 | each of the four response shapes yields the list it carries; other shapes yield nothing |
| UseCategories.ExtractPriority | src/hooks/useCategories.ts:31-36 | `data.categories` wins over `categories`, which wins over `data` |
| UseCategories.CategoriesHook.constructor | src/hooks/useCategories.ts:9-11 | the hook starts with no categories, not loading, no error |
| UseCategories.CategoriesHook.FetchCategories | src/hooks/useCategories.ts:14-47 | without a token it changes nothing at all; otherwise one GET /categories, the list replaced by the extracted one, or kept with the message recorded; never rethrows |
| UseCategories.CategoriesHook.CreateCategory | src/hooks/useCategories.ts:56-71 | never inserts locally: a successful POST is followed by a refetch whose own failure is recorded but not rethrown; a failed POST is recorded and returned |
| UseCategories.CategoriesHook.AddCategoryToNote | src/hooks/useCategories.ts:73-103 | fails with 'No auth token' without a request; otherwise returns the service's answer; categories untouched |
| UseCategories.CategoriesHook.RemoveCategoryFromNote | src/hooks/useCategories.ts:105-123 | fails with 'No auth token' without a request; otherwise one DELETE whose failure is recorded and returned; categories untouched |
| UseCategories.CategoriesHook.FilterNotesByCategory | src/hooks/useCategories.ts:125-141 | returns the service's notes unchanged and never touches categories |
| UseNotesMock.ActiveArchivedPartition | src/hooks/useNotesMock.ts:41-61 | the active and archived fetches split the stored list: every note is on exactly one side, with multiplicity |
| UseNotesMock.ReadAll | src/hooks/useNotesMock.ts:74-79 | an unset key reads as the empty list, a stored list as itself, unparsable text as the parse error |
| UseNotesMock.NewNote | src/hooks/useNotesMock.ts:81-89 | a created note is unarchived, has no categories, both dates equal to now, and copies only title and content |
| UseNotesMock.Merge | src/hooks/useNotesMock.ts:114-117 | supplied fields override, all others are kept, and `updatedAt` is now |
| UseNotesMock.UpdateThenFind | src/hooks/useNotesMock.ts:114-122 | after an update, looking the id up finds the first note that had it, merged, or nothing when none had it |
| UseNotesMock.UpdateKeepsOthers | src/hooks/useNotesMock.ts:114-118 | an update keeps length, order and every note with another id |
| UseNotesMock.UpdatedViewIsStored | src/hooks/useNotesMock.ts:120-125 | with unique ids, the shown list after an update is exactly the stored one |
| UseNotesMock.SetArchivedSpec | src/hooks/useNotesMock.ts:164-166 | archiving sets the flag on every note with the id and on no other, keeping the length |
| UseNotesMock.ArchiveMovesNote | src/hooks/useNotesMock.ts:164-169 | an archived note leaves the active page and appears on the archived page; other notes stay put |
| UseNotesMock.UnarchiveMovesNote | src/hooks/useNotesMock.ts:189-194 | the mirror image for unarchiving |
| UseNotesMock.CreateHeadsActive | src/hooks/useNotesMock.ts:91-92 | a created note heads the active page and is never on the archived one |
| UseNotesMock.DeleteSpec | src/hooks/useNotesMock.ts:142-144 | deletion keeps exactly the notes with other ids, in order, and is idempotent |
| UseNotesMock.NotesMock.constructor | src/hooks/useNotesMock.ts:12-22 | the mount effect shows the whole stored list, archived notes included |
| UseNotesMock.NotesMock.FetchActiveNotes | src/hooks/useNotesMock.ts:30-48 | shows exactly the stored unarchived notes, in order; an unset key keeps the list; a parse error is recorded and swallowed |
| UseNotesMock.NotesMock.FetchArchivedNotes | src/hooks/useNotesMock.ts:50-68 | shows exactly the stored archived notes, in order; same edge cases |
| UseNotesMock.NotesMock.CreateNote | src/hooks/useNotesMock.ts:70-101 | stores `[new] + old` and shows `[new, new] + old`, returning the new note; a parse error is recorded and returned with nothing written |
| UseNotesMock.NotesMock.UpdateNote | src/hooks/useNotesMock.ts:103-133 | stores the merged list, shows it with matches replaced by the first match, and returns that note (or nothing) |
| UseNotesMock.NotesMock.DeleteNote | src/hooks/useNotesMock.ts:135-151 | the stored and the shown list both become the notes with other ids |
| UseNotesMock.NotesMock.ArchiveNote | src/hooks/useNotesMock.ts:153-176 | stores the list with the note archived and shows the whole stored list minus that id |
| UseNotesMock.NotesMock.UnarchiveNote | src/hooks/useNotesMock.ts:178-201 | stores the list with the note unarchived and shows the whole stored list minus that id |
| UseNotesMock.NotesMock.SetFlag | src/hooks/useNotesMock.ts:157-169 | the shared body of archive and unarchive, with the flag as a parameter |
| UseCategoriesMock.FindCategory | src/hooks/useCategoriesMock.ts:67 | finds a stored category with the id exactly when there is one, and then the first one |
| Lists.FindFirstAt | src/hooks/useCategoriesMock.ts:67 | `find` yields the element at the first index that passes |
| UseCategoriesMock.Attach | src/hooks/useCategoriesMock.ts:70-80 | a tagged note keeps its id and archive flag and carries a category with the id |
| UseCategoriesMock.Detach | src/hooks/useCategoriesMock.ts:101-109 | an untagged note carries no category with the id; a note without a category list keeps none |
| UseCategoriesMock.CarryingIsActiveNarrowed | src/hooks/useCategoriesMock.ts:136-138 | the filter result is the active page narrowed to the notes carrying the category |
| UseCategoriesMock.AttachIdempotent | src/hooks/useCategoriesMock.ts:72-76 | tagging a note twice with a category is tagging it once |
| UseCategoriesMock.AttachInIdempotent | src/hooks/useCategoriesMock.ts:70-82 | `addCategoryToNote` twice writes the same notes as once |
| UseCategoriesMock.AttachAppends | src/hooks/useCategoriesMock.ts:72-77 | a missing category is appended at the end (a missing list counts as empty); a present one leaves the note as it is |
| UseCategoriesMock.DetachUndoesAttach | src/hooks/useCategoriesMock.ts:101-109 | untagging a note just tagged with a new category gives the note back |
| UseCategoriesMock.DetachIdempotent | src/hooks/useCategoriesMock.ts:102-106 | untagging a note twice is untagging it once |
| UseCategoriesMock.DetachInIdempotent | src/hooks/useCategoriesMock.ts:101-111 | `removeCategoryFromNote` twice writes the same notes as once |
| UseCategoriesMock.TaggingTouchesOnlyTarget | src/hooks/useCategoriesMock.ts:70-80 | tagging and untagging keep length and order and touch only notes with the id; untagging leaves notes without a list alone |
| UseCategoriesMock.TagThenFilter | src/hooks/useCategoriesMock.ts:136-138 | a tagged active note is found by the filter for that category; an untagged note is not |
| UseCategoriesMock.CategoriesMock.constructor | src/hooks/useCategoriesMock.ts:26-28 | the mount effect runs the fetch once |
| UseCategoriesMock.CategoriesMock.FetchCategories | src/hooks/useCategoriesMock.ts:11-24 | shows the stored list when there is one, else keeps the list; a parse error is recorded |
| UseCategoriesMock.CategoriesMock.CreateCategory | src/hooks/useCategoriesMock.ts:30-53 | appends the new category to the stored list, shows exactly the stored list, and returns the category |
| UseCategoriesMock.CategoriesMock.AddCategoryToNote | src/hooks/useCategoriesMock.ts:55-89 | with either key unset writes nothing and succeeds; parse errors, then an unknown category ('Category not found'), fail with nothing written; otherwise the tagged notes are stored |
| UseCategoriesMock.CategoriesMock.RemoveCategoryFromNote | src/hooks/useCategoriesMock.ts:91-120 | with the notes key unset writes nothing; otherwise stores the untagged notes |
| UseCategoriesMock.CategoriesMock.FilterNotesByCategory | src/hooks/useCategoriesMock.ts:122-145 | writes nothing; returns the active notes carrying the category, `[]` when nothing is stored |
| Middleware.Decide | middleware.ts:4-35 | a redirect happens exactly on a public path with a token, and its target is always /notes |
| Middleware.ProtectedNeverBlocked | middleware.ts:24-28 | a protected path is always passed through, with or without a token |
| Middleware.ProtectedIsNotPublic | middleware.ts:8-17 | no path is both protected and public |
| Middleware.RedirectTargetPasses | middleware.ts:30-32 | the redirect target is itself passed through, so the guard cannot loop |
| Middleware.PrefixCases | middleware.ts:9-11 | the prefix test admits '/notesX' and '/login-help'; an empty header is no token |
| NotesPage.FilterCall | app/notes/page.tsx:46-57 | the filter is asked exactly in the active view with a non-empty selection, for that category |
| NotesPage.ArchivedIgnoresCategory | app/notes/page.tsx:53-56 | the archived view shows the loaded notes whatever is selected |
| NotesPage.ActiveFollowsCategory | app/notes/page.tsx:47-52 | the active view shows the filter's answer with a selection, keeps the previous list when the filter call fails, and shows the loaded notes without a selection |
| NotesPage.FetchFor | app/notes/page.tsx:60-66 | the active view fetches active notes and the archived view archived notes |
| NotesPage.ArchiveActionFor | app/notes/page.tsx:359 | the archive button unarchives exactly in the archived view |
| NotesPage.ArchiveButtonSwapsPage | src/hooks/useNotesMock.ts:153-201 | over the offline store of `useNotesMock`, the operation the archive button picks in either view moves the note from that view's page to the other's |
| NotesPage.PressArchive | app/notes/page.tsx:143-189 | over `useNotes`, the archived view sends the unarchive request and the active view the archive request; on success the entries with the id leave the list, on failure the list is kept |
| NotesPage.PressArchiveHidesNote | app/notes/page.tsx:359 | after a successful press no displayed entry has the id, every other entry keeps its multiplicity, and the survivors keep their order |
| UseNotes.WithoutIdCounts | src/hooks/useNotes.ts:100 | removing an id drops every entry with it and keeps the others as often as they occurred |
| Lists.FilterCounts | src/hooks/useNotes.ts:100 | a filter keeps each passing element as often as it occurs and drops the others |
| NotesPage.EmptyStateConsistent | app/notes/page.tsx:324-337 | the category heading wins; the welcome heading appears exactly with the create-first button, which only shows beside '+ New' |
| NotesPage.CountLabelCases | app/notes/page.tsx:348-352 | the label, shown only for a non-empty list, reads '1 note' for one note and '12 notes' for twelve |
| NotesPage.CountLabelInjective | app/notes/page.tsx:351 | different counts give different labels |

## Left out

- Network I/O: `fetch`, both `HttpClient` files and their 401 redirect, and `CategoriesService`. Each request
  is a `Backend.Server.Send` with a log. Its reply comes from an arbitrary function of the history, so any
  server behaviour, including `CategoriesService`'s thrown errors, is covered.
- `AuthService.signIn` is not modelled; its outcome is the parameter of `AuthProvider.Login`. Credentials
  are not modelled.
- `NoteRepositoryImpl`, `CategoryRepositoryImpl`, `GetActiveNotesUseCase` and `GetArchivedNotesUseCase`
  only pass calls through, so they are not modelled.
- Clock and ids: `Date.now()` ids and `new Date()` timestamps are parameters. Converting stored dates with
  `new Date(...)` is the identity here.
- Writes to `localStorage` always succeed. Quota errors are not modelled, and `JSON.stringify` then
  `JSON.parse` is taken to give the value back.
- A stored text that parses but is not an array, or holds `null` items, is not modelled. The mock hooks would
  throw a `TypeError` on it. An empty stored string reads as `Absent`, as `if (savedNotes)` treats it.
- UseNotesMock.NotesMock.constructor: when the stored text does not parse, the source's mount effect throws
  unhandled. The model leaves the list empty.
- UseNotes.NotesHook.UpdateNote: when the current list is not an array, the source throws inside a React
  updater, and the model leaves the list unchanged. When the list holds `null` or `undefined` items, the
  source throws on reading `note.id`. The model instead keeps those items and still edits the entries with
  the id. The same holds for DeleteNote, ArchiveNote and UnarchiveNote.
- An object key present with the value `undefined` is not distinguished from an absent key.
- Numbers are integers; floating point and `NaN` are not modelled.
- Concurrency: React's asynchronous scheduling and out-of-order completions are not modelled. Each hook
  operation is one atomic method.
- The `useCategories` mount effect is a call of `FetchCategories`, which does nothing without a token.
- NotesPage.PressArchive: the archived note appears in the other view only when that view's fetch returns
  it from the server, which the server oracle decides, so the move between views is stated only for the
  offline store (`NotesPage.ArchiveButtonSwapsPage`). The handler's `setViewMode('list')` and
  `setSelectedNote(null)` are not modelled.
- Presentation: JSX, SweetAlert dialogs, the components and the other pages are out of scope. In the notes
  page, only the selection rules are modelled, not its handlers for editing and tagging.
- `src/app/notes/page.tsx` is an older variant of the notes page and is not part of this model.
- The middleware `config.matcher` list is not modelled. `Middleware.Decide` is stated for every path.
- All `console` logging is omitted.
