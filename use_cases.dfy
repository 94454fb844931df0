/** The guard-then-delegate use cases of src/core/application/useCases/.
    Each one checks its inputs in a fixed order, throws an `Error` with a
    fixed message on the first failed check without touching the repository,
    and otherwise forwards its input unchanged to exactly one repository
    method and returns (or throws) whatever that method does. */
module UseCases {
  import opened Wrappers
  import opened JsValues
  import opened JsStrings
  import opened Entities
  import opened Repositories

  /** `!x || x.trim().length === 0`, as the creation validators write it. */
  predicate MissingOrTrimsEmpty(x: Option<string>)
  {
    x.None? || x.value == "" || |Trim(x.value)| == 0
  }

  /** The same test stated without `trim`: absent, or whitespace only. */
  predicate AbsentOrBlank(x: Option<string>)
  {
    x.None? || IsBlank(x.value)
  }

  /** `x !== undefined && x.trim().length === 0`, as the update validator writes it. */
  predicate PresentAndTrimsEmpty(x: Option<string>)
  {
    x.Some? && |Trim(x.value)| == 0
  }

  lemma MissingOrTrimsEmptyIsAbsentOrBlank(x: Option<string>)
    ensures MissingOrTrimsEmpty(x) <==> AbsentOrBlank(x)
    ensures PresentAndTrimsEmpty(x) <==> x.Some? && IsBlank(x.value)
  {
    if x.Some? {
      TrimEmptyIffBlank(x.value);
    }
  }

  function Reject<C, T>(message: string): Outcome<C, T>
  {
    Outcome([], Failure(Error(message)))
  }

  /** CreateNoteUseCase.execute. */
  function CreateNote(repo: NoteRepository, data: NoteInput): (r: Outcome<NoteCall, Note>)
    ensures AbsentOrBlank(data.title) ==> r == Reject("Title is required")
    ensures !AbsentOrBlank(data.title) && AbsentOrBlank(data.description) ==>
              r == Reject("Description is required")
    ensures !AbsentOrBlank(data.title) && !AbsentOrBlank(data.description) ==>
              r.calls == [CreateNoteCall(data)] && r.result == repo.createNote(data)
  {
    MissingOrTrimsEmptyIsAbsentOrBlank(data.title);
    MissingOrTrimsEmptyIsAbsentOrBlank(data.description);
    if MissingOrTrimsEmpty(data.title) then Reject("Title is required")
    else if MissingOrTrimsEmpty(data.description) then Reject("Description is required")
    else Outcome([CreateNoteCall(data)], repo.createNote(data))
  }

  /** UpdateNoteUseCase.execute. It reads `content`, not `description`. */
  function UpdateNote(repo: NoteRepository, id: string, data: NoteInput): (r: Outcome<NoteCall, Note>)
    ensures id == "" ==> r == Reject("Note ID is required")
    ensures id != "" && data.title.Some? && IsBlank(data.title.value) ==>
              r == Reject("Title cannot be empty")
    ensures id != "" && !(data.title.Some? && IsBlank(data.title.value))
              && data.content.Some? && IsBlank(data.content.value) ==>
              r == Reject("Content cannot be empty")
    ensures id != "" && !(data.title.Some? && IsBlank(data.title.value))
              && !(data.content.Some? && IsBlank(data.content.value)) ==>
              r.calls == [UpdateNoteCall(id, data)] && r.result == repo.updateNote(id, data)
  {
    MissingOrTrimsEmptyIsAbsentOrBlank(data.title);
    MissingOrTrimsEmptyIsAbsentOrBlank(data.content);
    if id == "" then Reject("Note ID is required")
    else if PresentAndTrimsEmpty(data.title) then Reject("Title cannot be empty")
    else if PresentAndTrimsEmpty(data.content) then Reject("Content cannot be empty")
    else Outcome([UpdateNoteCall(id, data)], repo.updateNote(id, data))
  }

  /** The update validator never looks at `description`: whether a call is
      rejected, and with which message, does not depend on it. */
  lemma UpdateIgnoresDescription(repo: NoteRepository, id: string, data: NoteInput, d: Option<string>)
    ensures UpdateNote(repo, id, data).calls == [] <==>
            UpdateNote(repo, id, data.(description := d)).calls == []
    ensures UpdateNote(repo, id, data).calls == [] ==>
            UpdateNote(repo, id, data) == UpdateNote(repo, id, data.(description := d))
  {
  }

  /** CreateCategoryUseCase.execute. */
  function CreateCategory(repo: CategoryRepository, name: string, color: string): (r: Outcome<CategoryCall, Category>)
    ensures IsBlank(name) ==> r == Reject("Category name is required")
    ensures !IsBlank(name) && IsBlank(color) ==> r == Reject("Category color is required")
    ensures !IsBlank(name) && !IsBlank(color) ==>
              r.calls == [CreateCategoryCall(name, color)] && r.result == repo.createCategory(name, color)
  {
    MissingOrTrimsEmptyIsAbsentOrBlank(Some(name));
    MissingOrTrimsEmptyIsAbsentOrBlank(Some(color));
    if MissingOrTrimsEmpty(Some(name)) then Reject("Category name is required")
    else if MissingOrTrimsEmpty(Some(color)) then Reject("Category color is required")
    else Outcome([CreateCategoryCall(name, color)], repo.createCategory(name, color))
  }

  /** AddCategoryToNoteUseCase.execute: only emptiness is tested, no trim. */
  function AddCategoryToNote(repo: CategoryRepository, noteId: string, categoryId: string): (r: Outcome<CategoryCall, ()>)
    ensures noteId == "" ==> r == Reject("Note ID is required")
    ensures noteId != "" && categoryId == "" ==> r == Reject("Category ID is required")
    ensures noteId != "" && categoryId != "" ==>
              r.calls == [AddCategoryToNoteCall(noteId, categoryId)]
              && r.result == repo.addCategoryToNote(noteId, categoryId)
  {
    if noteId == "" then Reject("Note ID is required")
    else if categoryId == "" then Reject("Category ID is required")
    else Outcome([AddCategoryToNoteCall(noteId, categoryId)], repo.addCategoryToNote(noteId, categoryId))
  }

  /** FilterNotesByCategoryUseCase.execute: the repository's list comes back
      as it is, with no filtering or reordering on this side. */
  function FilterNotesByCategory(repo: CategoryRepository, categoryId: string): (r: Outcome<CategoryCall, seq<Note>>)
    ensures categoryId == "" ==> r == Reject("Category ID is required")
    ensures categoryId != "" ==>
              r.calls == [FilterNotesByCategoryCall(categoryId)]
              && r.result == repo.filterNotesByCategory(categoryId)
  {
    if categoryId == "" then Reject("Category ID is required")
    else Outcome([FilterNotesByCategoryCall(categoryId)], repo.filterNotesByCategory(categoryId))
  }

  /** ArchiveNoteUseCase.execute: calls `archiveNote`, never `unarchiveNote`. */
  function ArchiveNote(repo: NoteRepository, id: string): (r: Outcome<NoteCall, Note>)
    ensures id == "" ==> r == Reject("Note ID is required")
    ensures id != "" ==> r.calls == [ArchiveNoteCall(id)] && r.result == repo.archiveNote(id)
  {
    if id == "" then Reject("Note ID is required")
    else Outcome([ArchiveNoteCall(id)], repo.archiveNote(id))
  }

  /** UnarchiveNoteUseCase.execute. */
  function UnarchiveNote(repo: NoteRepository, id: string): (r: Outcome<NoteCall, Note>)
    ensures id == "" ==> r == Reject("Note ID is required")
    ensures id != "" ==> r.calls == [UnarchiveNoteCall(id)] && r.result == repo.unarchiveNote(id)
  {
    if id == "" then Reject("Note ID is required")
    else Outcome([UnarchiveNoteCall(id)], repo.unarchiveNote(id))
  }

  /** DeleteNoteUseCase.execute: returns nothing; a repository failure comes through. */
  function DeleteNote(repo: NoteRepository, id: string): (r: Outcome<NoteCall, ()>)
    ensures id == "" ==> r == Reject("Note ID is required")
    ensures id != "" ==> r.calls == [DeleteNoteCall(id)] && r.result == repo.deleteNote(id)
  {
    if id == "" then Reject("Note ID is required")
    else Outcome([DeleteNoteCall(id)], repo.deleteNote(id))
  }

  /** Across the use cases: each makes at most one repository call, and one
      that makes none was rejected. (A call that is made may still fail,
      with the repository's own error.) */
  lemma AtMostOneCall(nrepo: NoteRepository, crepo: CategoryRepository, id: string, data: NoteInput, a: string, b: string)
    ensures |CreateNote(nrepo, data).calls| <= 1 && |UpdateNote(nrepo, id, data).calls| <= 1
    ensures |CreateCategory(crepo, a, b).calls| <= 1 && |AddCategoryToNote(crepo, a, b).calls| <= 1
    ensures CreateNote(nrepo, data).calls == [] ==> CreateNote(nrepo, data).result.Failure?
    ensures UpdateNote(nrepo, id, data).calls == [] ==> UpdateNote(nrepo, id, data).result.Failure?
    ensures CreateCategory(crepo, a, b).calls == [] ==> CreateCategory(crepo, a, b).result.Failure?
    ensures AddCategoryToNote(crepo, a, b).calls == [] ==> AddCategoryToNote(crepo, a, b).result.Failure?
    ensures |ArchiveNote(nrepo, id).calls| + |UnarchiveNote(nrepo, id).calls| + |DeleteNote(nrepo, id).calls|
            == (if id == "" then 0 else 3)
  {
  }

  /** The creation suite's cases, as written against the code. The suite
      passes `content` and never `description`, so a non-blank title is
      followed by the description message in every case, the suite's
      "valid data" case included. */
  lemma CreateNoteTestCases(repo: NoteRepository)
    ensures CreateNote(repo, NoteInput(Some("Test Note"), None, Some("Test Content"))).result == Failure(Error("Description is required"))
    ensures CreateNote(repo, NoteInput(Some("Test Note"), None, Some("Test Content"))).calls == []
    ensures CreateNote(repo, NoteInput(Some(""), None, Some("Test Content"))).result == Failure(Error("Title is required"))
    ensures CreateNote(repo, NoteInput(Some("Test Note"), None, Some(""))).result == Failure(Error("Description is required"))
    ensures CreateNote(repo, NoteInput(Some("   "), None, Some("Test Content"))).result == Failure(Error("Title is required"))
    ensures CreateNote(repo, NoteInput(Some("Test Note"), None, Some("   "))).result == Failure(Error("Description is required"))
  {
    assert IsBlank("   ");
    assert !IsBlank("Test Note") by { assert !IsJsWhitespace("Test Note"[0]); }
  }

  /** The update suite's cases: an empty id, an empty title and an empty
      `content` are refused with their messages, and a partial update passes. */
  lemma UpdateNoteTestCases(repo: NoteRepository)
    ensures UpdateNote(repo, "", NoteInput(Some("Updated Title"), None, None)).result == Failure(Error("Note ID is required"))
    ensures UpdateNote(repo, "1", NoteInput(Some(""), None, None)).result == Failure(Error("Title cannot be empty"))
    ensures UpdateNote(repo, "1", NoteInput(None, None, Some(""))).result == Failure(Error("Content cannot be empty"))
    ensures UpdateNote(repo, "1", NoteInput(Some("Updated Title Only"), None, None)).calls
            == [UpdateNoteCall("1", NoteInput(Some("Updated Title Only"), None, None))]
  {
    assert !IsBlank("Updated Title Only") by { assert !IsJsWhitespace("Updated Title Only"[0]); }
    assert !IsBlank("Updated Title") by { assert !IsJsWhitespace("Updated Title"[0]); }
  }
}
