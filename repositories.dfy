/** The repository interfaces of src/core/domain/repositories/. An interface
    is a record with one function per method: the function gives the reply
    the implementation produces for that call (a value, or what it throws).
    The calls themselves are recorded as `NoteCall`/`CategoryCall` values, so
    that a use case can say exactly which calls it made. */
module Repositories {
  import opened Wrappers
  import opened JsValues
  import opened Entities

  datatype NoteRepository = NoteRepository(
    createNote: NoteInput -> Result<Note, Thrown>,
    getActiveNotes: () -> Result<seq<Note>, Thrown>,
    getArchivedNotes: () -> Result<seq<Note>, Thrown>,
    updateNote: (string, NoteInput) -> Result<Note, Thrown>,
    deleteNote: string -> Result<(), Thrown>,
    archiveNote: string -> Result<Note, Thrown>,
    unarchiveNote: string -> Result<Note, Thrown>)

  datatype NoteCall =
    | CreateNoteCall(data: NoteInput)
    | GetActiveNotesCall
    | GetArchivedNotesCall
    | UpdateNoteCall(id: string, data: NoteInput)
    | DeleteNoteCall(id: string)
    | ArchiveNoteCall(id: string)
    | UnarchiveNoteCall(id: string)

  datatype CategoryRepository = CategoryRepository(
    createCategory: (string, string) -> Result<Category, Thrown>,
    getCategories: () -> Result<seq<Category>, Thrown>,
    addCategoryToNote: (string, string) -> Result<(), Thrown>,
    removeCategoryFromNote: (string, string) -> Result<(), Thrown>,
    getNoteCategories: string -> Result<seq<Category>, Thrown>,
    filterNotesByCategory: string -> Result<seq<Note>, Thrown>,
    deleteCategory: string -> Result<(), Thrown>)

  datatype CategoryCall =
    | CreateCategoryCall(name: string, color: string)
    | GetCategoriesCall
    | AddCategoryToNoteCall(noteId: string, categoryId: string)
    | RemoveCategoryFromNoteCall(noteId: string, categoryId: string)
    | GetNoteCategoriesCall(noteId: string)
    | FilterNotesByCategoryCall(categoryId: string)
    | DeleteCategoryCall(categoryId: string)

  /** What running a use case amounts to: the repository calls it made, in
      order, and what it returned or threw. */
  datatype Outcome<C, T> = Outcome(calls: seq<C>, result: Result<T, Thrown>)
}
