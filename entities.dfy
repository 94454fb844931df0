/** The domain records of src/core/domain/entities/Note.ts. A text field
    that the runtime object may lack (callers and the mock store pass objects
    whose keys differ from the declared interface) is an `Option`. */
module Entities {
  import opened Wrappers

  /** Milliseconds since the epoch, taken as an opaque input (`new Date()`). */
  type Timestamp = int

  datatype Category = Category(id: string, name: string, color: string)

  datatype Note = Note(
    id: string,
    title: Option<string>,
    description: Option<string>,
    content: Option<string>,
    isArchived: bool,
    createdAt: Timestamp,
    updatedAt: Timestamp,
    categories: Option<seq<Category>>)

  /** The object a caller hands to create or update a note (`CreateNoteDto`,
      `UpdateNoteDto`): the two declared keys, plus `content`, which the
      update validator, the mock store and the tests read. */
  datatype NoteInput = NoteInput(
    title: Option<string>,
    description: Option<string>,
    content: Option<string>)
}
