/** src/hooks/useNotesMock.ts: the same operations as the networked notes
    hook, over the browser's 'notes' key. Every write replaces the whole
    stored list and also replaces the shown list with it (`saveNotes`);
    several operations then edit the shown list once more through a
    functional update, which sees the list `saveNotes` has just queued. */
module UseNotesMock {
  import opened Wrappers
  import opened JsValues
  import opened Lists
  import opened Entities
  import opened BrowserStorage

  predicate IsActiveNote(n: Note) { !n.isArchived }
  predicate IsArchivedNote(n: Note) { n.isArchived }

  /** `notes.filter(note => !note.isArchived)`. */
  function Active(s: seq<Note>): seq<Note> { Filter(s, IsActiveNote) }

  /** `notes.filter(note => note.isArchived)`. */
  function Archived(s: seq<Note>): seq<Note> { Filter(s, IsArchivedNote) }

  /** Every stored note is on exactly one of the two pages. */
  lemma ActiveArchivedPartition(s: seq<Note>)
    ensures |Active(s)| + |Archived(s)| == |s|
    ensures multiset(Active(s)) + multiset(Archived(s)) == multiset(s)
    ensures forall n :: n in s ==> (n in Active(s) <==> n !in Archived(s))
  {
    FilterPartition(s, IsActiveNote, IsArchivedNote);
  }

  /** The stored list as the write operations read it: an empty list when
      the key is unset, the parse error when `JSON.parse` throws. */
  function ReadAll<T>(slot: Slot<seq<T>>): (r: Result<seq<T>, Thrown>)
    ensures slot.Absent? ==> r == Success([])
    ensures slot.Stored? ==> r == Success(slot.value)
    ensures slot.Corrupt? ==> r == Failure(Error(slot.parseError))
  {
    match slot
    case Absent => Success([])
    case Stored(all) => Success(all)
    case Corrupt(m) => Failure(Error(m))
  }

  /** The note `createNote` builds: the id and both dates come from the clock,
      and of the input only `title` and `content` are copied. */
  function NewNote(data: NoteInput, newId: string, now: Timestamp): (n: Note)
    ensures n.id == newId && !n.isArchived && n.createdAt == now && n.updatedAt == now
    ensures n.title == data.title && n.content == data.content && n.description == None
    ensures n.categories == Some([])
  {
    Note(newId, data.title, None, data.content, false, now, now, Some([]))
  }

  /** `{ ...note, ...data, updatedAt: new Date() }`: each key the input
      carries wins, every other field is kept. */
  function Merge(n: Note, data: NoteInput, now: Timestamp): (m: Note)
    ensures m.id == n.id && m.isArchived == n.isArchived && m.createdAt == n.createdAt
    ensures m.categories == n.categories && m.updatedAt == now
    ensures m.title == (if data.title.Some? then data.title else n.title)
    ensures m.description == (if data.description.Some? then data.description else n.description)
    ensures m.content == (if data.content.Some? then data.content else n.content)
  {
    n.(title := if data.title.Some? then data.title else n.title,
       description := if data.description.Some? then data.description else n.description,
       content := if data.content.Some? then data.content else n.content,
       updatedAt := now)
  }

  function UpdateStep(id: string, data: NoteInput, now: Timestamp): Note -> Note
  {
    (n: Note) => if n.id == id then Merge(n, data, now) else n
  }

  /** The stored list after `updateNote`: every note with the id merged. */
  function UpdateIn(all: seq<Note>, id: string, data: NoteInput, now: Timestamp): seq<Note>
  {
    Map(all, UpdateStep(id, data, now))
  }

  predicate HasNoteId(id: string, n: Note) { n.id == id }

  function IdTest(id: string): Note -> bool { (n: Note) => HasNoteId(id, n) }

  /** `notes.find(n => n.id === id)`. */
  function FindById(s: seq<Note>, id: string): Option<Note>
  {
    FindFirst(s, IdTest(id))
  }

  /** `prev.map((note) => (note.id === id ? updated : note))`. */
  function ReplaceWith(s: seq<Note>, id: string, updated: Note): seq<Note>
  {
    Map(s, (n: Note) => if n.id == id then updated else n)
  }

  function ArchiveStep(id: string, flag: bool, now: Timestamp): Note -> Note
  {
    (n: Note) => if n.id == id then n.(isArchived := flag, updatedAt := now) else n
  }

  /** The stored list after `archiveNote` (flag true) or `unarchiveNote`
      (flag false). */
  function SetArchived(all: seq<Note>, id: string, flag: bool, now: Timestamp): seq<Note>
  {
    Map(all, ArchiveStep(id, flag, now))
  }

  /** `notes.filter((note) => note.id !== id)`. */
  function WithoutNote(s: seq<Note>, id: string): seq<Note>
  {
    Filter(s, (n: Note) => n.id != id)
  }

  predicate UniqueIds(s: seq<Note>)
  {
    forall i, j :: 0 <= i < j < |s| ==> s[i].id != s[j].id
  }

  /** After an update, looking the id up finds the first note that had it,
      merged with the input, and finds nothing when no note had it. */
  lemma UpdateThenFind(all: seq<Note>, id: string, data: NoteInput, now: Timestamp)
    ensures FindById(UpdateIn(all, id, data, now), id)
            == (if FindById(all, id).Some? then Some(Merge(FindById(all, id).value, data, now)) else None)
  {
    var f := UpdateStep(id, data, now);
    forall x: Note ensures IdTest(id)(f(x)) == IdTest(id)(x) {
    }
    FindFirstMap(all, f, IdTest(id), IdTest(id));
  }

  /** An update never reorders, adds or drops notes, and leaves every note
      with another id as it was. */
  lemma UpdateKeepsOthers(all: seq<Note>, id: string, data: NoteInput, now: Timestamp)
    ensures |UpdateIn(all, id, data, now)| == |all|
    ensures forall i :: 0 <= i < |all| ==> UpdateIn(all, id, data, now)[i].id == all[i].id
    ensures forall i :: 0 <= i < |all| && all[i].id != id ==> UpdateIn(all, id, data, now)[i] == all[i]
  {
  }

  /** When ids are unique, the shown list after an update is exactly the
      stored one: the second pass of `updateNote` changes nothing. */
  lemma UpdatedViewIsStored(all: seq<Note>, id: string, data: NoteInput, now: Timestamp)
    requires UniqueIds(all)
    ensures var u := UpdateIn(all, id, data, now);
            FindById(u, id).Some? ==> ReplaceWith(u, id, FindById(u, id).value) == u
  {
    var u := UpdateIn(all, id, data, now);
    var found := FindById(u, id);
    if found.Some? {
      var r := ReplaceWith(u, id, found.value);
      forall i | 0 <= i < |u| ensures r[i] == u[i] {
        if u[i].id == id {
          var j :| 0 <= j < |u| && u[j] == found.value;
          assert u[j].id == id;
          assert all[i].id == id == all[j].id;
          assert i == j;
        }
      }
    }
  }

  /** Archiving (flag true) or unarchiving (flag false) sets the flag on every
      note with the id, and changes no other note. */
  lemma SetArchivedSpec(all: seq<Note>, id: string, flag: bool, now: Timestamp)
    ensures var u := SetArchived(all, id, flag, now);
            && |u| == |all|
            && (forall n :: n in u && n.id == id ==> n.isArchived == flag)
            && (forall n :: n in all && n.id == id ==> n.(isArchived := flag, updatedAt := now) in u)
            && (forall n: Note :: n.id != id ==> (n in u <==> n in all))
  {
    var u := SetArchived(all, id, flag, now);
    forall n | n in all && n.id == id ensures n.(isArchived := flag, updatedAt := now) in u {
      var i :| 0 <= i < |all| && all[i] == n;
      assert u[i] == n.(isArchived := flag, updatedAt := now);
    }
    forall n: Note | n.id != id ensures n in u <==> n in all {
      if n in u {
        var i :| 0 <= i < |u| && u[i] == n;
        assert all[i].id == n.id;
      }
      if n in all {
        var i :| 0 <= i < |all| && all[i] == n;
        assert u[i] == n;
      }
    }
  }

  /** Archiving takes the note off the active page and puts it on the
      archived one; every other note stays where it was. */
  lemma ArchiveMovesNote(all: seq<Note>, id: string, now: Timestamp)
    ensures var u := SetArchived(all, id, true, now);
            && (forall n :: n in Active(u) ==> n.id != id)
            && (forall n :: n in all && n.id == id ==> n.(isArchived := true, updatedAt := now) in Archived(u))
            && (forall n: Note :: n.id != id ==>
                  ((n in Active(u) <==> n in Active(all)) && (n in Archived(u) <==> n in Archived(all))))
  {
    SetArchivedSpec(all, id, true, now);
  }

  /** Unarchiving is the mirror image. */
  lemma UnarchiveMovesNote(all: seq<Note>, id: string, now: Timestamp)
    ensures var u := SetArchived(all, id, false, now);
            && (forall n :: n in Archived(u) ==> n.id != id)
            && (forall n :: n in all && n.id == id ==> n.(isArchived := false, updatedAt := now) in Active(u))
            && (forall n: Note :: n.id != id ==>
                  ((n in Active(u) <==> n in Active(all)) && (n in Archived(u) <==> n in Archived(all))))
  {
    SetArchivedSpec(all, id, false, now);
  }

  /** A created note heads the active page and never shows on the archived one. */
  lemma CreateHeadsActive(all: seq<Note>, data: NoteInput, newId: string, now: Timestamp)
    ensures Active([NewNote(data, newId, now)] + all) == [NewNote(data, newId, now)] + Active(all)
    ensures Archived([NewNote(data, newId, now)] + all) == Archived(all)
  {
    var n := NewNote(data, newId, now);
    FilterConcat([n], all, IsActiveNote);
    FilterConcat([n], all, IsArchivedNote);
    assert Filter([n], IsActiveNote) == [n] + Filter([n][1..], IsActiveNote);
    assert Filter([n], IsArchivedNote) == Filter([n][1..], IsArchivedNote);
    assert [n][1..] == [];
  }

  /** Deleting leaves no note with the id and keeps the rest in order, so
      deleting twice is deleting once. */
  lemma DeleteSpec(all: seq<Note>, id: string, a: seq<Note>, b: seq<Note>)
    ensures forall n :: n in WithoutNote(all, id) <==> n in all && n.id != id
    ensures WithoutNote(a + b, id) == WithoutNote(a, id) + WithoutNote(b, id)
    ensures WithoutNote(WithoutNote(all, id), id) == WithoutNote(all, id)
  {
    FilterConcat(a, b, (n: Note) => n.id != id);
    FilterIdempotent(all, (n: Note) => n.id != id);
  }

  class NotesMock {
    const storage: Storage
    var notes: seq<Note>
    var loading: bool
    var error: Option<string>

    /** The mount effect shows the whole stored list, archived notes
        included. A stored text that does not parse throws inside the effect
        and leaves the list empty. */
    constructor (storage: Storage)
      ensures this.storage == storage
      ensures notes == (if storage.notes.Stored? then storage.notes.value else [])
      ensures !loading && error == None
    {
      this.storage := storage;
      notes := if storage.notes.Stored? then storage.notes.value else [];
      loading := false;
      error := None;
    }

    /** Shows the stored notes that are not archived; with nothing stored the
        list is kept; a parse failure is recorded and swallowed. */
    method FetchActiveNotes()
      modifies this
      ensures !loading
      ensures storage.notes.Absent? ==> notes == old(notes) && error == None
      ensures storage.notes.Stored? ==>
                notes == Active(storage.notes.value) && error == None
                && forall n :: n in notes ==> !n.isArchived
      ensures storage.notes.Corrupt? ==> notes == old(notes) && error == Some(storage.notes.parseError)
    {
      loading := true;
      error := None;
      match storage.notes {
        case Absent =>
        case Stored(all) => notes := Active(all);
        case Corrupt(m) => error := Some(MessageOf(Error(m), "Failed to fetch notes"));
      }
      loading := false;
    }

    method FetchArchivedNotes()
      modifies this
      ensures !loading
      ensures storage.notes.Absent? ==> notes == old(notes) && error == None
      ensures storage.notes.Stored? ==>
                notes == Archived(storage.notes.value) && error == None
                && forall n :: n in notes ==> n.isArchived
      ensures storage.notes.Corrupt? ==> notes == old(notes) && error == Some(storage.notes.parseError)
    {
      loading := true;
      error := None;
      match storage.notes {
        case Absent =>
        case Stored(all) => notes := Archived(all);
        case Corrupt(m) => error := Some(MessageOf(Error(m), "Failed to fetch archived notes"));
      }
      loading := false;
    }

    /** The new note is stored at the head of the list. The shown list is
        first set to the stored one and then gets the note put at its head
        again, so it shows the new note twice. */
    method CreateNote(data: NoteInput, newId: string, now: Timestamp) returns (r: Result<Note, Thrown>)
      modifies this, storage
      ensures !loading
      ensures storage.categories == old(storage.categories) && storage.token == old(storage.token)
      ensures old(storage.notes).Corrupt? ==>
                && r == Failure(Error(old(storage.notes).parseError))
                && error == Some(old(storage.notes).parseError)
                && storage.notes == old(storage.notes) && notes == old(notes)
      ensures !old(storage.notes).Corrupt? ==>
                var all := ReadAll(old(storage.notes)).value;
                var n := NewNote(data, newId, now);
                && r == Success(n) && error == None
                && storage.notes == Stored([n] + all)
                && notes == [n, n] + all
    {
      loading := true;
      error := None;
      var read := ReadAll(storage.notes);
      if read.Failure? {
        r := Failure(read.error);
        error := Some(MessageOf(read.error, "Failed to create note"));
      } else {
        var newNote := NewNote(data, newId, now);
        var updatedNotes := [newNote] + read.value;
        storage.notes := Stored(updatedNotes);
        notes := updatedNotes;
        notes := [newNote] + notes;
        r := Success(newNote);
      }
      loading := false;
    }

    /** Every stored note with the id is merged with the input; the shown
        list becomes the stored one with each such note replaced by the first
        of them. Returns that note, or nothing when no note has the id. */
    method UpdateNote(id: string, data: NoteInput, now: Timestamp) returns (r: Result<Option<Note>, Thrown>)
      modifies this, storage
      ensures !loading
      ensures storage.categories == old(storage.categories) && storage.token == old(storage.token)
      ensures old(storage.notes).Corrupt? ==>
                && r == Failure(Error(old(storage.notes).parseError))
                && error == Some(old(storage.notes).parseError)
                && storage.notes == old(storage.notes) && notes == old(notes)
      ensures !old(storage.notes).Corrupt? ==>
                var all := ReadAll(old(storage.notes)).value;
                var u := UpdateIn(all, id, data, now);
                && error == None
                && storage.notes == Stored(u)
                && r == Success(if FindById(all, id).Some? then Some(Merge(FindById(all, id).value, data, now)) else None)
                && notes == (if r.value.Some? then ReplaceWith(u, id, r.value.value) else u)
    {
      loading := true;
      error := None;
      var read := ReadAll(storage.notes);
      if read.Failure? {
        r := Failure(read.error);
        error := Some(MessageOf(read.error, "Failed to update note"));
      } else {
        var updatedNotes := UpdateIn(read.value, id, data, now);
        storage.notes := Stored(updatedNotes);
        notes := updatedNotes;
        var updatedNote := FindById(updatedNotes, id);
        UpdateThenFind(read.value, id, data, now);
        if updatedNote.Some? {
          notes := ReplaceWith(notes, id, updatedNote.value);
        }
        r := Success(updatedNote);
      }
      loading := false;
    }

    /** Removes every note with the id from the store; the shown list is the
        stored remainder. */
    method DeleteNote(id: string) returns (r: Result<(), Thrown>)
      modifies this, storage
      ensures !loading
      ensures storage.categories == old(storage.categories) && storage.token == old(storage.token)
      ensures old(storage.notes).Corrupt? ==>
                && r == Failure(Error(old(storage.notes).parseError))
                && error == Some(old(storage.notes).parseError)
                && storage.notes == old(storage.notes) && notes == old(notes)
      ensures !old(storage.notes).Corrupt? ==>
                var all := ReadAll(old(storage.notes)).value;
                && r == Success(()) && error == None
                && storage.notes == Stored(WithoutNote(all, id))
                && notes == WithoutNote(all, id)
    {
      loading := true;
      error := None;
      var read := ReadAll(storage.notes);
      if read.Failure? {
        r := Failure(read.error);
        error := Some(MessageOf(read.error, "Failed to delete note"));
      } else {
        var updatedNotes := WithoutNote(read.value, id);
        storage.notes := Stored(updatedNotes);
        notes := updatedNotes;
        DeleteSpec(read.value, id, [], []);
        notes := WithoutNote(notes, id);
        r := Success(());
      }
      loading := false;
    }

    /** Archives every stored note with the id; the shown list becomes the
        whole stored list, archived notes included, minus that note. */
    method ArchiveNote(id: string, now: Timestamp) returns (r: Result<(), Thrown>)
      modifies this, storage
      ensures !loading
      ensures storage.categories == old(storage.categories) && storage.token == old(storage.token)
      ensures old(storage.notes).Corrupt? ==>
                && r == Failure(Error(old(storage.notes).parseError))
                && error == Some(old(storage.notes).parseError)
                && storage.notes == old(storage.notes) && notes == old(notes)
      ensures !old(storage.notes).Corrupt? ==>
                var u := SetArchived(ReadAll(old(storage.notes)).value, id, true, now);
                && r == Success(()) && error == None
                && storage.notes == Stored(u)
                && notes == WithoutNote(u, id)
    {
      r := SetFlag(id, true, now, "Failed to archive note");
    }

    method UnarchiveNote(id: string, now: Timestamp) returns (r: Result<(), Thrown>)
      modifies this, storage
      ensures !loading
      ensures storage.categories == old(storage.categories) && storage.token == old(storage.token)
      ensures old(storage.notes).Corrupt? ==>
                && r == Failure(Error(old(storage.notes).parseError))
                && error == Some(old(storage.notes).parseError)
                && storage.notes == old(storage.notes) && notes == old(notes)
      ensures !old(storage.notes).Corrupt? ==>
                var u := SetArchived(ReadAll(old(storage.notes)).value, id, false, now);
                && r == Success(()) && error == None
                && storage.notes == Stored(u)
                && notes == WithoutNote(u, id)
    {
      r := SetFlag(id, false, now, "Failed to unarchive note");
    }

    /** The body `archiveNote` and `unarchiveNote` share. */
    method SetFlag(id: string, flag: bool, now: Timestamp, fallback: string) returns (r: Result<(), Thrown>)
      modifies this, storage
      ensures !loading
      ensures storage.categories == old(storage.categories) && storage.token == old(storage.token)
      ensures old(storage.notes).Corrupt? ==>
                && r == Failure(Error(old(storage.notes).parseError))
                && error == Some(old(storage.notes).parseError)
                && storage.notes == old(storage.notes) && notes == old(notes)
      ensures !old(storage.notes).Corrupt? ==>
                var u := SetArchived(ReadAll(old(storage.notes)).value, id, flag, now);
                && r == Success(()) && error == None
                && storage.notes == Stored(u)
                && notes == WithoutNote(u, id)
    {
      loading := true;
      error := None;
      var read := ReadAll(storage.notes);
      if read.Failure? {
        r := Failure(read.error);
        error := Some(MessageOf(read.error, fallback));
      } else {
        var updatedNotes := SetArchived(read.value, id, flag, now);
        storage.notes := Stored(updatedNotes);
        notes := updatedNotes;
        notes := WithoutNote(notes, id);
        r := Success(());
      }
      loading := false;
    }
  }
}
