/** src/hooks/useNotes.ts: the notes shown by the page, with `loading` and
    `error`, kept up to date by seven operations. Each operation clears the
    error, checks for a token, calls NotesService, edits the list on
    success, records the message on failure, and resets `loading` in its
    `finally`. Fetches swallow their failure; mutations rethrow it (returned
    here as `Failure`). The list holds whatever the service returned. */
module UseNotes {
  import opened Wrappers
  import opened JsValues
  import opened Lists
  import opened Backend
  import NotesService
  import opened AuthContext

  const NoTokenMessage: string := "No auth token"

  /** `note.id === id`. */
  predicate HasId(item: JsValue, id: string)
  {
    item.Obj? && "id" in item.fields && item.fields["id"] == Str(id)
  }

  /** The elements of the list, or none when it is not an array
      (`Array.isArray(prev) ? prev : []`). */
  function Items(list: JsValue): seq<JsValue>
  {
    if list.Arr? then list.items else []
  }

  /** `prev.filter((note) => note.id !== id)`. */
  function WithoutId(items: seq<JsValue>, id: string): seq<JsValue>
  {
    Filter(items, (item: JsValue) => !HasId(item, id))
  }

  /** `prev.map((note) => (note.id === id ? updated : note))`. */
  function ReplaceId(items: seq<JsValue>, id: string, updated: JsValue): (r: seq<JsValue>)
    ensures |r| == |items|
    ensures forall i :: 0 <= i < |items| ==> r[i] == (if HasId(items[i], id) then updated else items[i])
  {
    seq(|items|, i requires 0 <= i < |items| => if HasId(items[i], id) then updated else items[i])
  }

  /** Removing an id leaves no element with it, keeps every other element,
      and keeps the survivors in order, so removing twice is removing once. */
  lemma WithoutIdSpec(items: seq<JsValue>, id: string, a: seq<JsValue>, b: seq<JsValue>)
    ensures forall x :: x in WithoutId(items, id) <==> x in items && !HasId(x, id)
    ensures WithoutId(a + b, id) == WithoutId(a, id) + WithoutId(b, id)
    ensures WithoutId(WithoutId(items, id), id) == WithoutId(items, id)
  {
    FilterConcat(a, b, (item: JsValue) => !HasId(item, id));
    FilterIdempotent(items, (item: JsValue) => !HasId(item, id));
  }

  /** Removing an id drops every entry with it and keeps every other entry
      as often as it occurred. */
  lemma WithoutIdCounts(items: seq<JsValue>, id: string, x: JsValue)
    ensures multiset(WithoutId(items, id))[x] == (if HasId(x, id) then 0 else multiset(items)[x])
  {
    FilterCounts(items, (item: JsValue) => !HasId(item, id), x);
  }

  /** Replacing by id changes nothing when no element has that id, and
      replacing twice with the same note is replacing once. */
  lemma ReplaceIdSpec(items: seq<JsValue>, id: string, updated: JsValue)
    ensures (forall i :: 0 <= i < |items| ==> !HasId(items[i], id)) ==> ReplaceId(items, id, updated) == items
    ensures ReplaceId(ReplaceId(items, id, updated), id, updated) == ReplaceId(items, id, updated)
  {
  }

  class NotesHook {
    const auth: AuthProvider
    const server: Server
    var notes: JsValue
    var loading: bool
    var error: Option<string>

    constructor (auth: AuthProvider, server: Server)
      ensures this.auth == auth && this.server == server
      ensures notes == Arr([]) && !loading && error == None
    {
      this.auth := auth;
      this.server := server;
      notes := Arr([]);
      loading := false;
      error := None;
    }

    /** The bearer token, when `!token` does not hold. */
    function Token(): Option<string>
      reads this, auth
    {
      if TruthyString(auth.token) then auth.token else None
    }

    method FetchActiveNotes()
      modifies this, server
      ensures !loading
      ensures Token().None? ==>
                error == Some(NoTokenMessage) && notes == old(notes) && server.log == old(server.log)
      ensures Token().Some? ==>
                var req := NotesService.ActiveNotesRequest(Token().value);
                var res := NotesService.ListOutcome(server.reply(old(server.log), req));
                && server.log == old(server.log) + [req]
                && (res.Success? ==> notes == res.value && error == None)
                && (res.Failure? ==> notes == old(notes) && error == Some(MessageOf(res.error, "Failed to fetch notes")))
    {
      loading := true;
      error := None;
      if Token().None? {
        error := Some(MessageOf(Error(NoTokenMessage), "Failed to fetch notes"));
      } else {
        var res := NotesService.GetActiveNotes(server, Token().value);
        match res
        case Success(list) => notes := list;
        case Failure(e) => error := Some(MessageOf(e, "Failed to fetch notes"));
      }
      loading := false;
    }

    method FetchArchivedNotes()
      modifies this, server
      ensures !loading
      ensures Token().None? ==>
                error == Some(NoTokenMessage) && notes == old(notes) && server.log == old(server.log)
      ensures Token().Some? ==>
                var req := NotesService.ArchivedNotesRequest(Token().value);
                var res := NotesService.ListOutcome(server.reply(old(server.log), req));
                && server.log == old(server.log) + [req]
                && (res.Success? ==> notes == res.value && error == None)
                && (res.Failure? ==> notes == old(notes) && error == Some(MessageOf(res.error, "Failed to fetch archived notes")))
    {
      loading := true;
      error := None;
      if Token().None? {
        error := Some(MessageOf(Error(NoTokenMessage), "Failed to fetch archived notes"));
      } else {
        var res := NotesService.GetArchivedNotes(server, Token().value);
        match res
        case Success(list) => notes := list;
        case Failure(e) => error := Some(MessageOf(e, "Failed to fetch archived notes"));
      }
      loading := false;
    }

    /** On success the new note goes to the head of the list. */
    method CreateNote(payload: JsValue) returns (r: Result<JsValue, Thrown>)
      modifies this, server
      ensures !loading
      ensures Token().None? ==>
                r == Failure(Error(NoTokenMessage)) && error == Some(NoTokenMessage)
                && notes == old(notes) && server.log == old(server.log)
      ensures Token().Some? ==>
                var req := NotesService.CreateNoteRequest(payload, Token().value);
                && server.log == old(server.log) + [req]
                && r == NotesService.CreateNoteOutcome(server.reply(old(server.log), req))
                && (r.Success? ==> notes == Arr([r.value] + Items(old(notes))) && error == None)
                && (r.Failure? ==> notes == old(notes) && error == Some(MessageOf(r.error, "Failed to create note")))
    {
      loading := true;
      error := None;
      if Token().None? {
        r := Failure(Error(NoTokenMessage));
        error := Some(MessageOf(r.error, "Failed to create note"));
      } else {
        r := NotesService.CreateNote(server, payload, Token().value);
        match r
        case Success(note) => notes := Arr([note] + Items(notes));
        case Failure(e) => error := Some(MessageOf(e, "Failed to create note"));
      }
      loading := false;
    }

    /** On success every entry with the id is replaced by the returned note. */
    method UpdateNote(id: string, payload: JsValue) returns (r: Result<JsValue, Thrown>)
      modifies this, server
      ensures !loading
      ensures Token().None? ==>
                r == Failure(Error(NoTokenMessage)) && error == Some(NoTokenMessage)
                && notes == old(notes) && server.log == old(server.log)
      ensures Token().Some? ==>
                var req := NotesService.UpdateNoteRequest(id, payload, Token().value);
                && server.log == old(server.log) + [req]
                && r == NotesService.UpdateNoteOutcome(server.reply(old(server.log), req))
                && (r.Success? ==> (error == None &&
                      notes == (if old(notes).Arr? then Arr(ReplaceId(old(notes).items, id, r.value)) else old(notes))))
                && (r.Failure? ==> notes == old(notes) && error == Some(MessageOf(r.error, "Failed to update note")))
    {
      loading := true;
      error := None;
      if Token().None? {
        r := Failure(Error(NoTokenMessage));
        error := Some(MessageOf(r.error, "Failed to update note"));
      } else {
        r := NotesService.UpdateNote(server, id, payload, Token().value);
        match r
        case Success(note) =>
          if notes.Arr? {
            notes := Arr(ReplaceId(notes.items, id, note));
          }
        case Failure(e) => error := Some(MessageOf(e, "Failed to update note"));
      }
      loading := false;
    }

    /** On success every entry with the id leaves the list; the rest keep their order. */
    method DeleteNote(id: string) returns (r: Result<(), Thrown>)
      modifies this, server
      ensures !loading
      ensures Token().None? ==>
                r == Failure(Error(NoTokenMessage)) && error == Some(NoTokenMessage)
                && notes == old(notes) && server.log == old(server.log)
      ensures Token().Some? ==>
                var req := NotesService.DeleteNoteRequest(id, Token().value);
                && server.log == old(server.log) + [req]
                && r == NotesService.VoidOutcome(server.reply(old(server.log), req))
                && (r.Success? ==> (error == None &&
                      notes == (if old(notes).Arr? then Arr(WithoutId(old(notes).items, id)) else old(notes))))
                && (r.Failure? ==> notes == old(notes) && error == Some(MessageOf(r.error, "Failed to delete note")))
    {
      loading := true;
      error := None;
      if Token().None? {
        r := Failure(Error(NoTokenMessage));
        error := Some(MessageOf(r.error, "Failed to delete note"));
      } else {
        r := NotesService.DeleteNote(server, id, Token().value);
        match r
        case Success(_) =>
          if notes.Arr? {
            notes := Arr(WithoutId(notes.items, id));
          }
        case Failure(e) => error := Some(MessageOf(e, "Failed to delete note"));
      }
      loading := false;
    }

    /** On success every entry with the id leaves the list; the rest keep their order. */
    method ArchiveNote(id: string) returns (r: Result<(), Thrown>)
      modifies this, server
      ensures !loading
      ensures Token().None? ==>
                r == Failure(Error(NoTokenMessage)) && error == Some(NoTokenMessage)
                && notes == old(notes) && server.log == old(server.log)
      ensures Token().Some? ==>
                var req := NotesService.ArchiveNoteRequest(id, Token().value);
                && server.log == old(server.log) + [req]
                && r == NotesService.VoidOutcome(server.reply(old(server.log), req))
                && (r.Success? ==> (error == None &&
                      notes == (if old(notes).Arr? then Arr(WithoutId(old(notes).items, id)) else old(notes))))
                && (r.Failure? ==> notes == old(notes) && error == Some(MessageOf(r.error, "Failed to archive note")))
    {
      loading := true;
      error := None;
      if Token().None? {
        r := Failure(Error(NoTokenMessage));
        error := Some(MessageOf(r.error, "Failed to archive note"));
      } else {
        r := NotesService.ArchiveNote(server, id, Token().value);
        match r
        case Success(_) =>
          if notes.Arr? {
            notes := Arr(WithoutId(notes.items, id));
          }
        case Failure(e) => error := Some(MessageOf(e, "Failed to archive note"));
      }
      loading := false;
    }

    /** On success every entry with the id leaves the list; the rest keep their order. */
    method UnarchiveNote(id: string) returns (r: Result<(), Thrown>)
      modifies this, server
      ensures !loading
      ensures Token().None? ==>
                r == Failure(Error(NoTokenMessage)) && error == Some(NoTokenMessage)
                && notes == old(notes) && server.log == old(server.log)
      ensures Token().Some? ==>
                var req := NotesService.UnarchiveNoteRequest(id, Token().value);
                && server.log == old(server.log) + [req]
                && r == NotesService.VoidOutcome(server.reply(old(server.log), req))
                && (r.Success? ==> (error == None &&
                      notes == (if old(notes).Arr? then Arr(WithoutId(old(notes).items, id)) else old(notes))))
                && (r.Failure? ==> notes == old(notes) && error == Some(MessageOf(r.error, "Failed to unarchive note")))
    {
      loading := true;
      error := None;
      if Token().None? {
        r := Failure(Error(NoTokenMessage));
        error := Some(MessageOf(r.error, "Failed to unarchive note"));
      } else {
        r := NotesService.UnarchiveNote(server, id, Token().value);
        match r
        case Success(_) =>
          if notes.Arr? {
            notes := Arr(WithoutId(notes.items, id));
          }
        case Failure(e) => error := Some(MessageOf(e, "Failed to unarchive note"));
      }
      loading := false;
    }
  }
}
