/** src/app/infrastructure/http/NotesService.ts: one request per operation,
    then the unwrapping of the response envelope. The API may answer with the
    bare payload or with `{statusCode, message, data}`. Nothing is caught, so
    a failure of the request reaches the caller unchanged. */
module NotesService {
  import opened Wrappers
  import opened JsValues
  import opened Backend

  function CreateNoteRequest(payload: JsValue, token: string): Request
  {
    Request(Post, BaseUrl + "/notes", Some(payload), token)
  }

  function ActiveNotesRequest(token: string): Request
  {
    Request(Get, BaseUrl + "/notes/active", None, token)
  }

  function ArchivedNotesRequest(token: string): Request
  {
    Request(Get, BaseUrl + "/notes/archived", None, token)
  }

  function UpdateNoteRequest(id: string, payload: JsValue, token: string): Request
  {
    Request(Put, BaseUrl + "/notes/" + id, Some(payload), token)
  }

  /** archive and unarchive send an empty object as their body. */
  function ArchiveNoteRequest(id: string, token: string): Request
  {
    Request(Post, BaseUrl + "/notes/" + id + "/archive", Some(Obj(map[])), token)
  }

  function UnarchiveNoteRequest(id: string, token: string): Request
  {
    Request(Post, BaseUrl + "/notes/" + id + "/unarchive", Some(Obj(map[])), token)
  }

  function DeleteNoteRequest(id: string, token: string): Request
  {
    Request(Delete, BaseUrl + "/notes/" + id, None, token)
  }

  /** The `{statusCode, message, data}` envelope around a payload. */
  function Envelope(payload: JsValue): JsValue
  {
    Obj(map["statusCode" := Num(200), "message" := Str("Success"), "data" := payload])
  }

  /** `response.data || response`. */
  function UnwrapEntity(response: JsValue): (r: Result<JsValue, Thrown>)
    ensures r.Failure? <==> response.Undefined? || response.Null?
    ensures r.Success? && response.Obj? && "data" in response.fields && Truthy(response.fields["data"]) ==>
              r.value == response.fields["data"]
    ensures r.Success? && !(response.Obj? && "data" in response.fields && Truthy(response.fields["data"])) ==>
              r.value == response
  {
    match Prop(response, "data")
    case Failure(e) => Failure(e)
    case Success(d) => Success(if Truthy(d) then d else response)
  }

  /** createNote's decoding: unwrap, then insist on a truthy `id`. */
  function DecodeCreated(response: JsValue): (r: Result<JsValue, Thrown>)
    ensures r.Success? ==> UnwrapEntity(response) == r && Truthy(OptProp(r.value, "id"))
    ensures UnwrapEntity(response).Success? && !Truthy(OptProp(UnwrapEntity(response).value, "id")) ==>
              r == Failure(Error("Created note has no ID"))
    ensures UnwrapEntity(response).Success? && Truthy(OptProp(UnwrapEntity(response).value, "id")) ==>
              r == UnwrapEntity(response)
    ensures UnwrapEntity(response).Failure? ==> r == UnwrapEntity(response)
  {
    match UnwrapEntity(response)
    case Failure(e) => Failure(e)
    case Success(note) =>
      match Prop(note, "id")
      case Failure(e) => Failure(e)
      case Success(id) => if Truthy(id) then Success(note) else Failure(Error("Created note has no ID"))
  }

  /** getActiveNotes / getArchivedNotes: `Array.isArray(response) ? response : (response.data || [])`. */
  function DecodeList(response: JsValue): (r: Result<JsValue, Thrown>)
    ensures response.Arr? ==> r == Success(response)
    ensures response.Undefined? || response.Null? ==> r.Failure?
    ensures response.Obj? ==>
              && r.Success?
              && r.value == (if "data" in response.fields && Truthy(response.fields["data"])
                             then response.fields["data"] else Arr([]))
  {
    if response.Arr? then Success(response)
    else match Prop(response, "data")
      case Failure(e) => Failure(e)
      case Success(d) => Success(if Truthy(d) then d else Arr([]))
  }

  /** A note object carries a truthy `id` and is not itself an envelope. */
  predicate IsNoteObject(n: JsValue)
  {
    n.Obj? && "id" in n.fields && Truthy(n.fields["id"]) && "data" !in n.fields
  }

  /** A note comes back the same whether the API wraps it or not. */
  lemma {:induction false} DecodeCreatedRoundTrip(n: JsValue)
    requires IsNoteObject(n)
    ensures DecodeCreated(n) == Success(n)
    ensures DecodeCreated(Envelope(n)) == Success(n)
    ensures UnwrapEntity(n) == Success(n) && UnwrapEntity(Envelope(n)) == Success(n)
  {
    assert Envelope(n).fields["data"] == n;
  }

  /** A list comes back the same whether the API wraps it or not, and an
      envelope whose `data` is missing or falsy reads as the empty list. */
  lemma {:induction false} DecodeListRoundTrip(xs: seq<JsValue>, other: map<string, JsValue>)
    requires "data" !in other
    ensures DecodeList(Arr(xs)) == Success(Arr(xs))
    ensures DecodeList(Envelope(Arr(xs))) == Success(Arr(xs))
    ensures DecodeList(Obj(other)) == Success(Arr([]))
    ensures DecodeList(Envelope(Null)) == Success(Arr([]))
  {
    assert Envelope(Arr(xs)).fields["data"] == Arr(xs);
    assert Envelope(Null).fields["data"] == Null;
  }

  /** An envelope whose `data` lacks an id is refused, even if the envelope itself has one. */
  lemma {:induction false} CreatedWithoutIdRefused(fields: map<string, JsValue>)
    requires "id" !in fields
    ensures DecodeCreated(Envelope(Obj(fields))) == Failure(Error("Created note has no ID"))
  {
    assert Envelope(Obj(fields)).fields["data"] == Obj(fields);
  }

  /** What a caller of each operation receives, given the server's reply:
      a failed request is passed on untouched, a successful one is decoded. */
  function CreateNoteOutcome(reply: Result<JsValue, Thrown>): (r: Result<JsValue, Thrown>)
    ensures reply.Failure? ==> r == reply
    ensures reply.Success? ==> r == DecodeCreated(reply.value)
  {
    if reply.Failure? then Failure(reply.error) else DecodeCreated(reply.value)
  }

  function ListOutcome(reply: Result<JsValue, Thrown>): (r: Result<JsValue, Thrown>)
    ensures reply.Failure? ==> r == reply
    ensures reply.Success? ==> r == DecodeList(reply.value)
  {
    if reply.Failure? then Failure(reply.error) else DecodeList(reply.value)
  }

  function UpdateNoteOutcome(reply: Result<JsValue, Thrown>): (r: Result<JsValue, Thrown>)
    ensures reply.Failure? ==> r == reply
    ensures reply.Success? ==> r == UnwrapEntity(reply.value)
  {
    if reply.Failure? then Failure(reply.error) else UnwrapEntity(reply.value)
  }

  /** archive, unarchive and delete discard the response body. */
  function VoidOutcome(reply: Result<JsValue, Thrown>): (r: Result<(), Thrown>)
    ensures r.Success? <==> reply.Success?
    ensures reply.Failure? ==> r == Failure(reply.error)
  {
    if reply.Failure? then Failure(reply.error) else Success(())
  }

  method CreateNote(server: Server, payload: JsValue, token: string) returns (r: Result<JsValue, Thrown>)
    modifies server
    ensures server.log == old(server.log) + [CreateNoteRequest(payload, token)]
    ensures r == CreateNoteOutcome(server.reply(old(server.log), CreateNoteRequest(payload, token)))
  {
    var response := server.Send(CreateNoteRequest(payload, token));
    r := CreateNoteOutcome(response);
  }

  method GetActiveNotes(server: Server, token: string) returns (r: Result<JsValue, Thrown>)
    modifies server
    ensures server.log == old(server.log) + [ActiveNotesRequest(token)]
    ensures r == ListOutcome(server.reply(old(server.log), ActiveNotesRequest(token)))
  {
    var response := server.Send(ActiveNotesRequest(token));
    r := ListOutcome(response);
  }

  method GetArchivedNotes(server: Server, token: string) returns (r: Result<JsValue, Thrown>)
    modifies server
    ensures server.log == old(server.log) + [ArchivedNotesRequest(token)]
    ensures r == ListOutcome(server.reply(old(server.log), ArchivedNotesRequest(token)))
  {
    var response := server.Send(ArchivedNotesRequest(token));
    r := ListOutcome(response);
  }

  method UpdateNote(server: Server, id: string, payload: JsValue, token: string) returns (r: Result<JsValue, Thrown>)
    modifies server
    ensures server.log == old(server.log) + [UpdateNoteRequest(id, payload, token)]
    ensures r == UpdateNoteOutcome(server.reply(old(server.log), UpdateNoteRequest(id, payload, token)))
  {
    var response := server.Send(UpdateNoteRequest(id, payload, token));
    r := UpdateNoteOutcome(response);
  }

  method ArchiveNote(server: Server, id: string, token: string) returns (r: Result<(), Thrown>)
    modifies server
    ensures server.log == old(server.log) + [ArchiveNoteRequest(id, token)]
    ensures r == VoidOutcome(server.reply(old(server.log), ArchiveNoteRequest(id, token)))
  {
    var response := server.Send(ArchiveNoteRequest(id, token));
    r := VoidOutcome(response);
  }

  method UnarchiveNote(server: Server, id: string, token: string) returns (r: Result<(), Thrown>)
    modifies server
    ensures server.log == old(server.log) + [UnarchiveNoteRequest(id, token)]
    ensures r == VoidOutcome(server.reply(old(server.log), UnarchiveNoteRequest(id, token)))
  {
    var response := server.Send(UnarchiveNoteRequest(id, token));
    r := VoidOutcome(response);
  }

  method DeleteNote(server: Server, id: string, token: string) returns (r: Result<(), Thrown>)
    modifies server
    ensures server.log == old(server.log) + [DeleteNoteRequest(id, token)]
    ensures r == VoidOutcome(server.reply(old(server.log), DeleteNoteRequest(id, token)))
  {
    var response := server.Send(DeleteNoteRequest(id, token));
    r := VoidOutcome(response);
  }
}
