/** The remote API as the client sees it: each request either yields the
    parsed JSON body or throws. The server is an oracle: `reply` gives its
    answer to a request, given every request sent before it, and `log`
    records what was sent. HttpClient's transport (fetch, headers, the 401
    handling) and CategoriesService's `fetch` calls both reduce to `Send`. */
module Backend {
  import opened Wrappers
  import opened JsValues

  const BaseUrl: string := "https://notes-back-a53g.onrender.com"

  datatype Verb = Get | Post | Put | Delete

  datatype Request = Request(verb: Verb, url: string, body: Option<JsValue>, token: string)

  class Server {
    var log: seq<Request>
    const reply: (seq<Request>, Request) -> Result<JsValue, Thrown>

    constructor (reply: (seq<Request>, Request) -> Result<JsValue, Thrown>)
      ensures log == [] && this.reply == reply
    {
      log := [];
      this.reply := reply;
    }

    method Send(req: Request) returns (r: Result<JsValue, Thrown>)
      modifies this
      ensures log == old(log) + [req]
      ensures r == reply(old(log), req)
    {
      r := reply(log, req);
      log := log + [req];
    }
  }
}
