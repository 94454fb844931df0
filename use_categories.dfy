/** src/hooks/useCategories.ts: the user's categories with `loading` and
    `error`. Only `fetchCategories` writes the list; creating a category
    inserts nothing locally and refetches instead; the note operations
    leave the list alone. CategoriesService's requests are sent to the same
    server oracle as NotesService's. */
module UseCategories {
  import opened Wrappers
  import opened JsValues
  import opened Backend
  import opened AuthContext

  const NoTokenMessage: string := "No auth token"

  function CategoriesRequest(token: string): Request
  {
    Request(Get, BaseUrl + "/categories", None, token)
  }

  function CreateCategoryRequest(name: string, color: string, token: string): Request
  {
    Request(Post, BaseUrl + "/categories", Some(Obj(map["name" := Str(name), "color" := Str(color)])), token)
  }

  function AddCategoryRequest(noteId: string, categoryId: string, token: string): Request
  {
    Request(Post, BaseUrl + "/categories/" + noteId + "/add/" + categoryId, None, token)
  }

  function RemoveCategoryRequest(noteId: string, categoryId: string, token: string): Request
  {
    Request(Delete, BaseUrl + "/categories/" + noteId + "/remove/" + categoryId, None, token)
  }

  function FilterByCategoryRequest(categoryId: string, token: string): Request
  {
    Request(Get, BaseUrl + "/categories/filter/" + categoryId, None, token)
  }

  /** The four places the categories may sit in a response, in the order
      the hook tries them. */
  function AtDataCategories(result: JsValue): JsValue { OptProp(OptProp(result, "data"), "categories") }
  function AtCategories(result: JsValue): JsValue { OptProp(result, "categories") }
  function AtData(result: JsValue): JsValue { OptProp(result, "data") }

  /** The shape sniffing of `fetchCategories`: the first of a bare array,
      `data.categories`, `categories` and `data` that is an array, else
      nothing. Truthiness is tested first in the source; every array is
      truthy, so only "is an array" decides. */
  function ExtractCategories(result: JsValue): (r: seq<JsValue>)
    ensures result.Arr? ==> r == result.items
    ensures !result.Arr? && AtDataCategories(result).Arr? ==> r == AtDataCategories(result).items
    ensures !result.Arr? && !AtDataCategories(result).Arr? && AtCategories(result).Arr? ==>
              r == AtCategories(result).items
    ensures (!result.Arr? && !AtDataCategories(result).Arr? && !AtCategories(result).Arr?
             && AtData(result).Arr?) ==> r == AtData(result).items
    ensures (!result.Arr? && !AtDataCategories(result).Arr? && !AtCategories(result).Arr?
             && !AtData(result).Arr?) ==> r == []
  {
    if result.Arr? then result.items
    else if Truthy(AtDataCategories(result)) && AtDataCategories(result).Arr? then AtDataCategories(result).items
    else if Truthy(AtCategories(result)) && AtCategories(result).Arr? then AtCategories(result).items
    else if Truthy(AtData(result)) && AtData(result).Arr? then AtData(result).items
    else []
  }

  /** Each of the four shapes the backend may use gives back the list it
      carries; a value of any other shape yields the empty list. */
  lemma {:induction false} ExtractRoundTrip(xs: seq<JsValue>)
    ensures ExtractCategories(Arr(xs)) == xs
    ensures ExtractCategories(Obj(map["data" := Obj(map["categories" := Arr(xs)])])) == xs
    ensures ExtractCategories(Obj(map["categories" := Arr(xs)])) == xs
    ensures ExtractCategories(Obj(map["data" := Arr(xs)])) == xs
    ensures ExtractCategories(Null) == [] && ExtractCategories(Str("categories")) == []
  {
    var inner := Obj(map["categories" := Arr(xs)]);
    assert AtDataCategories(Obj(map["data" := inner])) == Arr(xs) by {
      assert OptProp(Obj(map["data" := inner]), "data") == inner;
    }
    assert AtCategories(inner) == Arr(xs);
    assert AtDataCategories(Obj(map["data" := Arr(xs)])) == Undefined;
    assert AtCategories(Obj(map["data" := Arr(xs)])) == Undefined;
  }

  /** `data.categories` wins over a top-level `categories`, which wins over `data`. */
  lemma {:induction false} ExtractPriority(xs: seq<JsValue>, ys: seq<JsValue>)
    ensures ExtractCategories(Obj(map["data" := Obj(map["categories" := Arr(xs)]), "categories" := Arr(ys)])) == xs
    ensures ExtractCategories(Obj(map["data" := Arr(xs), "categories" := Arr(ys)])) == ys
  {
    var inner := Obj(map["categories" := Arr(xs)]);
    var both := Obj(map["data" := inner, "categories" := Arr(ys)]);
    assert OptProp(both, "data") == inner;
    assert AtDataCategories(both) == Arr(xs);
    var flat := Obj(map["data" := Arr(xs), "categories" := Arr(ys)]);
    assert AtDataCategories(flat) == Undefined;
    assert AtCategories(flat) == Arr(ys);
  }

  class CategoriesHook {
    const auth: AuthProvider
    const server: Server
    var categories: seq<JsValue>
    var loading: bool
    var error: Option<string>

    constructor (auth: AuthProvider, server: Server)
      ensures this.auth == auth && this.server == server
      ensures categories == [] && !loading && error == None
    {
      this.auth := auth;
      this.server := server;
      categories := [];
      loading := false;
      error := None;
    }

    function Token(): Option<string>
      reads this, auth
    {
      if TruthyString(auth.token) then auth.token else None
    }

    /** Without a token nothing at all happens; otherwise the list is
        replaced by what the response carries, or kept when the request
        fails, and the failure is not rethrown. The mount effect runs this
        whenever a token is present. */
    method FetchCategories()
      modifies this, server
      ensures Token().None? ==>
                categories == old(categories) && loading == old(loading) && error == old(error)
                && server.log == old(server.log)
      ensures Token().Some? ==>
                var req := CategoriesRequest(Token().value);
                var res := server.reply(old(server.log), req);
                && server.log == old(server.log) + [req]
                && !loading
                && (res.Success? ==> categories == ExtractCategories(res.value) && error == None)
                && (res.Failure? ==> categories == old(categories)
                                     && error == Some(MessageOf(res.error, "Failed to fetch categories")))
    {
      if Token().None? {
        return;
      }
      loading := true;
      error := None;
      var res := server.Send(CategoriesRequest(Token().value));
      match res {
        case Success(result) => categories := ExtractCategories(result);
        case Failure(e) => error := Some(MessageOf(e, "Failed to fetch categories"));
      }
      loading := false;
    }

    /** Never inserts locally: a created category shows up only through the
        refetch that follows, whose own failure is recorded but not rethrown. */
    method CreateCategory(name: string, color: string) returns (r: Result<(), Thrown>)
      modifies this, server
      ensures !loading
      ensures Token().None? ==>
                r == Failure(Error(NoTokenMessage)) && error == Some(NoTokenMessage)
                && categories == old(categories) && server.log == old(server.log)
      ensures Token().Some? ==>
                var create := CreateCategoryRequest(name, color, Token().value);
                var created := server.reply(old(server.log), create);
                && (created.Failure? ==>
                      && r == Failure(created.error)
                      && server.log == old(server.log) + [create]
                      && categories == old(categories)
                      && error == Some(MessageOf(created.error, "Failed to create category")))
                && (created.Success? ==>
                      var refetch := CategoriesRequest(Token().value);
                      var res := server.reply(old(server.log) + [create], refetch);
                      && r == Success(())
                      && server.log == old(server.log) + [create, refetch]
                      && (res.Success? ==> categories == ExtractCategories(res.value) && error == None)
                      && (res.Failure? ==> categories == old(categories)
                                           && error == Some(MessageOf(res.error, "Failed to fetch categories"))))
    {
      loading := true;
      error := None;
      if Token().None? {
        r := Failure(Error(NoTokenMessage));
        error := Some(MessageOf(r.error, "Failed to create category"));
      } else {
        var created := server.Send(CreateCategoryRequest(name, color, Token().value));
        match created {
          case Failure(e) =>
            r := Failure(e);
            error := Some(MessageOf(e, "Failed to create category"));
          case Success(_) =>
            FetchCategories();
            r := Success(());
        }
      }
      loading := false;
    }

    /** Returns the service's answer; the list of categories is not touched. */
    method AddCategoryToNote(noteId: string, categoryId: string) returns (r: Result<JsValue, Thrown>)
      modifies this, server
      ensures !loading && categories == old(categories)
      ensures Token().None? ==>
                r == Failure(Error(NoTokenMessage)) && error == Some(NoTokenMessage) && server.log == old(server.log)
      ensures Token().Some? ==>
                var req := AddCategoryRequest(noteId, categoryId, Token().value);
                && server.log == old(server.log) + [req]
                && r == server.reply(old(server.log), req)
                && (r.Success? ==> error == None)
                && (r.Failure? ==> error == Some(MessageOf(r.error, "Failed to add category to note")))
    {
      loading := true;
      error := None;
      if Token().None? {
        r := Failure(Error(NoTokenMessage));
        error := Some(MessageOf(r.error, "Failed to add category to note"));
      } else {
        r := server.Send(AddCategoryRequest(noteId, categoryId, Token().value));
        if r.Failure? {
          error := Some(MessageOf(r.error, "Failed to add category to note"));
        }
      }
      loading := false;
    }

    method RemoveCategoryFromNote(noteId: string, categoryId: string) returns (r: Result<(), Thrown>)
      modifies this, server
      ensures !loading && categories == old(categories)
      ensures Token().None? ==>
                r == Failure(Error(NoTokenMessage)) && error == Some(NoTokenMessage) && server.log == old(server.log)
      ensures Token().Some? ==>
                var req := RemoveCategoryRequest(noteId, categoryId, Token().value);
                var res := server.reply(old(server.log), req);
                && server.log == old(server.log) + [req]
                && (res.Success? ==> r == Success(()) && error == None)
                && (res.Failure? ==> r == Failure(res.error)
                                     && error == Some(MessageOf(res.error, "Failed to remove category from note")))
    {
      loading := true;
      error := None;
      if Token().None? {
        r := Failure(Error(NoTokenMessage));
        error := Some(MessageOf(r.error, "Failed to remove category from note"));
      } else {
        var res := server.Send(RemoveCategoryRequest(noteId, categoryId, Token().value));
        match res {
          case Success(_) => r := Success(());
          case Failure(e) =>
            r := Failure(e);
            error := Some(MessageOf(e, "Failed to remove category from note"));
        }
      }
      loading := false;
    }

    /** A pure query: the service's notes come back unchanged and the
        categories are not touched. */
    method FilterNotesByCategory(categoryId: string) returns (r: Result<JsValue, Thrown>)
      modifies this, server
      ensures !loading && categories == old(categories)
      ensures Token().None? ==>
                r == Failure(Error(NoTokenMessage)) && error == Some(NoTokenMessage) && server.log == old(server.log)
      ensures Token().Some? ==>
                var req := FilterByCategoryRequest(categoryId, Token().value);
                && server.log == old(server.log) + [req]
                && r == server.reply(old(server.log), req)
                && (r.Success? ==> error == None)
                && (r.Failure? ==> error == Some(MessageOf(r.error, "Failed to filter notes by category")))
    {
      loading := true;
      error := None;
      if Token().None? {
        r := Failure(Error(NoTokenMessage));
        error := Some(MessageOf(r.error, "Failed to filter notes by category"));
      } else {
        r := server.Send(FilterByCategoryRequest(categoryId, Token().value));
        if r.Failure? {
          error := Some(MessageOf(r.error, "Failed to filter notes by category"));
        }
      }
      loading := false;
    }
  }
}
