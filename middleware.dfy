/** middleware.ts: the route guard Next.js runs before '/notes/...',
    '/login' and '/register'. It only ever sends a visitor who already
    holds a token away from the sign-in pages; it never blocks a page. */
module Middleware {
  import opened Wrappers
  import opened JsValues
  import opened JsStrings

  datatype Decision = Next | Redirect(target: string)

  const NotesPath: string := "/notes"

  /** `protectedRoutes.some(route => pathname.startsWith(route))`: a plain
      prefix test, so '/notes-old' counts too. */
  predicate IsProtected(pathname: string)
  {
    StartsWith(pathname, NotesPath)
  }

  predicate IsPublic(pathname: string)
  {
    StartsWith(pathname, "/login") || StartsWith(pathname, "/register")
  }

  /** `token || authHeader`: the 'token' cookie's value or the
      'authorization' header, whichever is a non-empty string. */
  predicate HasToken(cookieToken: Option<string>, authHeader: Option<string>)
  {
    TruthyString(cookieToken) || TruthyString(authHeader)
  }

  function Decide(pathname: string, cookieToken: Option<string>, authHeader: Option<string>): (d: Decision)
    ensures d.Redirect? <==> IsPublic(pathname) && HasToken(cookieToken, authHeader)
    ensures d.Redirect? ==> d.target == NotesPath
  {
    var hasToken := HasToken(cookieToken, authHeader);
    if IsProtected(pathname) && !hasToken then Next
    else if IsPublic(pathname) && hasToken then Redirect(NotesPath)
    else Next
  }

  /** The guard never blocks: a protected page is served with or without a token. */
  lemma ProtectedNeverBlocked(pathname: string, cookieToken: Option<string>, authHeader: Option<string>)
    requires IsProtected(pathname)
    ensures Decide(pathname, cookieToken, authHeader) == Next
  {
    ProtectedIsNotPublic(pathname);
  }

  /** No path is both protected and public. */
  lemma ProtectedIsNotPublic(pathname: string)
    ensures !(IsProtected(pathname) && IsPublic(pathname))
  {
    if IsProtected(pathname) {
      assert pathname[1] == 'n';
    }
  }

  /** The redirect target is itself passed through, so the guard cannot loop. */
  lemma RedirectTargetPasses(pathname: string, cookieToken: Option<string>, authHeader: Option<string>)
    requires Decide(pathname, cookieToken, authHeader).Redirect?
    ensures Decide(Decide(pathname, cookieToken, authHeader).target, cookieToken, authHeader) == Next
  {
    assert IsProtected(NotesPath);
    ProtectedNeverBlocked(NotesPath, cookieToken, authHeader);
  }

  /** Concrete cases: the prefix test admits '/notesX' and '/login-help'; an
      empty header counts as no token. */
  lemma PrefixCases()
    ensures IsProtected("/notesX") && IsProtected("/notes/42") && !IsProtected("/note")
    ensures Decide("/login-help", Some("t"), None) == Redirect(NotesPath)
    ensures Decide("/login", None, Some("")) == Next
    ensures Decide("/register", None, Some("Bearer t")) == Redirect(NotesPath)
  {
    assert !IsProtected("/note");
    assert IsPublic("/login-help") by { assert "/login-help"[..6] == "/login"; }
    assert IsPublic("/register");
  }
}
