/** The routing decision of src/lib/supabase/middleware.ts. Whether the
    Supabase settings exist and whether the session has a user are inputs;
    refreshing the session cookies is not modelled. */
module Middleware {
  import opened Text

  /** `isPublicPath`. */
  predicate IsPublicPath(pathname: string) {
    pathname == "/" || pathname == "/login" || StartsWith(pathname, "/auth/")
  }

  /** Everything under "/auth/" is public; nothing under "/projects" or
      below "/login/" is, and neither is "/auth" itself. */
  lemma PublicPathPrefixes(rest: string)
    ensures IsPublicPath("/auth/" + rest)
    ensures !IsPublicPath("/projects" + rest) && !IsPublicPath("/login/" + rest)
    ensures !IsPublicPath("/auth")
  {
    assert ("/auth/" + rest)[..6] == "/auth/";
    var p := "/projects" + rest;
    assert p[1] == 'p' && |p| >= 6;
    assert p[..6][1] != "/auth/"[1];
    var l := "/login/" + rest;
    assert l[1] == 'l' && l[6] == '/' && |l| >= 7;
    assert l[..6][1] != "/auth/"[1];
  }

  /** A query string as `URLSearchParams` holds it: name and value pairs. */
  type Params = seq<(string, string)>

  /** The part of the request URL the middleware reads: `pathname`, the raw
      `search` text, and the parsed parameters. */
  datatype NextUrl = NextUrl(pathname: string, search: string, params: Params)

  /** `URLSearchParams.set`: the first pair with the name takes the value,
      later pairs with the name go, and the pair is added at the end when
      there was none. */
  function SetParam(params: Params, name: string, value: string): (r: Params)
    decreases |params|
  {
    if params == [] then [(name, value)]
    else if params[0].0 == name then [(name, value)] + RemoveParam(params[1..], name)
    else [params[0]] + SetParam(params[1..], name, value)
  }

  function RemoveParam(params: Params, name: string): (r: Params)
    ensures forall k :: 0 <= k < |r| ==> r[k].0 != name
    ensures forall p :: p in r <==> p in params && p.0 != name
  {
    if params == [] then []
    else if params[0].0 == name then RemoveParam(params[1..], name)
    else [params[0]] + RemoveParam(params[1..], name)
  }

  /** `URLSearchParams.get`: the value of the first pair with the name. */
  function GetParam(params: Params, name: string): (r: string)
  {
    if params == [] then ""
    else if params[0].0 == name then params[0].1
    else GetParam(params[1..], name)
  }

  function CountParam(params: Params, name: string): nat {
    if params == [] then 0 else (if params[0].0 == name then 1 else 0) + CountParam(params[1..], name)
  }

  /** After `set` the name occurs exactly once, with the new value, and
      every pair with another name is kept. */
  lemma {:induction false} SetParamShape(params: Params, name: string, value: string)
    ensures CountParam(SetParam(params, name, value), name) == 1
    ensures GetParam(SetParam(params, name, value), name) == value
    ensures forall p: (string, string) :: p.0 != name ==> (p in SetParam(params, name, value) <==> p in params)
    ensures RemoveParam(SetParam(params, name, value), name) == RemoveParam(params, name)
    decreases |params|
  {
    if params != [] {
      if params[0].0 == name {
        RemoveParamCount(params[1..], name);
        RemoveParamTwice(params[1..], name);
      } else {
        SetParamShape(params[1..], name, value);
      }
    }
  }

  /** Removing a name twice is removing it once. */
  lemma {:induction false} RemoveParamTwice(params: Params, name: string)
    ensures RemoveParam(RemoveParam(params, name), name) == RemoveParam(params, name)
    decreases |params|
  {
    if params != [] {
      RemoveParamTwice(params[1..], name);
    }
  }

  lemma {:induction false} RemoveParamCount(params: Params, name: string)
    ensures CountParam(RemoveParam(params, name), name) == 0
    decreases |params|
  {
    if params != [] {
      RemoveParamCount(params[1..], name);
    }
  }

  /** Where a redirect sends the browser: a path and its query parameters. */
  datatype Location = Location(pathname: string, params: Params)

  datatype Decision =
    | PassThrough                    // `NextResponse.next`, cookies refreshed
    | Redirect(target: Location)     // `NextResponse.redirect` to the rewritten URL

  /** `updateSession`. */
  function UpdateSession(hasConfig: bool, hasUser: bool, url: NextUrl): Decision {
    if !hasConfig then PassThrough
    else if StartsWith(url.pathname, "/api") then PassThrough
    else if !hasUser && !IsPublicPath(url.pathname) then
      Redirect(Location("/login", SetParam(url.params, "next", url.pathname + url.search)))
    else if hasUser && url.pathname == "/login" then
      Redirect(Location("/projects", []))
    else PassThrough
  }

  /** The whole decision: API paths pass; a visitor without a session on a
      private page goes to the login page with `next` set to where they
      were going and the other parameters kept; a signed-in user on the
      login page goes to the project list with no query; all else passes. */
  lemma UpdateSessionCases(hasConfig: bool, hasUser: bool, url: NextUrl)
    ensures !hasConfig ==> UpdateSession(hasConfig, hasUser, url) == PassThrough
    ensures StartsWith(url.pathname, "/api") ==> UpdateSession(hasConfig, hasUser, url) == PassThrough
    ensures var d := UpdateSession(hasConfig, hasUser, url);
            d.Redirect? <==>
              hasConfig && !StartsWith(url.pathname, "/api")
              && ((!hasUser && !IsPublicPath(url.pathname)) || (hasUser && url.pathname == "/login"))
    ensures var d := UpdateSession(hasConfig, hasUser, url);
            d.Redirect? && !hasUser ==>
              && d.target.pathname == "/login"
              && GetParam(d.target.params, "next") == url.pathname + url.search
              && CountParam(d.target.params, "next") == 1
              && (forall p: (string, string) :: p.0 != "next" ==> (p in d.target.params <==> p in url.params))
    ensures var d := UpdateSession(hasConfig, hasUser, url);
            d.Redirect? && hasUser ==> d.target == Location("/projects", [])
  {
    SetParamShape(url.params, "next", url.pathname + url.search);
  }

  /** A redirect never leads to another: the login page is public, and the
      project list is not the login page. `search` is the query text of the
      followed request, whatever its serialisation. */
  lemma NoRedirectLoop(hasConfig: bool, hasUser: bool, url: NextUrl, search: string)
    requires UpdateSession(hasConfig, hasUser, url).Redirect?
    ensures var t := UpdateSession(hasConfig, hasUser, url).target;
            UpdateSession(hasConfig, hasUser, NextUrl(t.pathname, search, t.params)) == PassThrough
  {
  }
}
