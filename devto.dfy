/**
 * The Dev.to adapter: API-key verification, the guards in front of an
 * article post, the article it sends and the result it returns. It
 * never raises: every exception becomes a failure result.
 *
 * The HTTP calls are oracles that receive the request: `get(url,
 * headers)` and `post(url, json, headers)`.
 */
module DevToPlatform {
  import opened Py
  import opened Web

  const BaseUrl := "https://dev.to/api"

  datatype Net = Net(get: (string, Value) -> Http, post: (string, Value, Value) -> Http)

  /** The verification request's headers. */
  function KeyHeaders(apiKey: Value): Value
  {
    Dict([Entry("api-key", apiKey)])
  }

  /**
   * `authenticate`: false without asking anything when the key is
   * missing (the flag stays as it was); otherwise the flag and the answer
   * are whether `/articles/me` answered 200.
   */
  function AuthSpec(apiKey: Value, authenticated: bool, net: Net): (r: (bool, bool))
    ensures Truthy(apiKey) ==> r.1 == r.0
  {
    if !Truthy(apiKey) then (false, authenticated)
    else
      var ok := IsOk(net.get(BaseUrl + "/articles/me", KeyHeaders(apiKey)));
      (ok, ok)
  }

  /** The request body: the content as the markdown body, published, with `tags` defaulting to `['technology']`. */
  function Article(title: Value, content: string, kwargs: Value): Value
    requires kwargs.Dict?
  {
    Dict([Entry("article", Dict([
      Entry("title", title),
      Entry("body_markdown", Str(content)),
      Entry("published", Bool(true)),
      Entry("tags", GetOr(kwargs, "tags", List([Str("technology")])))
    ]))])
  }

  function PostHeaders(apiKey: Value): Value
  {
    Dict([Entry("api-key", apiKey), Entry("Content-Type", Str("application/json"))])
  }

  /** What the article request leads to: success on 200 or 201 with a dict body, whose `url` defaults to `''`. */
  function Answer(response: Http): (r: Value)
    ensures r.Dict?
    ensures Get(r, "success") == Bool(true) <==>
      response.Response? && (response.status == 200 || response.status == 201) && response.body.Dict?
  {
    match response
    case RequestFailed(reason) => Failure("Dev.to posting error: " + reason)
    case Response(status, body, text) =>
      if status == 200 || status == 201 then
        if !body.Dict? then Failure("Dev.to posting error: " + NoAttribute(body, "get"))
        else Dict([Entry("success", Bool(true)), Entry("data", body), Entry("url", GetOr(body, "url", Str("")))])
      else Failure("Dev.to API Error: " + IntToString(status) + " - " + text)
  }

  /** `post_content`: the result and the new login flag. */
  function PostSpec(apiKey: Value, authenticated: bool, content: string, kwargs: Value, net: Net): (r: (Value, bool))
    requires kwargs.Dict?
    ensures r.0.Dict?
  {
    var auth := if authenticated then (true, true) else AuthSpec(apiKey, authenticated, net);
    if !auth.0 then (Failure("Authentication failed"), auth.1)
    else if !Truthy(Get(kwargs, "title")) then (Failure("Title is required for Dev.to posts"), auth.1)
    else (Answer(net.post(BaseUrl + "/articles", Article(Get(kwargs, "title"), content, kwargs), PostHeaders(apiKey))), auth.1)
  }

  class DevTo {
    const apiKey: Value
    var isAuthenticated: bool

    constructor (env: Env)
      ensures apiKey == GetEnv(env, "DEVTO_API_KEY") && !isAuthenticated
    {
      apiKey := GetEnv(env, "DEVTO_API_KEY");
      isAuthenticated := false;
    }

    method Authenticate(net: Net) returns (ok: bool)
      modifies this
      ensures (ok, isAuthenticated) == AuthSpec(apiKey, old(isAuthenticated), net)
    {
      if !Truthy(apiKey) {
        return false;
      }
      var response := net.get(BaseUrl + "/articles/me", KeyHeaders(apiKey));
      if response.Response? && response.status == 200 {
        isAuthenticated := true;
        return true;
      }
      isAuthenticated := false;
      ok := false;
    }

    method PostContent(content: string, kwargs: Value, net: Net) returns (r: Value)
      requires kwargs.Dict?
      modifies this
      ensures (r, isAuthenticated) == PostSpec(apiKey, old(isAuthenticated), content, kwargs, net)
    {
      if !isAuthenticated {
        var ok := Authenticate(net);
        if !ok {
          return Failure("Authentication failed");
        }
      }
      var title := Get(kwargs, "title");
      if !Truthy(title) {
        return Failure("Title is required for Dev.to posts");
      }
      var article := Article(title, content, kwargs);
      var response := net.post(BaseUrl + "/articles", article, PostHeaders(apiKey));
      r := Answer(response);
    }

    /** `check_status`: up exactly when `/articles` answers 200; a failed request is down. */
    method CheckStatus(net: Net) returns (up: bool)
      ensures up <==> IsOk(net.get(BaseUrl + "/articles", Dict([])))
    {
      var response := net.get(BaseUrl + "/articles", Dict([]));
      up := response.Response? && response.status == 200;
    }
  }

  /** Without a key nothing is asked: the answer is false whatever the server would say, and the flag is untouched. */
  lemma NoKeyNoRequest(apiKey: Value, authenticated: bool, net: Net, other: Net)
    requires !Truthy(apiKey)
    ensures AuthSpec(apiKey, authenticated, net) == AuthSpec(apiKey, authenticated, other) == (false, authenticated)
  {
  }

  /**
   * The guards: a failed login answers "Authentication failed" and a
   * missing or empty title "Title is required for Dev.to posts", both
   * whatever the article endpoint would answer, so before any post.
   */
  lemma PostGuards(apiKey: Value, authenticated: bool, content: string, kwargs: Value, net: Net, other: Net)
    requires kwargs.Dict? && other.get == net.get
    ensures var p := PostSpec(apiKey, authenticated, content, kwargs, net);
      && (!authenticated && !AuthSpec(apiKey, authenticated, net).0 ==> p.0 == Failure("Authentication failed"))
      && (authenticated || AuthSpec(apiKey, authenticated, net).0 ==>
            !Truthy(Get(kwargs, "title")) ==> p.0 == Failure("Title is required for Dev.to posts") && p.1)
      && (p.0 == Failure("Authentication failed") || p.0 == Failure("Title is required for Dev.to posts") ==>
            PostSpec(apiKey, authenticated, content, kwargs, other) == p)
  {
    var auth := if authenticated then (true, true) else AuthSpec(apiKey, authenticated, net);
    if auth.0 && Truthy(Get(kwargs, "title")) {
      AnswerIsNotGuard(net.post(BaseUrl + "/articles", Article(Get(kwargs, "title"), content, kwargs), PostHeaders(apiKey)));
    }
  }

  /** No answer of the article endpoint reads like one of the two guard failures. */
  lemma AnswerIsNotGuard(response: Http)
    ensures Answer(response) != Failure("Authentication failed")
    ensures Answer(response) != Failure("Title is required for Dev.to posts")
  {
    match response
    case RequestFailed(reason) =>
      assert Get(Answer(response), "error") == Str("Dev.to posting error: " + reason);
      assert ("Dev.to posting error: " + reason)[0] == 'D';
    case Response(status, body, text) =>
      if !(status == 200 || status == 201) {
        assert ("Dev.to API Error: " + IntToString(status) + " - " + text)[0] == 'D';
      } else if !body.Dict? {
        assert ("Dev.to posting error: " + NoAttribute(body, "get"))[0] == 'D';
      }
  }

  /** The article sent carries the content unchanged, is published, and is tagged `technology` unless tags are given. */
  lemma ArticleShape(title: Value, content: string, kwargs: Value)
    requires kwargs.Dict?
    ensures var a := Get(Article(title, content, kwargs), "article");
      && a.Dict?
      && Get(a, "body_markdown") == Str(content)
      && Get(a, "published") == Bool(true)
      && (!Has(kwargs, "tags") ==> Get(a, "tags") == List([Str("technology")]))
  {
    var inner := [
      Entry("title", title),
      Entry("body_markdown", Str(content)),
      Entry("published", Bool(true)),
      Entry("tags", GetOr(kwargs, "tags", List([Str("technology")])))
    ];
    assert Get(Article(title, content, kwargs), "article") == Dict(inner);
    LookupAt(inner, "body_markdown", 1);
    LookupAt(inner, "published", 2);
    LookupAt(inner, "tags", 3);
  }

  /** A post succeeds exactly when the article endpoint answered 200 or 201 with a dict; its `url` defaults to `''`. */
  lemma PostSucceeds(apiKey: Value, authenticated: bool, content: string, kwargs: Value, net: Net)
    requires kwargs.Dict? && (authenticated || AuthSpec(apiKey, authenticated, net).0) && Truthy(Get(kwargs, "title"))
    ensures var response := net.post(BaseUrl + "/articles", Article(Get(kwargs, "title"), content, kwargs), PostHeaders(apiKey));
      var p := PostSpec(apiKey, authenticated, content, kwargs, net);
      && (Get(p.0, "success") == Bool(true) <==>
            response.Response? && (response.status == 200 || response.status == 201) && response.body.Dict?)
      && (Get(p.0, "success") == Bool(true) ==> Get(p.0, "url") == GetOr(response.body, "url", Str("")))
  {
    var response := net.post(BaseUrl + "/articles", Article(Get(kwargs, "title"), content, kwargs), PostHeaders(apiKey));
    if response.Response? && (response.status == 200 || response.status == 201) && response.body.Dict? {
      var entries := [Entry("success", Bool(true)), Entry("data", response.body), Entry("url", GetOr(response.body, "url", Str("")))];
      LookupAt(entries, "url", 2);
    }
  }
}
