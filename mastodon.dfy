/**
 * The Mastodon adapter: building and verifying the API client, the
 * guards and defaults of a status post, and the status check. It never
 * raises: every exception becomes a failure result or false.
 *
 * The Mastodon library is an oracle: whether building the client
 * succeeds, whether verifying the credentials succeeds, what
 * `status_post(content, media_ids, visibility)` returns, and whether
 * `instance()` succeeds.
 */
module MastodonPlatform {
  import opened Py
  import opened Web

  const DefaultServer := "https://mastodon.social"

  datatype Library = Library(build: Outcome<()>, verify: Outcome<()>,
                             statusPost: (string, Value, Value) -> Outcome<Value>, instance: Outcome<()>)

  /** The adapter's state: whether an API client object exists, and the login flag. */
  datatype Client = Client(hasApi: bool, authenticated: bool)

  /**
   * `authenticate`: false without a token, touching nothing; otherwise
   * the client is built and its credentials verified, and the flag and
   * the answer are whether both succeeded.
   */
  function AuthSpec(accessToken: Value, c: Client, lib: Library): (r: (bool, Client))
    ensures Truthy(accessToken) ==> r.1.authenticated == r.0
    ensures r.0 ==> r.1.hasApi
  {
    if !Truthy(accessToken) then (false, c)
    else if lib.build.Raised? then (false, c.(authenticated := false))
    else if lib.verify.Raised? then (false, Client(true, false))
    else (true, Client(true, true))
  }

  /** The result of a status post: success with `url` defaulting to `''`, or the exception's message. */
  function Answer(posted: Outcome<Value>): (r: Value)
    ensures r.Dict?
  {
    match posted
    case Raised(e) => Failure(e.msg)
    case Returned(status) =>
      if !status.Dict? then Failure(NoAttribute(status, "get"))
      else Dict([Entry("success", Bool(true)), Entry("data", status), Entry("url", GetOr(status, "url", Str("")))])
  }

  /** The call `post_content` makes: `visibility` defaults to `public` and `media_ids` to `None`. */
  function StatusPost(content: string, kwargs: Value, lib: Library): Outcome<Value>
    requires kwargs.Dict?
  {
    lib.statusPost(content, GetOr(kwargs, "media_ids", Null), GetOr(kwargs, "visibility", Str("public")))
  }

  /** `post_content`: the result and the new state. */
  function PostSpec(accessToken: Value, c: Client, content: string, kwargs: Value, lib: Library): (r: (Value, Client))
    requires kwargs.Dict?
    ensures r.0.Dict?
  {
    var auth := if c.authenticated then (true, c) else AuthSpec(accessToken, c, lib);
    if !auth.0 then (Failure("Authentication failed"), auth.1)
    else (Answer(StatusPost(content, kwargs, lib)), auth.1)
  }

  /** `check_status`: without a client, whatever `authenticate()` answers; with one, whether `instance()` succeeds. */
  function StatusSpec(accessToken: Value, c: Client, lib: Library): (bool, Client)
  {
    if !c.hasApi then AuthSpec(accessToken, c, lib)
    else (lib.instance.Returned?, c)
  }

  class Mastodon {
    const server: string
    const accessToken: Value
    var hasApi: bool
    var isAuthenticated: bool

    /** The login flag is only ever set once a client exists. */
    ghost predicate Valid()
      reads this
    {
      isAuthenticated ==> hasApi
    }

    function State(): Client
      reads this
    {
      Client(hasApi, isAuthenticated)
    }

    constructor (env: Env)
      ensures server == GetEnvOr(env, "MASTODON_SERVER", DefaultServer)
      ensures accessToken == GetEnv(env, "MASTODON_ACCESS_TOKEN")
      ensures State() == Client(false, false) && Valid()
    {
      server := GetEnvOr(env, "MASTODON_SERVER", DefaultServer);
      accessToken := GetEnv(env, "MASTODON_ACCESS_TOKEN");
      hasApi := false;
      isAuthenticated := false;
    }

    method Authenticate(lib: Library) returns (ok: bool)
      requires Valid()
      modifies this
      ensures (ok, State()) == AuthSpec(accessToken, old(State()), lib) && Valid()
    {
      if !Truthy(accessToken) {
        return false;
      }
      if lib.build.Raised? {
        isAuthenticated := false;
        return false;
      }
      hasApi := true;
      if lib.verify.Raised? {
        isAuthenticated := false;
        return false;
      }
      isAuthenticated := true;
      ok := true;
    }

    method PostContent(content: string, kwargs: Value, lib: Library) returns (r: Value)
      requires kwargs.Dict? && Valid()
      modifies this
      ensures (r, State()) == PostSpec(accessToken, old(State()), content, kwargs, lib) && Valid()
    {
      if !isAuthenticated {
        var ok := Authenticate(lib);
        if !ok {
          return Failure("Authentication failed");
        }
      }
      var visibility := GetOr(kwargs, "visibility", Str("public"));
      var mediaIds := GetOr(kwargs, "media_ids", Null);
      var posted := lib.statusPost(content, mediaIds, visibility);
      r := Answer(posted);
    }

    method CheckStatus(lib: Library) returns (up: bool)
      requires Valid()
      modifies this
      ensures (up, State()) == StatusSpec(accessToken, old(State()), lib) && Valid()
    {
      if !hasApi {
        up := Authenticate(lib);
        return;
      }
      up := lib.instance.Returned?;
    }
  }

  /** Without a token no client is built and the state is untouched, whatever the library would do. */
  lemma NoTokenNoClient(accessToken: Value, c: Client, lib: Library, other: Library)
    requires !Truthy(accessToken)
    ensures AuthSpec(accessToken, c, lib) == AuthSpec(accessToken, c, other) == (false, c)
  {
  }

  /** A failed verification answers false and leaves the adapter logged out (with a client built). */
  lemma FailedVerification(accessToken: Value, c: Client, lib: Library)
    requires Truthy(accessToken) && lib.build.Returned? && lib.verify.Raised?
    ensures AuthSpec(accessToken, c, lib) == (false, Client(true, false))
  {
  }

  /**
   * A post that cannot log in answers "Authentication failed" without
   * posting; a logged-in post passes `public` and `None` unless told
   * otherwise, and succeeds exactly when `status_post` returns a dict.
   */
  lemma PostBehaviour(accessToken: Value, c: Client, content: string, kwargs: Value, lib: Library, other: Library)
    requires kwargs.Dict? && other.build == lib.build && other.verify == lib.verify
    ensures var p := PostSpec(accessToken, c, content, kwargs, lib);
      && (!c.authenticated && !AuthSpec(accessToken, c, lib).0 ==>
            p == (Failure("Authentication failed"), AuthSpec(accessToken, c, lib).1) && PostSpec(accessToken, c, content, kwargs, other) == p)
      && (c.authenticated || AuthSpec(accessToken, c, lib).0 ==>
            && StatusPost(content, kwargs, lib) ==
                 lib.statusPost(content, if Has(kwargs, "media_ids") then Get(kwargs, "media_ids") else Null,
                                if Has(kwargs, "visibility") then Get(kwargs, "visibility") else Str("public"))
            && (Get(p.0, "success") == Bool(true) <==> StatusPost(content, kwargs, lib).Returned? && StatusPost(content, kwargs, lib).value.Dict?))
  {
    var posted := StatusPost(content, kwargs, lib);
    if posted.Returned? && posted.value.Dict? {
      var entries := [Entry("success", Bool(true)), Entry("data", posted.value), Entry("url", GetOr(posted.value, "url", Str("")))];
      assert Answer(posted) == Dict(entries);
    }
  }

  /** A successful post's `url` is the status's, defaulting to `''`. */
  lemma PostUrl(posted: Outcome<Value>)
    requires posted.Returned? && posted.value.Dict?
    ensures Get(Answer(posted), "url") == GetOr(posted.value, "url", Str(""))
  {
    var entries := [Entry("success", Bool(true)), Entry("data", posted.value), Entry("url", GetOr(posted.value, "url", Str("")))];
    LookupAt(entries, "url", 2);
  }

  /** Without a client the status check is a login, so it can succeed only by building one. */
  lemma StatusWithoutClient(accessToken: Value, c: Client, lib: Library)
    requires !c.hasApi
    ensures StatusSpec(accessToken, c, lib) == AuthSpec(accessToken, c, lib)
    ensures StatusSpec(accessToken, c, lib).0 ==> StatusSpec(accessToken, c, lib).1.hasApi
  {
  }
}
