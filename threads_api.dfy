/**
 * The Threads adapter over the official Graph API: token reuse, refresh
 * and the manual code exchange, media upload and the shaping of the
 * media fields, and the rate limiter's bookkeeping around a post.
 *
 * Every HTTP call is an oracle of `Net` that receives the request's
 * form data: `token` answers the OAuth token endpoint, `upload` the
 * media endpoint (with the file's path), `send` the post and reply
 * endpoints (with the URL). `now` is `time.time()` in whole seconds and
 * `code` is what the user types at the authorisation-code prompt.
 */
module ThreadsApi {
  import opened Py
  import opened Text
  import opened Web
  import ThreadsFormat
  import ThreadsBrowser

  const BaseUrl := "https://graph.threads.net/v1"

  /** Token lifetime assumed when the token endpoint gives no `expires_in`. */
  const DefaultExpiresIn := 3600

  /** The OAuth client settings read from the environment. */
  datatype Client = Client(id: Value, secret: Value, redirectUri: Value)

  /** The adapter's token fields and its login flag. */
  datatype ApiState = ApiState(access: Value, refresh: Value, expiry: Option<string>, authenticated: bool)

  datatype Net = Net(now: int, code: string, token: Value -> Http, onDisk: string -> bool,
                     upload: (string, Value) -> Http, send: (string, Value) -> Http)

  /** The state the constructor leaves: tokens from the environment, logged in exactly when an access token is set and non-empty. */
  function InitialState(env: Env): (r: ApiState)
    ensures r.authenticated <==> Truthy(GetEnv(env, "THREADS_ACCESS_TOKEN"))
  {
    var expiry := if "THREADS_TOKEN_EXPIRY" in env then Some(env["THREADS_TOKEN_EXPIRY"]) else None;
    ApiState(GetEnv(env, "THREADS_ACCESS_TOKEN"), GetEnv(env, "THREADS_REFRESH_TOKEN"), expiry,
             Truthy(GetEnv(env, "THREADS_ACCESS_TOKEN")))
  }

  /** `float(s)` for the integer literals the model's clock writes; anything else raises `ValueError`. */
  function ParseTime(s: string): (r: Outcome<int>)
    ensures r.Raised? ==> r.exc.kind == ValueError
  {
    match LiteralValue(Strip(s))
    case Some(t) => Returned(t)
    case None => Raised(Exc(ValueError, "could not convert string to float: " + Repr(Str(s))))
  }

  /**
   * The first test of `authenticate`: an access token, an expiry, and the
   * expiry later than now. The expiry is only parsed when both are set.
   */
  function TokenUsable(st: ApiState, now: int): Outcome<bool>
  {
    if !Truthy(st.access) || st.expiry.None? || st.expiry.value == "" then Returned(false)
    else
      match ParseTime(st.expiry.value)
      case Raised(e) => Raised(e)
      case Returned(t) => Returned(t > now)
  }

  /** `time.time() + v`: numbers (and booleans, which are numbers in Python) add; anything else raises `TypeError`. */
  function AddSeconds(now: int, v: Value): (r: Outcome<int>)
    ensures v.Int? ==> r == Returned(now + v.i)
    ensures r.Raised? <==> !v.Int? && !v.Bool?
  {
    match v
    case Int(i) => Returned(now + i)
    case Bool(b) => Returned(now + if b then 1 else 0)
    case _ => Raised(Exc(TypeError, "unsupported operand type(s) for +: 'float' and '" + TypeName(v) + "'"))
  }

  /**
   * `_save_tokens`: both tokens are overwritten from the response (with
   * `None` when absent), then the expiry becomes now plus `expires_in`
   * (3600 when absent). A response that is not a dict raises before any
   * change; an `expires_in` that is not a number raises after the tokens
   * were overwritten.
   */
  function SaveSpec(st: ApiState, info: Value, now: int): (r: (Outcome<()>, ApiState))
    ensures r.1.authenticated == st.authenticated
    ensures !info.Dict? ==> r == (Raised(Exc(AttributeError, NoAttribute(info, "get"))), st)
  {
    if !info.Dict? then (Raised(Exc(AttributeError, NoAttribute(info, "get"))), st)
    else
      var st1 := st.(access := Get(info, "access_token"), refresh := Get(info, "refresh_token"));
      match AddSeconds(now, GetOr(info, "expires_in", Int(DefaultExpiresIn)))
      case Raised(e) => (Raised(e), st1)
      case Returned(t) => (Returned(()), st1.(expiry := Some(IntToString(t))))
  }

  /** The form data of a refresh request. */
  function RefreshData(client: Client, refresh: Value): Value
  {
    Dict([
      Entry("client_id", client.id),
      Entry("client_secret", client.secret),
      Entry("grant_type", Str("refresh_token")),
      Entry("refresh_token", refresh)
    ])
  }

  /** The form data of the authorisation-code exchange. */
  function ExchangeData(client: Client, code: string): Value
  {
    Dict([
      Entry("client_id", client.id),
      Entry("client_secret", client.secret),
      Entry("grant_type", Str("authorization_code")),
      Entry("code", Str(code)),
      Entry("redirect_uri", client.redirectUri)
    ])
  }

  /**
   * `_refresh_token`: true when the endpoint answers 200 and the tokens
   * are saved; false on any other status and on any exception, which it
   * swallows. It never touches the login flag.
   */
  function Refreshed(client: Client, st: ApiState, net: Net): (bool, ApiState)
  {
    match net.token(RefreshData(client, st.refresh))
    case RequestFailed(_) => (false, st)
    case Response(status, body, _) =>
      if status != 200 then (false, st)
      else
        var saved := SaveSpec(st, body, net.now);
        (saved.0.Returned?, saved.1)
  }

  /** An exception caught by `authenticate`, re-raised as `ThreadsAPIAuthError`. */
  function AuthFailure(msg: string): Exc
  {
    Exc(ThreadsAPIAuthError, "Failed to authenticate: " + msg)
  }

  /**
   * `authenticate`: reuse a token that has not expired; otherwise refresh
   * when there is a refresh token; otherwise exchange the typed-in code.
   * Every exception on the way is re-raised as `ThreadsAPIAuthError`.
   */
  function AuthSpec(client: Client, st: ApiState, net: Net): (Outcome<bool>, ApiState)
  {
    match TokenUsable(st, net.now)
    case Raised(e) => (Raised(AuthFailure(e.msg)), st)
    case Returned(usable) =>
      if usable then (Returned(true), st.(authenticated := true))
      else if Truthy(st.refresh) then
        var refreshed := Refreshed(client, st, net);
        (Returned(refreshed.0), refreshed.1)
      else
        match net.token(ExchangeData(client, net.code))
        case RequestFailed(reason) => (Raised(AuthFailure(reason)), st)
        case Response(status, body, _) =>
          if status != 200 then (Returned(false), st)
          else
            var saved := SaveSpec(st, body, net.now);
            if saved.0.Raised? then (Raised(AuthFailure(saved.0.exc.msg)), saved.1)
            else (Returned(true), saved.1.(authenticated := true))
  }

  // Media.

  /** `media_path.lower().endswith(('.mp4', '.mov'))`. */
  predicate IsVideo(path: string)
  {
    EndsWith(Lower(path), ".mp4") || EndsWith(Lower(path), ".mov")
  }

  /** The form data of one upload: the access token, and `type=VIDEO` for a video. */
  function UploadData(access: Value, path: string): Value
  {
    Dict([Entry("access_token", access)] + if IsVideo(path) then [Entry("type", Str("VIDEO"))] else [])
  }

  /**
   * What one path adds to the uploaded ids: nothing for a missing file,
   * a failed request, a status other than 200, or a body without a
   * truthy `id`; otherwise that id.
   */
  function UploadOne(access: Value, path: string, net: Net): (r: seq<Value>)
    ensures |r| <= 1
    ensures r != [] ==> net.onDisk(path) && Truthy(r[0])
  {
    if !net.onDisk(path) then []
    else
      match net.upload(path, UploadData(access, path))
      case RequestFailed(_) => []
      case Response(status, body, _) =>
        if status != 200 || !body.Dict? || !Truthy(Get(body, "id")) then [] else [Get(body, "id")]
  }

  /** The ids `_upload_media` collects, in upload order. */
  function UploadedIds(access: Value, paths: seq<string>, net: Net): seq<Value>
  {
    if paths == [] then []
    else UploadedIds(access, paths[..|paths| - 1], net) + UploadOne(access, paths[|paths| - 1], net)
  }

  /** The paths that exist, in order: the ones an upload is attempted for. */
  function OnDisk(paths: seq<string>, onDisk: string -> bool): seq<string>
  {
    if paths == [] then []
    else OnDisk(paths[..|paths| - 1], onDisk) + if onDisk(paths[|paths| - 1]) then [paths[|paths| - 1]] else []
  }

  /** Every uploaded id is truthy, and there are no more of them than existing files, hence than paths. */
  lemma {:induction false} UploadedBound(access: Value, paths: seq<string>, net: Net)
    ensures var ids := UploadedIds(access, paths, net);
      && |ids| <= |OnDisk(paths, net.onDisk)| <= |paths|
      && forall k :: 0 <= k < |ids| ==> Truthy(ids[k])
  {
    if paths != [] {
      UploadedBound(access, paths[..|paths| - 1], net);
    }
  }

  /** Every attempted upload is of an existing file: missing files are skipped. */
  lemma {:induction false} OnDiskExist(paths: seq<string>, onDisk: string -> bool)
    ensures forall k :: 0 <= k < |OnDisk(paths, onDisk)| ==> onDisk(OnDisk(paths, onDisk)[k]) && OnDisk(paths, onDisk)[k] in paths
  {
    if paths != [] {
      OnDiskExist(paths[..|paths| - 1], onDisk);
      var front := paths[..|paths| - 1];
      forall k | 0 <= k < |OnDisk(front, onDisk)|
        ensures OnDisk(front, onDisk)[k] in paths
      {
        assert OnDisk(front, onDisk)[k] in front;
      }
    }
  }

  /** Every string item, in order; defined on lists of strings only. */
  function Strings(vs: seq<Value>): seq<string>
    requires forall k :: 0 <= k < |vs| ==> vs[k].Str?
  {
    seq(|vs|, k requires 0 <= k < |vs| => vs[k].s)
  }

  /** The strings of two lists of strings are those of each, one after the other; `Str` gives them back. */
  lemma StringsAppend(vs: seq<Value>, ws: seq<Value>)
    requires forall k :: 0 <= k < |vs| ==> vs[k].Str?
    requires forall k :: 0 <= k < |ws| ==> ws[k].Str?
    ensures Strings(vs + ws) == Strings(vs) + Strings(ws)
    ensures forall k :: 0 <= k < |vs| ==> Str(Strings(vs)[k]) == vs[k]
  {
    assert forall k :: 0 <= k < |vs + ws| ==> (vs + ws)[k] == if k < |vs| then vs[k] else ws[k - |vs|];
  }

  /** The position of the first item that is not a string. */
  function FirstNonString(vs: seq<Value>): (k: nat)
    requires exists k :: 0 <= k < |vs| && !vs[k].Str?
    ensures k < |vs| && !vs[k].Str? && forall j :: 0 <= j < k ==> vs[j].Str?
  {
    if !vs[0].Str? then 0
    else
      assert exists k :: 0 <= k < |vs[1..]| && !vs[1..][k].Str? by {
        var k :| 0 <= k < |vs| && !vs[k].Str?;
        assert vs[1..][k - 1] == vs[k];
      }
      1 + FirstNonString(vs[1..])
  }

  /** `sep.join(items)`: `TypeError` at the first item that is not a string. */
  function JoinValues(vs: seq<Value>, sep: string): Outcome<string>
  {
    if forall k :: 0 <= k < |vs| ==> vs[k].Str? then Returned(Join(Strings(vs), sep))
    else
      var k := FirstNonString(vs);
      Raised(Exc(TypeError, "sequence item " + IntToString(k) + ": expected str instance, " + TypeName(vs[k]) + " found"))
  }

  /** The media fields of a post: none, `media_id` for one upload, or `carousel_media_ids` comma-joined for several. */
  function MediaFields(ids: seq<Value>): Outcome<seq<Entry>>
  {
    if ids == [] then Returned([])
    else if |ids| == 1 then Returned([Entry("media_id", ids[0])])
    else
      match JoinValues(ids, ",")
      case Raised(e) => Raised(e)
      case Returned(joined) => Returned([Entry("carousel_media_ids", Str(joined))])
  }

  /**
   * The shaping of the media fields: no field without ids, `media_id`
   * for exactly one, and for several string ids a `carousel_media_ids`
   * that splits on commas back into the ids when none contains a comma.
   */
  lemma MediaShaping(ids: seq<Value>)
    ensures ids == [] ==> MediaFields(ids) == Returned([])
    ensures |ids| == 1 ==> MediaFields(ids) == Returned([Entry("media_id", ids[0])])
    ensures |ids| > 1 && (forall k :: 0 <= k < |ids| ==> ids[k].Str? && Lacks(ids[k].s, ',')) ==>
      && MediaFields(ids).Returned?
      && |MediaFields(ids).value| == 1
      && MediaFields(ids).value[0].key == "carousel_media_ids"
      && MediaFields(ids).value[0].val.Str?
      && SplitOn(MediaFields(ids).value[0].val.s, ",") == Strings(ids)
  {
    if |ids| > 1 && (forall k :: 0 <= k < |ids| ==> ids[k].Str? && Lacks(ids[k].s, ',')) {
      var ss := Strings(ids);
      assert forall k :: 0 <= k < |ss| ==> Lacks(ss[k], ","[0]);
      JoinSplit(ss, ",");
    }
  }

  // Posting and replying.

  /** A post, or a reply to the thread with the given id. */
  datatype Kind = Post | Reply(threadId: string)

  function Url(kind: Kind): string
  {
    match kind
    case Post => BaseUrl + "/me/posts"
    case Reply(threadId) => BaseUrl + "/" + threadId + "/replies"
  }

  /** The request's form data: the formatted message, the access token and the media fields. */
  function PostData(message: string, access: Value, fields: seq<Entry>): Value
  {
    Dict([Entry("message", Str(message)), Entry("access_token", access)] + fields)
  }

  /** The result after a 200: the new id, and the number of paths asked for (not of uploads that succeeded). */
  function SuccessData(kind: Kind, id: Value, mediaPaths: seq<string>): (r: Value)
    ensures r.Dict? && Get(r, "success") == Bool(true) && Get(r, "media_count") == Int(|mediaPaths|)
  {
    var entries := match kind
      case Post => [
        Entry("success", Bool(true)),
        Entry("message", Str("Content posted successfully to Threads")),
        Entry("platform", Str("threads")),
        Entry("post_id", id),
        Entry("has_media", Bool(mediaPaths != [])),
        Entry("media_count", Int(|mediaPaths|))
      ]
      case Reply(threadId) => [
        Entry("success", Bool(true)),
        Entry("message", Str("Reply posted successfully")),
        Entry("platform", Str("threads")),
        Entry("type", Str("reply")),
        Entry("reply_id", id),
        Entry("parent_id", Str(threadId)),
        Entry("has_media", Bool(mediaPaths != [])),
        Entry("media_count", Int(|mediaPaths|))
      ];
    LookupAt(entries, "media_count", |entries| - 1);
    Dict(entries)
  }

  /** The result for any other status. */
  function FailureData(kind: Kind, status: int, text: string): (r: Value)
    ensures r.Dict? && Get(r, "success") == Bool(false)
  {
    var base := [
      Entry("success", Bool(false)),
      Entry("error", Str("API error: " + IntToString(status) + " - " + text)),
      Entry("platform", Str("threads"))
    ];
    Dict(if kind.Post? then base else base + [Entry("type", Str("reply"))])
  }

  /** An exception inside the request block, re-raised as `ThreadsAPIPostError`. */
  function PostFailure(kind: Kind, msg: string): Exc
  {
    Exc(ThreadsAPIPostError, (if kind.Post? then "Failed to post content: " else "Failed to post reply: ") + msg)
  }

  /** The request block of `post_content` / `reply_to_thread`; the flag says whether `record_post` was called. */
  function Publish(kind: Kind, access: Value, content: string, mediaPaths: seq<string>, net: Net): (Outcome<Value>, bool)
  {
    var ids := if mediaPaths != [] then UploadedIds(access, mediaPaths, net) else [];
    match MediaFields(ids)
    case Raised(e) => (Raised(PostFailure(kind, e.msg)), false)
    case Returned(fields) =>
      match net.send(Url(kind), PostData(ThreadsFormat.Formatted(content), access, fields))
      case RequestFailed(reason) => (Raised(PostFailure(kind, reason)), false)
      case Response(status, body, text) =>
        if status != 200 then (Returned(FailureData(kind, status, text)), false)
        else if !body.Dict? then (Raised(PostFailure(kind, NoAttribute(body, "get"))), false)
        else (Returned(SuccessData(kind, Get(body, "id"), mediaPaths)), true)
  }

  datatype Posting = Posting(outcome: Outcome<Value>, state: ApiState, recorded: bool)

  /**
   * `post_content` / `reply_to_thread`: the rate limiter first (raising
   * `ThreadsAPIPostError`), then authentication when not logged in
   * (raising `ThreadsAPIAuthError`), then the request block.
   */
  function PublishSpec(client: Client, st: ApiState, kind: Kind, content: string, mediaPaths: seq<string>, canPost: bool, net: Net): Posting
  {
    if !canPost then Posting(Raised(Exc(ThreadsAPIPostError, "Rate limit exceeded")), st, false)
    else
      var auth := if st.authenticated then (Returned(true), st) else AuthSpec(client, st, net);
      if auth.0.Raised? then Posting(Raised(auth.0.exc), auth.1, false)
      else if !auth.0.value then Posting(Raised(Exc(ThreadsAPIAuthError, "Authentication failed")), auth.1, false)
      else
        var published := Publish(kind, auth.1.access, content, mediaPaths, net);
        Posting(published.0, auth.1, published.1)
  }

  /** The adapter. */
  class ThreadsAPI {
    const client: Client
    const rateLimits: ThreadsBrowser.RateLimits
    var accessToken: Value
    var refreshToken: Value
    var tokenExpiry: Option<string>
    var isAuthenticated: bool
    /** How many times `record_post` has been called on the rate limiter. */
    var recordedPosts: nat

    function State(): ApiState
      reads this
    {
      ApiState(accessToken, refreshToken, tokenExpiry, isAuthenticated)
    }

    constructor (env: Env, limits: ThreadsBrowser.RateLimits)
      requires ThreadsBrowser.ThreadsRateLimits(env) == Returned(limits)
      ensures client == Client(GetEnv(env, "THREADS_CLIENT_ID"), GetEnv(env, "THREADS_CLIENT_SECRET"), GetEnv(env, "THREADS_REDIRECT_URI"))
      ensures rateLimits == limits
      ensures State() == InitialState(env) && recordedPosts == 0
    {
      client := Client(GetEnv(env, "THREADS_CLIENT_ID"), GetEnv(env, "THREADS_CLIENT_SECRET"), GetEnv(env, "THREADS_REDIRECT_URI"));
      rateLimits := limits;
      accessToken := GetEnv(env, "THREADS_ACCESS_TOKEN");
      refreshToken := GetEnv(env, "THREADS_REFRESH_TOKEN");
      tokenExpiry := if "THREADS_TOKEN_EXPIRY" in env then Some(env["THREADS_TOKEN_EXPIRY"]) else None;
      isAuthenticated := false;
      recordedPosts := 0;
      new;
      if Truthy(accessToken) {
        isAuthenticated := true;
      }
    }

    method SaveTokens(info: Value, now: int) returns (r: Outcome<()>)
      modifies this
      ensures (r, State()) == SaveSpec(old(State()), info, now)
      ensures recordedPosts == old(recordedPosts)
    {
      if !info.Dict? {
        return Raised(Exc(AttributeError, NoAttribute(info, "get")));
      }
      accessToken := Get(info, "access_token");
      refreshToken := Get(info, "refresh_token");
      var expiresIn := GetOr(info, "expires_in", Int(DefaultExpiresIn));
      var expiry := AddSeconds(now, expiresIn);
      if expiry.Raised? {
        return Raised(expiry.exc);
      }
      tokenExpiry := Some(IntToString(expiry.value));
      r := Returned(());
    }

    method RefreshToken(net: Net) returns (ok: bool)
      modifies this
      ensures (ok, State()) == Refreshed(client, old(State()), net)
      ensures recordedPosts == old(recordedPosts)
    {
      var response := net.token(RefreshData(client, refreshToken));
      if !IsOk(response) {
        return false;
      }
      var saved := SaveTokens(response.body, net.now);
      ok := saved.Returned?;
    }

    method Authenticate(net: Net) returns (r: Outcome<bool>)
      modifies this
      ensures (r, State()) == AuthSpec(client, old(State()), net)
      ensures recordedPosts == old(recordedPosts)
    {
      var usable := TokenUsable(State(), net.now);
      if usable.Raised? {
        return Raised(AuthFailure(usable.exc.msg));
      }
      if usable.value {
        isAuthenticated := true;
        return Returned(true);
      }
      if Truthy(refreshToken) {
        var ok := RefreshToken(net);
        return Returned(ok);
      }
      var response := net.token(ExchangeData(client, net.code));
      if response.RequestFailed? {
        return Raised(AuthFailure(response.reason));
      }
      if response.status != 200 {
        return Returned(false);
      }
      var saved := SaveTokens(response.body, net.now);
      if saved.Raised? {
        return Raised(AuthFailure(saved.exc.msg));
      }
      isAuthenticated := true;
      r := Returned(true);
    }

    /** `_upload_media`; `attempted` lists the paths an upload request was sent for. */
    method UploadMedia(paths: seq<string>, net: Net) returns (ids: seq<Value>, attempted: seq<string>)
      ensures ids == UploadedIds(accessToken, paths, net)
      ensures attempted == OnDisk(paths, net.onDisk)
    {
      ids, attempted := [], [];
      for i := 0 to |paths|
        invariant ids == UploadedIds(accessToken, paths[..i], net)
        invariant attempted == OnDisk(paths[..i], net.onDisk)
      {
        assert paths[..i + 1][..i] == paths[..i];
        var path := paths[i];
        if !net.onDisk(path) {
          continue;
        }
        attempted := attempted + [path];
        var response := net.upload(path, UploadData(accessToken, path));
        if response.Response? && response.status == 200 && response.body.Dict? {
          var mediaId := Get(response.body, "id");
          if Truthy(mediaId) {
            ids := ids + [mediaId];
          }
        }
      }
      assert paths[..|paths|] == paths;
    }

    /** The request block, past the guards. */
    method Send(kind: Kind, content: string, mediaPaths: seq<string>, net: Net) returns (r: Outcome<Value>, recorded: bool)
      ensures (r, recorded) == Publish(kind, accessToken, content, mediaPaths, net)
    {
      var formatted := ThreadsFormat.FormatContent(content);
      var ids: seq<Value> := [];
      if mediaPaths != [] {
        var attempted;
        ids, attempted := UploadMedia(mediaPaths, net);
      }
      var fields := MediaFields(ids);
      if fields.Raised? {
        return Raised(PostFailure(kind, fields.exc.msg)), false;
      }
      var response := net.send(Url(kind), PostData(formatted, accessToken, fields.value));
      if response.RequestFailed? {
        return Raised(PostFailure(kind, response.reason)), false;
      }
      if response.status != 200 {
        return Returned(FailureData(kind, response.status, response.text)), false;
      }
      if !response.body.Dict? {
        return Raised(PostFailure(kind, NoAttribute(response.body, "get"))), false;
      }
      r, recorded := Returned(SuccessData(kind, Get(response.body, "id"), mediaPaths)), true;
    }

    /** `post_content` (kind `Post`) and `reply_to_thread` (kind `Reply`). */
    method PublishContent(kind: Kind, content: string, mediaPaths: seq<string>, canPost: bool, net: Net) returns (r: Outcome<Value>)
      modifies this
      ensures var p := PublishSpec(client, old(State()), kind, content, mediaPaths, canPost, net);
        r == p.outcome && State() == p.state && recordedPosts == old(recordedPosts) + (if p.recorded then 1 else 0)
    {
      if !canPost {
        return Raised(Exc(ThreadsAPIPostError, "Rate limit exceeded"));
      }
      if !isAuthenticated {
        var ok := Authenticate(net);
        if ok.Raised? {
          return Raised(ok.exc);
        }
        if !ok.value {
          return Raised(Exc(ThreadsAPIAuthError, "Authentication failed"));
        }
      }
      var recorded;
      r, recorded := Send(kind, content, mediaPaths, net);
      if recorded {
        recordedPosts := recordedPosts + 1;
      }
    }

    /** `check_status`: up exactly when the status endpoint answers 200. */
    method CheckStatus(response: Http) returns (up: bool)
      ensures up <==> IsOk(response)
    {
      match response
      case RequestFailed(_) => up := false;
      case Response(status, _, _) => up := status == 200;
    }
  }

  // Properties of authentication.

  /** The constructor trusts any non-empty access token, even one whose expiry has passed. */
  lemma ExpiredTokenTrusted(env: Env, now: int, t: int)
    requires Truthy(GetEnv(env, "THREADS_ACCESS_TOKEN"))
    requires "THREADS_TOKEN_EXPIRY" in env && env["THREADS_TOKEN_EXPIRY"] == IntToString(t) && t <= now
    ensures InitialState(env).authenticated
    ensures TokenUsable(InitialState(env), now) == Returned(false)
  {
    ParseIntRoundTrip(t);
  }

  /** A token that has not expired is reused: logged in, no token request, whatever the endpoint would answer. */
  lemma ReuseNeedsNoRequest(client: Client, st: ApiState, net: Net, other: Net)
    requires TokenUsable(st, net.now) == Returned(true) && other.now == net.now
    ensures AuthSpec(client, st, net) == AuthSpec(client, st, other) == (Returned(true), st.(authenticated := true))
  {
  }

  /**
   * Without a usable token and with a refresh token, `authenticate`
   * returns what the refresh returns and does not set the login flag even
   * when the refresh succeeds.
   */
  lemma RefreshPath(client: Client, st: ApiState, net: Net)
    requires TokenUsable(st, net.now) == Returned(false) && Truthy(st.refresh)
    ensures AuthSpec(client, st, net).0 == Returned(Refreshed(client, st, net).0)
    ensures AuthSpec(client, st, net).1.authenticated == st.authenticated
  {
    assert AuthSpec(client, st, net).1 == Refreshed(client, st, net).1;
  }

  /**
   * A refresh succeeds exactly when the endpoint answers 200 with a dict
   * whose `expires_in` is absent or a number; it never changes the login
   * flag.
   */
  lemma RefreshOutcome(client: Client, st: ApiState, net: Net)
    ensures var response := net.token(RefreshData(client, st.refresh));
      && (Refreshed(client, st, net).0 <==>
            IsOk(response) && response.body.Dict?
            && (GetOr(response.body, "expires_in", Int(DefaultExpiresIn)).Int? || GetOr(response.body, "expires_in", Int(DefaultExpiresIn)).Bool?))
      && Refreshed(client, st, net).1.authenticated == st.authenticated
  {
  }

  /**
   * With neither a usable token nor a refresh token, `authenticate` is the
   * code exchange; it logs in exactly when it returns true, which needs a
   * 200 from the token endpoint.
   */
  lemma ManualPath(client: Client, st: ApiState, net: Net)
    requires TokenUsable(st, net.now) == Returned(false) && !Truthy(st.refresh)
    ensures var r := AuthSpec(client, st, net);
      && (r.0 == Returned(true) ==> IsOk(net.token(ExchangeData(client, net.code))) && r.1.authenticated)
      && (r.0 != Returned(true) ==> r.1.authenticated == st.authenticated)
  {
  }

  /** Saving overwrites both tokens and, without `expires_in`, sets the expiry an hour ahead. */
  lemma SavedTokens(st: ApiState, info: Value, now: int)
    requires info.Dict? && !Has(info, "expires_in")
    ensures SaveSpec(st, info, now) ==
      (Returned(()), st.(access := Get(info, "access_token"), refresh := Get(info, "refresh_token"),
                         expiry := Some(IntToString(now + DefaultExpiresIn))))
  {
  }

  /**
   * A saved token is reused afterwards exactly while the clock is before
   * the save time plus `expires_in` (and the saved access token is
   * non-empty): the expiry written reads back as that instant.
   */
  lemma SavedTokenReused(st: ApiState, info: Value, now: int, secs: int, later: int)
    requires info.Dict? && GetOr(info, "expires_in", Int(DefaultExpiresIn)) == Int(secs)
    ensures SaveSpec(st, info, now).0 == Returned(())
    ensures TokenUsable(SaveSpec(st, info, now).1, later) == Returned(Truthy(Get(info, "access_token")) && now + secs > later)
  {
    var t := IntToString(now + secs);
    ParseIntRoundTrip(now + secs);
    assert |t| >= 1;
    assert AddSeconds(now, Int(secs)) == Returned(now + secs);
    var saved := SaveSpec(st, info, now).1;
    assert saved.access == Get(info, "access_token") && saved.expiry == Some(t);
    assert ParseTime(t) == Returned(now + secs);
  }

  // Properties of posting.

  /**
   * The rate limiter is asked first: a refusal raises before any login or
   * request; then a failed login raises `ThreadsAPIAuthError`. Neither
   * records a post.
   */
  lemma PublishGuardOrder(client: Client, st: ApiState, kind: Kind, content: string, mediaPaths: seq<string>, canPost: bool, net: Net)
    ensures var p := PublishSpec(client, st, kind, content, mediaPaths, canPost, net);
      && (!canPost ==> p == Posting(Raised(Exc(ThreadsAPIPostError, "Rate limit exceeded")), st, false))
      && (canPost && !st.authenticated && AuthSpec(client, st, net).0 == Returned(false) ==>
            p == Posting(Raised(Exc(ThreadsAPIAuthError, "Authentication failed")), AuthSpec(client, st, net).1, false))
      && (canPost && !st.authenticated && AuthSpec(client, st, net).0.Raised? ==>
            p.outcome.Raised? && p.outcome.exc.kind == ThreadsAPIAuthError && !p.recorded)
  {
  }

  /**
   * `record_post` is called exactly when the request answered 200 with a
   * dict body; the result then reports success and as `media_count` the
   * number of paths asked for. Any other status reports failure and
   * records nothing.
   */
  lemma PublishRecords(kind: Kind, access: Value, content: string, mediaPaths: seq<string>, net: Net)
    ensures var p := Publish(kind, access, content, mediaPaths, net);
      && (p.1 ==> p.0.Returned? && Get(p.0.value, "success") == Bool(true) && Get(p.0.value, "media_count") == Int(|mediaPaths|))
      && (p.0.Returned? && Get(p.0.value, "success") == Bool(true) ==> p.1)
      && (p.0.Returned? && Get(p.0.value, "success") == Bool(false) ==> !p.1)
  {
  }

  /** A post records only when the rate limiter admitted it and its request block recorded. */
  lemma PublishSpecRecords(client: Client, st: ApiState, kind: Kind, content: string, mediaPaths: seq<string>, canPost: bool, net: Net)
    ensures var p := PublishSpec(client, st, kind, content, mediaPaths, canPost, net);
      p.recorded <==> canPost && p.outcome.Returned? && Get(p.outcome.value, "success") == Bool(true)
  {
    if canPost {
      var auth := if st.authenticated then (Returned(true), st) else AuthSpec(client, st, net);
      if auth.0 == Returned(true) {
        PublishRecords(kind, auth.1.access, content, mediaPaths, net);
      }
    }
  }

  /**
   * A post that logs in through a successful refresh goes ahead, yet
   * leaves the adapter logged out: the next call authenticates again.
   */
  lemma RefreshedPostStaysLoggedOut(client: Client, st: ApiState, kind: Kind, content: string, mediaPaths: seq<string>, net: Net)
    requires !st.authenticated && TokenUsable(st, net.now) == Returned(false) && Truthy(st.refresh)
    requires Refreshed(client, st, net).0
    ensures var p := PublishSpec(client, st, kind, content, mediaPaths, true, net);
      && p.state == Refreshed(client, st, net).1
      && !p.state.authenticated
      && (p.outcome, p.recorded) == Publish(kind, p.state.access, content, mediaPaths, net)
  {
    RefreshPath(client, st, net);
  }

  /** A post with one missing file is recorded with `media_count` 1 although nothing was uploaded. */
  lemma MediaCountCountsPaths(kind: Kind, access: Value, content: string, net: Net)
    requires !net.onDisk("photo.png")
    requires IsOk(net.send(Url(kind), PostData(ThreadsFormat.Formatted(content), access, []))) && net.send(Url(kind), PostData(ThreadsFormat.Formatted(content), access, [])).body.Dict?
    ensures UploadedIds(access, ["photo.png"], net) == []
    ensures var p := Publish(kind, access, content, ["photo.png"], net);
      p.1 && Get(p.0.value, "media_count") == Int(1)
  {
    assert UploadedIds(access, ["photo.png"], net) == UploadedIds(access, [], net) + UploadOne(access, "photo.png", net);
  }
}
