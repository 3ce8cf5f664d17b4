/**
 * The browser-driven Threads adapter: content and media checks, the
 * guards in front of posting, the nested retry around the browser
 * session, and the rate limiter's bookkeeping.
 *
 * The browser is an oracle: `logins(n)` says how the login of the `n`-th
 * posting attempt of a call ends and `browser(n, text)` how its browser
 * session ends. The rate limiter is its admission answer `canPost` and a
 * count of `record_post` calls.
 */
module ThreadsBrowser {
  import opened Py
  import opened Text
  import opened Retry
  import ThreadsFormat
  import ThreadsConfig

  /** How a browser login ends: logged in, the wait for the page failed, or the browser raised before that. */
  datatype Login = LoggedIn | LoginWaitFailed(reason: string) | BrowserError(reason: string)

  /** How a browser session ends: done, or an error before or after its media step. */
  datatype Browse = Completed | FailedBeforeMedia(reason: string) | FailedAfterMedia(reason: string)

  /** What the adapter can learn about files: the size of each existing path and the MIME type guessed from a name. */
  datatype Files = Files(sizes: map<string, nat>, mime: string -> Option<string>)

  /** One posting call's view of the adapter: the login flag, the attempts made and the text each attempt formatted. */
  datatype Session = Session(authenticated: bool, attempts: nat, formatted: seq<string>)

  /** The rate-limiter settings read from the environment. */
  datatype RateLimits = RateLimits(postsPerHour: int, postsPerDay: int, minimumInterval: int, cooldownPeriod: int)

  /** The constructor's `int(os.getenv(name, default))` readings; a non-numeric value raises `ValueError`. */
  function ThreadsRateLimits(env: Env): (r: Outcome<RateLimits>)
    ensures r.Raised? ==> r.exc.kind == ValueError
    ensures r.Returned? ==> r.value.cooldownPeriod == 3600
  {
    match ParseInt(GetEnvOr(env, "THREADS_POSTS_PER_HOUR", "5"))
    case Raised(e) => Raised(e)
    case Returned(perHour) =>
      match ParseInt(GetEnvOr(env, "THREADS_POSTS_PER_DAY", "20"))
      case Raised(e) => Raised(e)
      case Returned(perDay) =>
        match ParseInt(GetEnvOr(env, "THREADS_MIN_INTERVAL", "300"))
        case Raised(e) => Raised(e)
        case Returned(interval) => Returned(RateLimits(perHour, perDay, interval, 3600))
  }

  /** The constructor raises exactly when one of the three variables is set to something that is not an integer literal. */
  lemma RateLimitsRaise(env: Env)
    ensures ThreadsRateLimits(env).Raised? <==>
      || LiteralValue(Strip(GetEnvOr(env, "THREADS_POSTS_PER_HOUR", "5"))).None?
      || LiteralValue(Strip(GetEnvOr(env, "THREADS_POSTS_PER_DAY", "20"))).None?
      || LiteralValue(Strip(GetEnvOr(env, "THREADS_MIN_INTERVAL", "300"))).None?
  {
  }

  lemma ParseDefault(i: nat, t: string)
    requires t == IntToString(i)
    ensures ParseInt(t) == Returned(i)
  {
    ParseIntRoundTrip(i);
  }

  /** The three default strings are the decimal forms of 5, 20 and 300. */
  lemma DefaultLiterals()
    ensures IntToString(5) == "5" && IntToString(20) == "20" && IntToString(300) == "300"
  {
    assert NatToString(2) == "2";
    assert NatToString(20) == NatToString(2) + "0";
    assert NatToString(3) == "3";
    assert NatToString(30) == NatToString(3) + "0";
    assert NatToString(300) == NatToString(30) + "0";
  }

  /** Without the three variables the limits are the defaults, which are the configured rate limits. */
  lemma DefaultRateLimits(env: Env)
    requires "THREADS_POSTS_PER_HOUR" !in env && "THREADS_POSTS_PER_DAY" !in env && "THREADS_MIN_INTERVAL" !in env
    ensures ThreadsRateLimits(env) == Returned(RateLimits(5, 20, 300, 3600))
    ensures Get(ThreadsConfig.GetRateLimits(), "posts_per_hour") == Int(5)
    ensures Get(ThreadsConfig.GetRateLimits(), "posts_per_day") == Int(20)
    ensures Get(ThreadsConfig.GetRateLimits(), "minimum_interval") == Int(300)
    ensures Get(ThreadsConfig.GetRateLimits(), "cooldown_period") == Int(3600)
  {
    assert GetEnvOr(env, "THREADS_POSTS_PER_HOUR", "5") == "5";
    assert GetEnvOr(env, "THREADS_POSTS_PER_DAY", "20") == "20";
    assert GetEnvOr(env, "THREADS_MIN_INTERVAL", "300") == "300";
    DefaultLiterals();
    ParseDefault(5, "5");
    ParseDefault(20, "20");
    ParseDefault(300, "300");
    ThreadsConfig.RateLimitValues();
  }

  /** Whether `BannedWords[k..]` has a word occurring in `lower`. */
  function ContainsBanned(lower: string, words: seq<string>): (r: bool)
    ensures r <==> exists k :: 0 <= k < |words| && Contains(lower, words[k])
  {
    if words == [] then false
    else Contains(lower, words[0]) || ContainsBanned(lower, words[1..])
  }

  /**
   * `_validate_content`: rejects empty or blank text, text over the
   * configured maximum length, and text whose lower-case form contains a
   * banned word; accepts everything else.
   */
  function ValidateContent(content: string): (ok: bool)
    ensures ok <==>
      && Strip(content) != []
      && |content| <= ThreadsConfig.MaxContentLength
      && forall k :: 0 <= k < |ThreadsConfig.BannedWords| ==> !Contains(Lower(content), ThreadsConfig.BannedWords[k])
  {
    if content == [] || Strip(content) == [] then false
    else if |content| > ThreadsConfig.MaxContentLength then false
    else !ContainsBanned(Lower(content), ThreadsConfig.BannedWords)
  }

  /**
   * The type and size tests of `_validate_media` against a rules table:
   * the guessed type must be in `allowed_media_types` and the size must
   * not exceed `max_media_size`. Rules of another shape raise `TypeError`.
   */
  function MediaAgainst(rules: Value, path: string, files: Files): (r: Outcome<bool>)
    requires path in files.sizes
    ensures r.Raised? ==> r.exc.kind == KeyError || r.exc.kind == TypeError
  {
    var mimeType := if files.mime(path).Some? then Str(files.mime(path).value) else Null;
    match Subscript(rules, "allowed_media_types")
    case Raised(e) => Raised(e)
    case Returned(types) =>
      if !types.List? then Raised(Exc(TypeError, "argument of type '" + TypeName(types) + "' is not iterable"))
      else if mimeType !in types.items then Returned(false)
      else
        match Subscript(rules, "max_media_size")
        case Raised(e) => Raised(e)
        case Returned(limit) =>
          if !limit.Int? then Raised(Exc(TypeError, "'>' not supported between instances of 'int' and '" + TypeName(limit) + "'"))
          else Returned(files.sizes[path] <= limit.i)
  }

  /**
   * `_validate_media` reading its rules from a configuration table: a
   * missing file is rejected, and for an existing file the rules are the
   * table's `content_rules` entry.
   */
  function ValidateMediaIn(config: Value, path: string, files: Files): (r: Outcome<bool>)
    ensures path !in files.sizes ==> r == Returned(false)
    ensures r.Raised? ==> r.exc.kind == KeyError || r.exc.kind == TypeError
  {
    if path !in files.sizes then Returned(false)
    else
      match Subscript(config, "content_rules")
      case Raised(e) => Raised(e)
      case Returned(rules) => MediaAgainst(rules, path, files)
  }

  /** `_validate_media` as written: the adapter's table is `get_config()`'s. */
  function ValidateMediaAsWritten(path: string, files: Files): Outcome<bool>
  {
    ValidateMediaIn(ThreadsConfig.GetConfig(), path, files)
  }

  /** As written, media validation raises `KeyError('content_rules')` (message `'content_rules'`) for every file that exists. */
  lemma ValidateMediaFindsNoRules(path: string, files: Files)
    requires path in files.sizes
    ensures ValidateMediaAsWritten(path, files) == Raised(Exc(KeyError, Repr(Str("content_rules"))))
  {
    var config := ThreadsConfig.GetConfig();
    assert Subscript(config, "content_rules") == Raised(Exc(KeyError, Repr(Str("content_rules"))));
  }

  /** A concrete file that shows it: an existing 1 KiB PNG, which the corrected check accepts. */
  lemma ValidateMediaExample()
    ensures var files := Files(map["photo.png" := 1024], p => if p == "photo.png" then Some("image/png") else None);
      ValidateMediaAsWritten("photo.png", files) == Raised(Exc(KeyError, Repr(Str("content_rules")))) && ValidateMedia("photo.png", files)
  {
    var files := Files(map["photo.png" := 1024], p => if p == "photo.png" then Some("image/png") else None);
    ValidateMediaFindsNoRules("photo.png", files);
  }

  lemma StrsMember(x: Value, ss: seq<string>)
    ensures x in ThreadsConfig.Strs(ss).items <==> x.Str? && x.s in ss
    decreases |ss|
  {
    if ss != [] {
      StrsMember(x, ss[1..]);
      assert ThreadsConfig.Strs(ss).items == [Str(ss[0])] + ThreadsConfig.Strs(ss[1..]).items;
      assert ss == [ss[0]] + ss[1..];
    }
  }

  lemma RulesLookups()
    ensures Subscript(ThreadsConfig.GetContentRules(), "allowed_media_types") == Returned(ThreadsConfig.Strs(ThreadsConfig.AllowedMediaTypes))
    ensures Subscript(ThreadsConfig.GetContentRules(), "max_media_size") == Returned(Int(ThreadsConfig.MaxMediaSize))
  {
    ThreadsConfig.RulesMediaTypes();
    ThreadsConfig.RulesMediaSize();
  }

  /**
   * `_validate_media` reading the content rules table it evidently means
   * (`get_content_rules()`): a file passes exactly when it exists, its
   * guessed type is one of image/jpeg, image/png and video/mp4, and it is
   * at most 10 MiB.
   */
  function ValidateMedia(path: string, files: Files): (ok: bool)
    ensures ok <==>
      && path in files.sizes
      && files.mime(path).Some? && files.mime(path).value in ThreadsConfig.AllowedMediaTypes
      && files.sizes[path] <= ThreadsConfig.MaxMediaSize
  {
    RulesLookups();
    StrsMember(if files.mime(path).Some? then Str(files.mime(path).value) else Null, ThreadsConfig.AllowedMediaTypes);
    path in files.sizes && MediaAgainst(ThreadsConfig.GetContentRules(), path, files) == Returned(true)
  }

  /**
   * The corrected check is what the written one does once the table has a
   * `content_rules` entry holding the content rules.
   */
  lemma ValidateMediaIntended(config: Value, path: string, files: Files)
    requires config.Dict? && Lookup(config.entries, "content_rules") == Some(ThreadsConfig.GetContentRules())
    ensures ValidateMediaIn(config, path, files) == Returned(ValidateMedia(path, files))
  {
    if path in files.sizes {
      RulesLookups();
    }
  }

  /** Both checks reject a missing file without raising. */
  lemma ValidateMediaMissing(path: string, files: Files)
    requires path !in files.sizes
    ensures ValidateMediaAsWritten(path, files) == Returned(false) && !ValidateMedia(path, files)
  {
  }

  /** `media_path.lower().endswith(('.jpg', '.jpeg', '.png'))`: the image is optimised first. */
  predicate IsImagePath(path: string)
  {
    var lower := Lower(path);
    EndsWith(lower, ".jpg") || EndsWith(lower, ".jpeg") || EndsWith(lower, ".png")
  }

  predicate HasCredentials(username: Value, password: Value)
  {
    Truthy(username) && Truthy(password)
  }

  /**
   * `authenticate`: false without credentials; otherwise true once the
   * login page leads on, false when the wait for it fails, and a raised
   * `ThreadsAuthenticationError` for any browser error before that.
   */
  function AuthOutcome(hasCredentials: bool, login: Login): (r: Outcome<bool>)
    ensures r == Returned(true) <==> hasCredentials && login.LoggedIn?
    ensures r.Raised? <==> hasCredentials && login.BrowserError?
    ensures r.Raised? ==> r.exc.kind == ThreadsAuthenticationError
  {
    if !hasCredentials then Returned(false)
    else
      match login
      case LoggedIn => Returned(true)
      case LoginWaitFailed(_) => Returned(false)
      case BrowserError(reason) => Raised(Exc(ThreadsAuthenticationError, "Failed to authenticate: " + reason))
  }

  /** The result `_do_post` returns after a completed session. */
  function PostResult(mediaPath: string): Value
  {
    Dict([
      Entry("success", Bool(true)),
      Entry("message", Str("Content posted successfully to Threads")),
      Entry("platform", Str("threads")),
      Entry("has_media", Bool(mediaPath != ""))
    ])
  }

  /** The result `_do_reply` returns after a completed session. */
  function ReplyResult(threadUrl: string, mediaPath: string): Value
  {
    Dict([
      Entry("success", Bool(true)),
      Entry("message", Str("Reply posted successfully")),
      Entry("platform", Str("threads")),
      Entry("type", Str("reply")),
      Entry("parent_url", Str(threadUrl)),
      Entry("has_media", Bool(mediaPath != ""))
    ])
  }

  /**
   * The login step each attempt starts with: nothing when already logged
   * in; otherwise `authenticate()`, whose false becomes a raised
   * "Authentication failed".
   */
  function LoginStep(hasCredentials: bool, logins: nat -> Login, st: Session): (r: (Outcome<bool>, Session))
    ensures r.1 == st.(authenticated := st.authenticated || r.0 == Returned(true))
  {
    if st.authenticated then (Returned(true), st)
    else
      match AuthOutcome(hasCredentials, logins(st.attempts))
      case Raised(e) => (Raised(e), st)
      case Returned(ok) =>
        if ok then (Returned(true), st.(authenticated := true))
        else (Raised(Exc(ThreadsAuthenticationError, "Authentication failed")), st)
  }

  /** One run of `_do_post`'s inner closure, handing the browser `text`, the formatted content. */
  function PostAttempt(hasCredentials: bool, logins: nat -> Login, browser: (nat, string) -> Browse,
                       text: string, mediaPath: string, st: Session): (Outcome<Value>, Session)
  {
    var n := st.attempts;
    var login := LoginStep(hasCredentials, logins, st);
    var st1 := login.1.(attempts := n + 1);
    if login.0.Raised? then (Raised(login.0.exc), st1)
    else
      var st2 := st1.(formatted := st1.formatted + [text]);
      match browser(n, text)
      case Completed => (Returned(PostResult(mediaPath)), st2)
      case FailedBeforeMedia(reason) => (Raised(Exc(ThreadsPostingError, "Failed to post content: " + reason)), st2)
      case FailedAfterMedia(reason) => (Raised(Exc(ThreadsPostingError, "Failed to post content: " + reason)), st2)
  }

  function InnerPost(hasCredentials: bool, logins: nat -> Login, browser: (nat, string) -> Browse,
                     text: string, mediaPath: string): Session -> (Outcome<Value>, Session)
  {
    st => PostAttempt(hasCredentials, logins, browser, text, mediaPath, st)
  }

  /** What a retried run gives its caller: the outcome, or `None` when no attempt was made. */
  function Returning<S>(run: Run<S, Value>): Outcome<Value>
  {
    if run.result.Finished? then run.result.outcome else Returned(Null)
  }

  /** What one `post_content` call does: its outcome, the session it leaves and whether it records a post. */
  datatype Posting = Posting(outcome: Outcome<Value>, session: Session, recorded: bool)

  /** The path handed to the browser: an image is optimised first. */
  function MediaToSend(mediaPath: string, optimize: string -> string): string
  {
    if mediaPath != "" && IsImagePath(mediaPath) then optimize(mediaPath) else mediaPath
  }

  /**
   * What `post_content` makes of the retried call's outcome: it reads
   * `result['success']` (which raises for a result that is no dict or
   * lacks the key) and records a post when that is truthy.
   */
  function AfterPosting(outcome: Outcome<Value>): (r: (Outcome<Value>, bool))
    ensures r.1 ==> r.0 == outcome && outcome.Returned?
    ensures outcome.Raised? ==> r == (outcome, false)
  {
    match outcome
    case Raised(_) => (outcome, false)
    case Returned(v) =>
      match Subscript(v, "success")
      case Raised(e) => (Raised(e), false)
      case Returned(ok) => (outcome, Truthy(ok))
  }

  /**
   * The retried posting call and what follows it: `_do_post` (the
   * attempt under its own retry) under the outer retry, then the success
   * test and the rate limiter's record.
   */
  function PostRun(maxRetries: nat, retryDelay: nat, attempt: Session -> (Outcome<Value>, Session), authenticated: bool): Posting
  {
    Posted(Retried(maxRetries, retryDelay, Nested(maxRetries, retryDelay, attempt, Null),
                   Session(authenticated, 0, [])))
  }

  /** The success check after the retried call; the session is the one the retries leave. */
  function Posted(run: Run<Session, Value>): (p: Posting)
    ensures p.session == run.state
    ensures p.recorded ==> p.outcome == Returning(run) && p.outcome.Returned?
    ensures run.result.Finished? && run.result.outcome.Raised? ==> p.outcome == run.result.outcome && !p.recorded
  {
    var after := AfterPosting(Returning(run));
    Posting(after.0, run.state, after.1)
  }

  /** The part of `post_content` past its guards. */
  method PostPastGuards(config: Value, maxRetries: nat, retryDelay: nat, hasCredentials: bool, authenticated: bool, content: string, mediaPath: string,
                        canPost: bool, files: Files, optimize: string -> string, logins: nat -> Login, browser: (nat, string) -> Browse,
                        text: string, media: string)
    returns (p: Posting)
    requires PostGuard(config, canPost, content, mediaPath, files).None?
    requires text == ThreadsFormat.Formatted(content) && media == MediaToSend(mediaPath, optimize)
    ensures p == PostSpec(config, maxRetries, retryDelay, hasCredentials, authenticated, content, mediaPath, canPost, files, optimize, logins, browser)
  {
    p := RunPosting(maxRetries, retryDelay, InnerPost(hasCredentials, logins, browser, text, media), authenticated);
    PostSpecRuns(config, maxRetries, retryDelay, hasCredentials, authenticated, content, mediaPath, canPost, files, optimize, logins, browser, text, media, p);
  }

  /** Past the guards, `post_content` is the retried posting with the formatted text and the (optimised) media path. */
  lemma PostSpecRuns(config: Value, maxRetries: nat, retryDelay: nat, hasCredentials: bool, authenticated: bool, content: string, mediaPath: string, canPost: bool,
                     files: Files, optimize: string -> string, logins: nat -> Login, browser: (nat, string) -> Browse,
                     text: string, media: string, p: Posting)
    requires PostGuard(config, canPost, content, mediaPath, files).None?
    requires text == ThreadsFormat.Formatted(content) && media == MediaToSend(mediaPath, optimize)
    requires p == PostRun(maxRetries, retryDelay, InnerPost(hasCredentials, logins, browser, text, media), authenticated)
    ensures p == PostSpec(config, maxRetries, retryDelay, hasCredentials, authenticated, content, mediaPath, canPost, files, optimize, logins, browser)
  {
  }

  /** The nested retries and the success check of `post_content`, for any inner step. */
  method RunPosting(maxRetries: nat, retryDelay: nat, attempt: Session -> (Outcome<Value>, Session), authenticated: bool) returns (p: Posting)
    ensures p == PostRun(maxRetries, retryDelay, attempt, authenticated)
  {
    var result, st, outcomes, sleeps := RetryOperation(maxRetries, retryDelay, Nested(maxRetries, retryDelay, attempt, Null),
                                                       Session(authenticated, 0, []));
    PostRunOf(maxRetries, retryDelay, attempt, authenticated, Run(result, st, outcomes, sleeps));
    var r, recorded := CheckSuccess(if result.Finished? then result.outcome else Returned(Null));
    p := Posting(r, st, recorded);
  }

  /** `PostRun` is the success check on the retried run. */
  lemma PostRunOf(maxRetries: nat, retryDelay: nat, attempt: Session -> (Outcome<Value>, Session), authenticated: bool, run: Run<Session, Value>)
    requires run == Retried(maxRetries, retryDelay, Nested(maxRetries, retryDelay, attempt, Null), Session(authenticated, 0, []))
    ensures PostRun(maxRetries, retryDelay, attempt, authenticated) == Posted(run)
  {
  }

  /** The success test after the retries: `result['success']`, recording when it is truthy. */
  method CheckSuccess(outcome: Outcome<Value>) returns (r: Outcome<Value>, recorded: bool)
    ensures (r, recorded) == AfterPosting(outcome)
  {
    r := outcome;
    recorded := false;
    if outcome.Returned? {
      var success := Subscript(outcome.value, "success");
      if success.Raised? {
        r := Raised(success.exc);
      } else {
        recorded := Truthy(success.value);
      }
    }
  }

  /**
   * The media step of both calls, with `config` the adapter's table: no
   * step without a path; otherwise an exception of `_validate_media`
   * propagates and a rejected file is the `ThreadsMediaError`.
   */
  function MediaError(config: Value, mediaPath: string, files: Files): (r: Option<Exc>)
    ensures mediaPath == "" ==> r.None?
    ensures mediaPath != "" && mediaPath !in files.sizes ==> r == Some(Exc(ThreadsMediaError, "Media validation failed"))
    ensures r.Some? ==> r.value.kind == KeyError || r.value.kind == TypeError || r.value.kind == ThreadsMediaError
  {
    if mediaPath == "" then None
    else
      match ValidateMediaIn(config, mediaPath, files)
      case Raised(e) => Some(e)
      case Returned(ok) => if ok then None else Some(Exc(ThreadsMediaError, "Media validation failed"))
  }

  /** A table whose `content_rules` entry is the content rules table, as the media check evidently expects. */
  predicate HasContentRules(config: Value)
  {
    config.Dict? && Lookup(config.entries, "content_rules") == Some(ThreadsConfig.GetContentRules())
  }

  /** As written, every existing file makes the media step raise `KeyError('content_rules')`. */
  lemma MediaErrorAsWritten(mediaPath: string, files: Files)
    requires mediaPath != "" && mediaPath in files.sizes
    ensures MediaError(ThreadsConfig.GetConfig(), mediaPath, files) == Some(Exc(KeyError, Repr(Str("content_rules"))))
  {
    ValidateMediaFindsNoRules(mediaPath, files);
  }

  /** With the content rules in the table, the media step rejects exactly the files the corrected check rejects, and never raises. */
  lemma MediaErrorIntended(config: Value, mediaPath: string, files: Files)
    requires HasContentRules(config)
    ensures MediaError(config, mediaPath, files).None? <==> mediaPath == "" || ValidateMedia(mediaPath, files)
    ensures MediaError(config, mediaPath, files).Some? ==> MediaError(config, mediaPath, files) == Some(Exc(ThreadsMediaError, "Media validation failed"))
  {
    ValidateMediaIntended(config, mediaPath, files);
  }

  /** The error `post_content` raises before posting: its checks in order, the first that fails deciding. */
  function PostGuard(config: Value, canPost: bool, content: string, mediaPath: string, files: Files): Option<Exc>
  {
    if !canPost then Some(Exc(ThreadsPostingError, "Rate limit exceeded"))
    else if !ValidateContent(content) then Some(Exc(ThreadsPostingError, "Content validation failed"))
    else MediaError(config, mediaPath, files)
  }

  /** The checks `post_content` makes before posting, one after the other. */
  method CheckPostGuards(config: Value, canPost: bool, content: string, mediaPath: string, files: Files) returns (error: Option<Exc>)
    ensures error == PostGuard(config, canPost, content, mediaPath, files)
  {
    if !canPost {
      return Some(Exc(ThreadsPostingError, "Rate limit exceeded"));
    }
    if !ValidateContent(content) {
      return Some(Exc(ThreadsPostingError, "Content validation failed"));
    }
    if mediaPath != "" {
      var valid := ValidateMediaIn(config, mediaPath, files);
      if valid.Raised? {
        return Some(valid.exc);
      }
      if !valid.value {
        return Some(Exc(ThreadsMediaError, "Media validation failed"));
      }
    }
    return None;
  }

  /** `post_content`, with `canPost` the rate limiter's answer and `optimize` the image optimiser. */
  function PostSpec(config: Value, maxRetries: nat, retryDelay: nat, hasCredentials: bool, authenticated: bool, content: string, mediaPath: string, canPost: bool,
                    files: Files, optimize: string -> string, logins: nat -> Login, browser: (nat, string) -> Browse): Posting
  {
    match PostGuard(config, canPost, content, mediaPath, files)
    case Some(e) => Posting(Raised(e), Session(authenticated, 0, []), false)
    case None => PostRun(maxRetries, retryDelay, InnerPost(hasCredentials, logins, browser, ThreadsFormat.Formatted(content), MediaToSend(mediaPath, optimize)), authenticated)
  }

  /** One run of `reply_to_thread`'s closure: the media check sits inside the browser session, before the text is formatted. */
  function ReplyAttempt(config: Value, hasCredentials: bool, logins: nat -> Login, browser: (nat, string) -> Browse, files: Files,
                        threadUrl: string, text: string, mediaPath: string, st: Session): (Outcome<Value>, Session)
  {
    var n := st.attempts;
    var login := LoginStep(hasCredentials, logins, st);
    var st1 := login.1.(attempts := n + 1);
    if login.0.Raised? then (Raised(login.0.exc), st1)
    else
      var st2 := st1.(formatted := st1.formatted + [text]);
      match browser(n, text)
      case FailedBeforeMedia(reason) => (Raised(Exc(ThreadsPostingError, "Failed to post reply: " + reason)), st1)
      case FailedAfterMedia(reason) =>
        (match MediaError(config, mediaPath, files)
         case Some(e) => (Raised(Exc(ThreadsPostingError, "Failed to post reply: " + e.msg)), st1)
         case None => (Raised(Exc(ThreadsPostingError, "Failed to post reply: " + reason)), st2))
      case Completed =>
        match MediaError(config, mediaPath, files)
        case Some(e) => (Raised(Exc(ThreadsPostingError, "Failed to post reply: " + e.msg)), st1)
        case None => (Returned(ReplyResult(threadUrl, mediaPath)), st2)
  }

  function ReplyOp(config: Value, hasCredentials: bool, logins: nat -> Login, browser: (nat, string) -> Browse, files: Files,
                   threadUrl: string, text: string, mediaPath: string): Session -> (Outcome<Value>, Session)
  {
    st => ReplyAttempt(config, hasCredentials, logins, browser, files, threadUrl, text, mediaPath, st)
  }

  /** `reply_to_thread`: the rate and content guards, then a single retry; it never records a post. */
  function ReplySpec(config: Value, maxRetries: nat, retryDelay: nat, hasCredentials: bool, authenticated: bool, threadUrl: string, content: string, mediaPath: string,
                     canPost: bool, files: Files, logins: nat -> Login, browser: (nat, string) -> Browse): (Outcome<Value>, Session)
  {
    var idle := Session(authenticated, 0, []);
    if !canPost then (Raised(Exc(ThreadsPostingError, "Rate limit exceeded")), idle)
    else if !ValidateContent(content) then (Raised(Exc(ThreadsPostingError, "Content validation failed")), idle)
    else
      var run := Retried(maxRetries, retryDelay,
                         ReplyOp(config, hasCredentials, logins, browser, files, threadUrl, ThreadsFormat.Formatted(content), mediaPath), idle);
      (Returning(run), run.state)
  }

  /** `check_status`: true exactly when the status page answers 200; `None` stands for a raised request. */
  function CheckStatus(status: Option<int>): (up: bool)
    ensures up <==> status == Some(200)
  {
    match status
    case Some(code) => code == 200
    case None => false
  }

  /** The adapter. */
  class Threads {
    const username: Value
    const password: Value
    const rateLimits: RateLimits
    /** `config['max_retries']` and `config['retry_delay']`. */
    const maxRetries: nat
    const retryDelay: nat
    /** `self.config`, the table `_validate_media` reads its rules from. */
    const config: Value
    var isAuthenticated: bool
    /** How many times `record_post` has been called on the rate limiter. */
    var recordedPosts: nat

    constructor (env: Env, limits: RateLimits)
      requires ThreadsRateLimits(env) == Returned(limits)
      ensures username == GetEnv(env, "INSTAGRAM_USERNAME") && password == GetEnv(env, "INSTAGRAM_PASSWORD")
      ensures rateLimits == limits
      ensures maxRetries == ThreadsConfig.MaxRetries && retryDelay == ThreadsConfig.RetryDelay
      ensures config == ThreadsConfig.GetConfig()
      ensures !isAuthenticated && recordedPosts == 0
    {
      config := ThreadsConfig.GetConfig();
      maxRetries := ThreadsConfig.MaxRetries;
      retryDelay := ThreadsConfig.RetryDelay;
      username := GetEnv(env, "INSTAGRAM_USERNAME");
      password := GetEnv(env, "INSTAGRAM_PASSWORD");
      rateLimits := limits;
      isAuthenticated := false;
      recordedPosts := 0;
    }

    method Authenticate(login: Login) returns (r: Outcome<bool>)
      modifies this
      ensures r == AuthOutcome(HasCredentials(username, password), login)
      ensures isAuthenticated == (old(isAuthenticated) || r == Returned(true))
      ensures recordedPosts == old(recordedPosts)
    {
      if !Truthy(username) || !Truthy(password) {
        return Returned(false);
      }
      match login
      case LoggedIn =>
        isAuthenticated := true;
        r := Returned(true);
      case LoginWaitFailed(_) =>
        r := Returned(false);
      case BrowserError(reason) =>
        r := Raised(Exc(ThreadsAuthenticationError, "Failed to authenticate: " + reason));
    }

    /** `post_content`; `attempts` is how many times the inner posting step ran. */
    method PostContent(content: string, mediaPath: string, canPost: bool, files: Files, optimize: string -> string,
                       logins: nat -> Login, browser: (nat, string) -> Browse)
      returns (r: Outcome<Value>, attempts: nat)
      modifies this
      ensures var p := PostSpec(config, maxRetries, retryDelay, HasCredentials(username, password), old(isAuthenticated), content, mediaPath, canPost,
                                files, optimize, logins, browser);
        && r == p.outcome
        && attempts == p.session.attempts
        && isAuthenticated == p.session.authenticated
        && recordedPosts == old(recordedPosts) + (if p.recorded then 1 else 0)
    {
      var hasCredentials := HasCredentials(username, password);
      var spec := PostSpec(config, maxRetries, retryDelay, hasCredentials, isAuthenticated, content, mediaPath, canPost, files, optimize, logins, browser);
      var p: Posting;
      var error := CheckPostGuards(config, canPost, content, mediaPath, files);
      if error.Some? {
        p := Posting(Raised(error.value), Session(isAuthenticated, 0, []), false);
      } else {
        var media := MediaToSend(mediaPath, optimize);
        var text := ThreadsFormat.FormatContent(content);
        p := PostPastGuards(config, maxRetries, retryDelay, hasCredentials, isAuthenticated, content, mediaPath, canPost, files, optimize, logins, browser,
                            text, media);
      }
      assert p == spec;
      r, attempts := p.outcome, p.session.attempts;
      isAuthenticated := p.session.authenticated;
      if p.recorded {
        recordedPosts := recordedPosts + 1;
      }
    }

    /** `reply_to_thread`; `attempts` is how many times the reply step ran. */
    method ReplyToThread(threadUrl: string, content: string, mediaPath: string, canPost: bool, files: Files,
                         logins: nat -> Login, browser: (nat, string) -> Browse)
      returns (r: Outcome<Value>, attempts: nat)
      modifies this
      ensures var p := ReplySpec(config, maxRetries, retryDelay, HasCredentials(username, password), old(isAuthenticated), threadUrl, content, mediaPath,
                                 canPost, files, logins, browser);
        r == p.0 && attempts == p.1.attempts && isAuthenticated == p.1.authenticated
      ensures recordedPosts == old(recordedPosts)
    {
      var idle := Session(isAuthenticated, 0, []);
      if !canPost {
        return Raised(Exc(ThreadsPostingError, "Rate limit exceeded")), 0;
      }
      if !ValidateContent(content) {
        return Raised(Exc(ThreadsPostingError, "Content validation failed")), 0;
      }
      var hasCredentials := Truthy(username) && Truthy(password);
      var text := ThreadsFormat.FormatContent(content);
      var result, st, outcomes, sleeps := RetryOperation(maxRetries, retryDelay,
                                                         ReplyOp(config, hasCredentials, logins, browser, files, threadUrl, text, mediaPath), idle);
      isAuthenticated := st.authenticated;
      attempts := st.attempts;
      r := if result.Finished? then result.outcome else Returned(Null);
    }
  }

  // Properties of posting.

  /**
   * The guards run in order (rate limiter, content, media) and the first
   * that fails raises before any attempt: nothing is retried, the login
   * flag is untouched and nothing is recorded.
   */
  lemma PostGuardOrder(config: Value, maxRetries: nat, retryDelay: nat, hasCredentials: bool, authenticated: bool, content: string, mediaPath: string, canPost: bool,
                       files: Files, optimize: string -> string, logins: nat -> Login, browser: (nat, string) -> Browse)
    ensures var p := PostSpec(config, maxRetries, retryDelay, hasCredentials, authenticated, content, mediaPath, canPost, files, optimize, logins, browser);
      && (!canPost ==> p.outcome == Raised(Exc(ThreadsPostingError, "Rate limit exceeded")))
      && (canPost && !ValidateContent(content) ==> p.outcome == Raised(Exc(ThreadsPostingError, "Content validation failed")))
      && (canPost && ValidateContent(content) && MediaError(config, mediaPath, files).Some? ==>
            p.outcome == Raised(MediaError(config, mediaPath, files).value))
      && (PostGuard(config, canPost, content, mediaPath, files).Some? <==>
            !canPost || !ValidateContent(content) || MediaError(config, mediaPath, files).Some?)
      && (PostGuard(config, canPost, content, mediaPath, files).Some? ==> p.session == Session(authenticated, 0, []) && !p.recorded)
  {
  }

  /** How many inner attempts a session has seen. */
  function Attempts(st: Session): int
  {
    st.attempts
  }

  /** Each inner attempt counts one attempt. */
  lemma InnerPostCounts(hasCredentials: bool, logins: nat -> Login, browser: (nat, string) -> Browse, text: string, mediaPath: string)
    ensures forall x :: InnerPost(hasCredentials, logins, browser, text, mediaPath)(x).1.attempts == x.attempts + 1
  {
  }

  /**
   * Because `post_content` retries `_do_post`, which retries its inner
   * step, one call runs the inner step at most `max_retries²` times (9
   * with the configured 3), and at least once when it gets past the guards.
   */
  lemma PostAttemptsBound(config: Value, maxRetries: nat, retryDelay: nat, hasCredentials: bool, authenticated: bool, content: string, mediaPath: string, canPost: bool,
                          files: Files, optimize: string -> string, logins: nat -> Login, browser: (nat, string) -> Browse)
    ensures var p := PostSpec(config, maxRetries, retryDelay, hasCredentials, authenticated, content, mediaPath, canPost, files, optimize, logins, browser);
      && p.session.attempts <= maxRetries * maxRetries
      && (PostGuard(config, canPost, content, mediaPath, files).None? && maxRetries >= 1 ==> p.session.attempts >= 1)
  {
    PostAttemptsAtMost(config, maxRetries, retryDelay, hasCredentials, authenticated, content, mediaPath, canPost, files, optimize, logins, browser);
    if PostGuard(config, canPost, content, mediaPath, files).None? && maxRetries >= 1 {
      PostAttemptsAtLeast(config, maxRetries, retryDelay, hasCredentials, authenticated, content, mediaPath, canPost, files, optimize, logins, browser);
    }
  }

  lemma PostAttemptsAtMost(config: Value, maxRetries: nat, retryDelay: nat, hasCredentials: bool, authenticated: bool, content: string, mediaPath: string, canPost: bool,
                           files: Files, optimize: string -> string, logins: nat -> Login, browser: (nat, string) -> Browse)
    ensures PostSpec(config, maxRetries, retryDelay, hasCredentials, authenticated, content, mediaPath, canPost, files, optimize, logins, browser).session.attempts
      <= maxRetries * maxRetries
  {
    if PostGuard(config, canPost, content, mediaPath, files).None? {
      var text, media := ThreadsFormat.Formatted(content), MediaToSend(mediaPath, optimize);
      InnerPostCounts(hasCredentials, logins, browser, text, media);
      RunAttemptsAtMost(maxRetries, retryDelay, InnerPost(hasCredentials, logins, browser, text, media), authenticated);
    } else {
      assert maxRetries * maxRetries >= 0;
    }
  }

  lemma PostAttemptsAtLeast(config: Value, maxRetries: nat, retryDelay: nat, hasCredentials: bool, authenticated: bool, content: string, mediaPath: string,
                            canPost: bool, files: Files, optimize: string -> string, logins: nat -> Login, browser: (nat, string) -> Browse)
    requires maxRetries >= 1 && PostGuard(config, canPost, content, mediaPath, files).None?
    ensures PostSpec(config, maxRetries, retryDelay, hasCredentials, authenticated, content, mediaPath, canPost, files, optimize, logins, browser).session.attempts >= 1
  {
    var text, media := ThreadsFormat.Formatted(content), MediaToSend(mediaPath, optimize);
    InnerPostCounts(hasCredentials, logins, browser, text, media);
    RunAttemptsAtLeast(maxRetries, retryDelay, InnerPost(hasCredentials, logins, browser, text, media), authenticated);
  }

  /** The nested retries of a step that counts one attempt each run it at most `max_retries²` times... */
  lemma RunAttemptsAtMost(maxRetries: nat, retryDelay: nat, inner: Session -> (Outcome<Value>, Session), authenticated: bool)
    requires forall x :: inner(x).1.attempts == x.attempts + 1
    ensures PostRun(maxRetries, retryDelay, inner, authenticated).session.attempts <= maxRetries * maxRetries
  {
    var start := Session(authenticated, 0, []);
    if maxRetries >= 1 {
      NestedCounts(maxRetries, retryDelay, inner, Null, Attempts, start);
    } else {
      NoRetriesAllowed(retryDelay, Nested(maxRetries, retryDelay, inner, Null), start);
    }
  }

  /** ... and, given a retry, at least once. */
  lemma RunAttemptsAtLeast(maxRetries: nat, retryDelay: nat, inner: Session -> (Outcome<Value>, Session), authenticated: bool)
    requires maxRetries >= 1
    requires forall x :: inner(x).1.attempts == x.attempts + 1
    ensures PostRun(maxRetries, retryDelay, inner, authenticated).session.attempts >= 1
  {
    NestedCounts(maxRetries, retryDelay, inner, Null, Attempts, Session(authenticated, 0, []));
  }

  /** When the browser session keeps failing, every inner attempt raises a retryable error. */
  lemma FailingBrowserRetryable(hasCredentials: bool, logins: nat -> Login, browser: (nat, string) -> Browse, text: string, mediaPath: string)
    requires forall n, t :: !browser(n, t).Completed?
    ensures forall x :: (Retryable(InnerPost(hasCredentials, logins, browser, text, mediaPath)(x).0)
                          && InnerPost(hasCredentials, logins, browser, text, mediaPath)(x).1.attempts == x.attempts + 1)
  {
  }

  /**
   * The bound is reached: when the browser session always fails, a call
   * that passes the guards runs the inner step exactly `max_retries²` times, the
   * last posting or authentication error propagates and nothing is
   * recorded.
   */
  lemma PostAttemptsReachBound(config: Value, maxRetries: nat, retryDelay: nat, hasCredentials: bool, authenticated: bool, content: string, mediaPath: string,
                               files: Files, optimize: string -> string, logins: nat -> Login, browser: (nat, string) -> Browse)
    requires maxRetries >= 1
    requires ValidateContent(content) && MediaError(config, mediaPath, files).None?
    requires forall n, t :: !browser(n, t).Completed?
    ensures var p := PostSpec(config, maxRetries, retryDelay, hasCredentials, authenticated, content, mediaPath, true, files, optimize, logins, browser);
      p.session.attempts == maxRetries * maxRetries && Retryable(p.outcome) && !p.recorded
  {
    FailingBrowserRetryable(hasCredentials, logins, browser, ThreadsFormat.Formatted(content), MediaToSend(mediaPath, optimize));
    NestedExhausted(maxRetries, retryDelay, InnerPost(hasCredentials, logins, browser, ThreadsFormat.Formatted(content), MediaToSend(mediaPath, optimize)), Null, Attempts, Session(authenticated, 0, []));
  }

  /** Every text handed to the browser so far is `text`. */
  predicate AllSent(text: string, st: Session)
  {
    forall k :: 0 <= k < |st.formatted| ==> st.formatted[k] == text
  }

  /** `AllSent` as a test on sessions. */
  function SentOnly(text: string): Session -> bool
  {
    st => AllSent(text, st)
  }

  lemma InnerPostSends(hasCredentials: bool, logins: nat -> Login, browser: (nat, string) -> Browse, text: string, mediaPath: string)
    ensures forall x :: SentOnly(text)(x) ==> SentOnly(text)(InnerPost(hasCredentials, logins, browser, text, mediaPath)(x).1)
  {
    forall x | AllSent(text, x)
      ensures AllSent(text, InnerPost(hasCredentials, logins, browser, text, mediaPath)(x).1)
    {
      var st := InnerPost(hasCredentials, logins, browser, text, mediaPath)(x).1;
      assert st.formatted == x.formatted || st.formatted == x.formatted + [text];
    }
  }

  /** Every text handed to the browser is the formatter's output for the content, so it is at most 500 characters. */
  lemma PostSendsFormatted(config: Value, maxRetries: nat, retryDelay: nat, hasCredentials: bool, authenticated: bool, content: string, mediaPath: string, canPost: bool,
                           files: Files, optimize: string -> string, logins: nat -> Login, browser: (nat, string) -> Browse)
    ensures var p := PostSpec(config, maxRetries, retryDelay, hasCredentials, authenticated, content, mediaPath, canPost, files, optimize, logins, browser);
      forall k :: 0 <= k < |p.session.formatted| ==>
        p.session.formatted[k] == ThreadsFormat.Formatted(content) && |p.session.formatted[k]| <= ThreadsFormat.MaxFormatted
  {
    var text := ThreadsFormat.Formatted(content);
    if PostGuard(config, canPost, content, mediaPath, files).None? {
      RunSendsOnly(maxRetries, retryDelay, hasCredentials, authenticated, logins, browser, text, MediaToSend(mediaPath, optimize));
    }
  }

  /** The retried posting hands the browser nothing but `text`. */
  lemma RunSendsOnly(maxRetries: nat, retryDelay: nat, hasCredentials: bool, authenticated: bool, logins: nat -> Login, browser: (nat, string) -> Browse,
                     text: string, media: string)
    ensures AllSent(text, PostRun(maxRetries, retryDelay, InnerPost(hasCredentials, logins, browser, text, media), authenticated).session)
  {
    var inner := InnerPost(hasCredentials, logins, browser, text, media);
    var start := Session(authenticated, 0, []);
    InnerPostSends(hasCredentials, logins, browser, text, media);
    NestedPreserves(maxRetries, retryDelay, inner, Null, SentOnly(text), start);
  }

  /** A posting attempt either raises or returns the fixed success result. */
  predicate RaisedOrPosted(media: string, o: Outcome<Value>)
  {
    o.Raised? || o == Returned(PostResult(media))
  }

  /** `RaisedOrPosted` as a test on outcomes. */
  function PostedBy(media: string): Outcome<Value> -> bool
  {
    o => RaisedOrPosted(media, o)
  }

  lemma InnerPostResults(hasCredentials: bool, logins: nat -> Login, browser: (nat, string) -> Browse, text: string, media: string)
    ensures forall x :: PostedBy(media)(InnerPost(hasCredentials, logins, browser, text, media)(x).0)
  {
    forall x ensures RaisedOrPosted(media, InnerPost(hasCredentials, logins, browser, text, media)(x).0) {
    }
  }

  /** A call records a post exactly when it returns, and it returns only the success result. */
  predicate RecordsExactlySuccess(p: Posting, media: string)
  {
    (p.recorded <==> p.outcome.Returned?) && (p.recorded <==> p.outcome == Returned(PostResult(media)))
  }

  /** Once the retries end in an error or the success result (or make no attempt), the result is recorded exactly when it is returned. */
  lemma PostedRecords(run: Run<Session, Value>, media: string)
    requires run.result.Finished? ==> RaisedOrPosted(media, run.result.outcome)
    ensures RecordsExactlySuccess(Posted(run), media)
  {
    if run.result.Finished? {
      PostResultRecorded(media, run.result.outcome);
    } else {
      PostedNoAttempts(run);
    }
  }

  /** When no attempt ran, the wrapper's `None` fails the success test with a `TypeError`; nothing is recorded. */
  lemma PostedNoAttempts(run: Run<Session, Value>)
    requires run.result.NoAttempts?
    ensures Posted(run).outcome.Raised? && Posted(run).outcome.exc.kind == TypeError && !Posted(run).recorded
  {
    assert Subscript(Null, "success").Raised?;
  }

  /** The success result passes the success test, so it is recorded and returned as it is; an error is neither. */
  lemma PostResultRecorded(media: string, o: Outcome<Value>)
    requires RaisedOrPosted(media, o)
    ensures AfterPosting(o) == (o, o.Returned?)
  {
    if o.Returned? {
      assert Subscript(PostResult(media), "success") == Returned(Bool(true));
    }
  }

  /**
   * A post is recorded with the rate limiter exactly when the call
   * returns, and what it returns is the fixed success result.
   */
  lemma PostRecordsOnSuccess(config: Value, maxRetries: nat, retryDelay: nat, hasCredentials: bool, authenticated: bool, content: string, mediaPath: string, canPost: bool,
                             files: Files, optimize: string -> string, logins: nat -> Login, browser: (nat, string) -> Browse)
    ensures RecordsExactlySuccess(PostSpec(config, maxRetries, retryDelay, hasCredentials, authenticated, content, mediaPath, canPost, files, optimize, logins, browser),
                                  MediaToSend(mediaPath, optimize))
  {
    if PostGuard(config, canPost, content, mediaPath, files).None? {
      InnerPostResults(hasCredentials, logins, browser, ThreadsFormat.Formatted(content), MediaToSend(mediaPath, optimize));
      PostRunRecords(maxRetries, retryDelay, InnerPost(hasCredentials, logins, browser, ThreadsFormat.Formatted(content), MediaToSend(mediaPath, optimize)),
                     MediaToSend(mediaPath, optimize), authenticated);
    }
  }

  lemma PostRunRecords(maxRetries: nat, retryDelay: nat, attempt: Session -> (Outcome<Value>, Session), media: string, authenticated: bool)
    requires forall x :: PostedBy(media)(attempt(x).0)
    ensures RecordsExactlySuccess(PostRun(maxRetries, retryDelay, attempt, authenticated), media)
  {
    var run := Retried(maxRetries, retryDelay, Nested(maxRetries, retryDelay, attempt, Null), Session(authenticated, 0, []));
    NestedOutcomesIfFinished(maxRetries, retryDelay, attempt, Null, PostedBy(media), Session(authenticated, 0, []));
    PostedRecords(run, media);
  }

  /**
   * `post_content` stops at a failed media step before any attempt: the
   * `ThreadsMediaError` of a rejected file, or the exception the check
   * raised, neither of which is retried.
   */
  lemma PostMediaErrorNotRetried(config: Value, maxRetries: nat, retryDelay: nat, hasCredentials: bool, authenticated: bool, content: string, mediaPath: string,
                                 files: Files, optimize: string -> string, logins: nat -> Login, browser: (nat, string) -> Browse)
    requires ValidateContent(content) && MediaError(config, mediaPath, files).Some?
    ensures var p := PostSpec(config, maxRetries, retryDelay, hasCredentials, authenticated, content, mediaPath, true, files, optimize, logins, browser);
      && p.outcome == Raised(MediaError(config, mediaPath, files).value) && !Retryable(p.outcome)
      && p.session == Session(authenticated, 0, []) && !p.recorded
  {
  }

  /**
   * As written (the adapter's table has no `content_rules`), any existing
   * media file makes `post_content` raise `KeyError('content_rules')`
   * before any attempt, so no post with media is ever made.
   */
  lemma PostAsWrittenMediaKeyError(maxRetries: nat, retryDelay: nat, hasCredentials: bool, authenticated: bool, content: string, mediaPath: string,
                                   files: Files, optimize: string -> string, logins: nat -> Login, browser: (nat, string) -> Browse)
    requires ValidateContent(content) && mediaPath != "" && mediaPath in files.sizes
    ensures var p := PostSpec(ThreadsConfig.GetConfig(), maxRetries, retryDelay, hasCredentials, authenticated, content, mediaPath, true, files, optimize,
                              logins, browser);
      && p.outcome == Raised(Exc(KeyError, Repr(Str("content_rules"))))
      && p.session.attempts == 0 && !p.recorded
  {
    MediaErrorAsWritten(mediaPath, files);
  }

  /** With the content rules in the table, the guards are the rate limiter, the content check and the corrected media check. */
  lemma PostGuardIntended(config: Value, canPost: bool, content: string, mediaPath: string, files: Files)
    requires HasContentRules(config)
    ensures PostGuard(config, canPost, content, mediaPath, files).None? <==>
      canPost && ValidateContent(content) && (mediaPath == "" || ValidateMedia(mediaPath, files))
    ensures canPost && ValidateContent(content) && mediaPath != "" && !ValidateMedia(mediaPath, files) ==>
      PostGuard(config, canPost, content, mediaPath, files) == Some(Exc(ThreadsMediaError, "Media validation failed"))
  {
    MediaErrorIntended(config, mediaPath, files);
  }

  // Properties of replying.

  /** A reply passes the same two guards first. */
  lemma ReplyGuardOrder(config: Value, maxRetries: nat, retryDelay: nat, hasCredentials: bool, authenticated: bool, threadUrl: string, content: string, mediaPath: string,
                        canPost: bool, files: Files, logins: nat -> Login, browser: (nat, string) -> Browse)
    ensures var p := ReplySpec(config, maxRetries, retryDelay, hasCredentials, authenticated, threadUrl, content, mediaPath, canPost, files, logins, browser);
      && (!canPost ==> p.0 == Raised(Exc(ThreadsPostingError, "Rate limit exceeded")))
      && (canPost && !ValidateContent(content) ==> p.0 == Raised(Exc(ThreadsPostingError, "Content validation failed")))
      && (!canPost || !ValidateContent(content) ==> p.1 == Session(authenticated, 0, []))
  {
  }

  /** The reply error for a failed media step: the step's message behind `Failed to post reply: `. */
  function ReplyMediaFailure(config: Value, mediaPath: string, files: Files): Outcome<Value>
    requires MediaError(config, mediaPath, files).Some?
  {
    Raised(Exc(ThreadsPostingError, "Failed to post reply: " + MediaError(config, mediaPath, files).value.msg))
  }

  lemma ReplyMediaStep(config: Value, authenticated: bool, threadUrl: string, text: string, mediaPath: string, files: Files,
                       logins: nat -> Login, browser: (nat, string) -> Browse)
    requires MediaError(config, mediaPath, files).Some?
    requires forall n, t :: !browser(n, t).FailedBeforeMedia?
    requires forall n :: logins(n) == LoggedIn
    ensures forall x :: ReplyOp(config, true, logins, browser, files, threadUrl, text, mediaPath)(x).0 == ReplyMediaFailure(config, mediaPath, files)
    ensures forall x :: ReplyOp(config, true, logins, browser, files, threadUrl, text, mediaPath)(x).1.attempts == x.attempts + 1
  {
  }

  /**
   * In a reply, a failed media step is caught inside the session and
   * re-raised as a posting error, so it is retried: with a session that
   * reaches the media step, all `max_retries` attempts fail on it.
   */
  lemma ReplyRetriesMediaError(config: Value, maxRetries: nat, retryDelay: nat, authenticated: bool, threadUrl: string, content: string, mediaPath: string,
                               files: Files, logins: nat -> Login, browser: (nat, string) -> Browse)
    requires maxRetries >= 1
    requires ValidateContent(content) && MediaError(config, mediaPath, files).Some?
    requires forall n, t :: !browser(n, t).FailedBeforeMedia?
    requires forall n :: logins(n) == LoggedIn
    ensures var p := ReplySpec(config, maxRetries, retryDelay, true, authenticated, threadUrl, content, mediaPath, true, files, logins, browser);
      p.0 == ReplyMediaFailure(config, mediaPath, files) && p.1.attempts == maxRetries
  {
    var op := ReplyOp(config, true, logins, browser, files, threadUrl, ThreadsFormat.Formatted(content), mediaPath);
    var idle := Session(authenticated, 0, []);
    var bad := ReplyMediaFailure(config, mediaPath, files);
    ReplyMediaStep(config, authenticated, threadUrl, ThreadsFormat.Formatted(content), mediaPath, files, logins, browser);
    AlwaysRetryableCounts(maxRetries, retryDelay, op, Attempts, 1, idle);
    RetryLength(maxRetries, retryDelay, op, idle, 0);
    RetryOutcomesFrom(maxRetries, retryDelay, op, (o: Outcome<Value>) => o == bad, idle, 0);
  }

  /**
   * As written, a reply with an existing media file never succeeds: once a
   * session reaches the media step, every attempt fails with
   * `Failed to post reply: 'content_rules'` and all `max_retries` are spent.
   */
  lemma ReplyAsWrittenMediaFails(maxRetries: nat, retryDelay: nat, authenticated: bool, threadUrl: string, content: string, mediaPath: string,
                                 files: Files, logins: nat -> Login, browser: (nat, string) -> Browse)
    requires maxRetries >= 1
    requires ValidateContent(content) && mediaPath != "" && mediaPath in files.sizes
    requires forall n, t :: !browser(n, t).FailedBeforeMedia?
    requires forall n :: logins(n) == LoggedIn
    ensures var p := ReplySpec(ThreadsConfig.GetConfig(), maxRetries, retryDelay, true, authenticated, threadUrl, content, mediaPath, true, files,
                               logins, browser);
      p.0 == Raised(Exc(ThreadsPostingError, "Failed to post reply: " + Repr(Str("content_rules")))) && p.1.attempts == maxRetries
  {
    MediaErrorAsWritten(mediaPath, files);
    ReplyRetriesMediaError(ThreadsConfig.GetConfig(), maxRetries, retryDelay, authenticated, threadUrl, content, mediaPath, files, logins, browser);
  }
}
