/**
 * The LinkedIn posting tool: the normalisation of its input, the session
 * cookies and the headers built from them, the refresh of those cookies
 * from a `Set-Cookie` header, and the guards and database calls of a post.
 *
 * `json.loads` is an oracle (`None` for a `JSONDecodeError`); the
 * database and the HTTP calls are oracles too, and every database call
 * a post makes is reported in order.
 */
module LinkedIn {
  import opened Py
  import opened Text
  import opened Web

  const PostCharLimit := 3000
  const BaseUrl := "https://www.linkedin.com"

  // ---------------------------------------------------------------- input

  /** The `json.loads` step: a string is parsed, with a nested JSON `content` string parsed too; other values pass. */
  function Decoded(v: Value, parse: string -> Option<Value>): (r: Outcome<Value>)
    ensures r.Raised? ==> r.exc.kind == AttributeError
  {
    match v
    case Str(s) =>
      (match parse(s)
       case None => Returned(Dict([Entry("text", v)]))
       case Some(p) =>
         if !p.Dict? then Raised(Exc(AttributeError, NoAttribute(p, "get")))
         else
           var c := Get(p, "content");
           if c.Str? && parse(c.s).Some? then Returned(Dict(Assign(p.entries, "content", parse(c.s).value)))
           else Returned(p))
    case _ => Returned(v)
  }

  /** The text-extraction step on a dict: `text` kept, a nested `text` lifted, `content` or `message` wrapped. */
  function Extracted(v: Value): (r: Outcome<Value>)
    ensures r.Returned? ==> r.value.Dict? && Has(r.value, "text")
    ensures r.Raised? ==> r.exc.kind == ValueError
  {
    if !v.Dict? then Raised(Exc(ValueError, "Content must be a dictionary or valid JSON string"))
    else if Has(v, "text") then Returned(v)
    else
      var c := Get(v, "content");
      if Has(v, "content") && c.Dict? && Has(c, "text") then Returned(TextOnly(Get(c, "text")))
      else if Has(v, "content") || Has(v, "message") then
        var post := if Truthy(c) then c else Get(v, "message");
        if post.Dict? && Has(post, "text") then Returned(TextOnly(Get(post, "text")))
        else Returned(TextOnly(Str(PyStr(post))))
      else Raised(Exc(ValueError, "Content dictionary must contain 'text' key"))
  }

  /** `{'text': t}`. */
  function TextOnly(t: Value): (r: Value)
    ensures r.Dict? && Has(r, "text") && Get(r, "text") == t
  {
    Dict([Entry("text", t)])
  }

  /**
   * `LinkedInPosterSchema.validate_content`: whatever it accepts is a
   * dict with a `text` key; it rejects with `ValueError`, or lets the
   * `AttributeError` of `.get` on parsed JSON that is not an object escape.
   */
  function ValidateContent(v: Value, parse: string -> Option<Value>): (r: Outcome<Value>)
    ensures r.Returned? ==> r.value.Dict? && Has(r.value, "text")
    ensures r.Raised? ==> r.exc.kind == ValueError || r.exc.kind == AttributeError
  {
    var d := Decoded(v, parse);
    if d.Raised? then d else Extracted(d.value)
  }

  /** A string that is not JSON becomes its own `text`. */
  lemma NotJsonWrapped(s: string, parse: string -> Option<Value>)
    requires parse(s) == None
    ensures ValidateContent(Str(s), parse) == Returned(TextOnly(Str(s)))
  {
  }

  /** A dict with `text` passes unchanged, and a string that parses to one passes as parsed (nested `content` decoded). */
  lemma TextKept(v: Value, parse: string -> Option<Value>)
    requires v.Dict? && Has(v, "text")
    ensures ValidateContent(v, parse) == Returned(v)
  {
  }

  /**
   * A JSON string whose `content` is itself a JSON object with `text`
   * gives that text, the two decodings composed.
   */
  lemma NestedJsonLifted(s: string, c: string, t: Value, parse: string -> Option<Value>)
    requires parse(s).Some? && parse(s).value.Dict?
    requires !Has(parse(s).value, "text") && Get(parse(s).value, "content") == Str(c)
    requires parse(c).Some? && parse(c).value.Dict? && Has(parse(c).value, "text") && Get(parse(c).value, "text") == t
    ensures ValidateContent(Str(s), parse) == Returned(TextOnly(t))
  {
    var p := parse(s).value;
    var updated := Dict(Assign(p.entries, "content", parse(c).value));
    assert Decoded(Str(s), parse) == Returned(updated);
    assert Lookup(updated.entries, "text") == Lookup(p.entries, "text");
    assert Get(updated, "content") == parse(c).value;
  }

  /**
   * Without `text`: a nested dict `content` with `text` is lifted; failing
   * that, `content` (or `message` when `content` is falsy) becomes the
   * text, as its own `text` or as `str()` of it; with neither key,
   * `ValueError`.
   */
  lemma ExtractionCases(v: Value)
    requires v.Dict? && !Has(v, "text")
    ensures var c, m := Get(v, "content"), Get(v, "message");
      var post := if Truthy(c) then c else m;
      && (c.Dict? && Has(c, "text") ==> Extracted(v) == Returned(TextOnly(Get(c, "text"))))
      && (!(c.Dict? && Has(c, "text")) && (Has(v, "content") || Has(v, "message")) ==>
            Extracted(v) == Returned(TextOnly(if post.Dict? && Has(post, "text") then Get(post, "text") else Str(PyStr(post)))))
      && (!Has(v, "content") && !Has(v, "message") ==>
            Extracted(v) == Raised(Exc(ValueError, "Content dictionary must contain 'text' key")))
  {
    if Get(v, "content").Dict? {
      assert Has(v, "content");
    }
  }

  /** Neither a dict nor a string: rejected. */
  lemma OtherInputRejected(v: Value, parse: string -> Option<Value>)
    requires !v.Dict? && !v.Str?
    ensures ValidateContent(v, parse) == Raised(Exc(ValueError, "Content must be a dictionary or valid JSON string"))
  {
  }

  // -------------------------------------------------------------- cookies

  const CookieKeys: seq<string> := ["JSESSIONID", "li_at"]

  /** The `cookie` header: `JSESSIONID` quoted, then `li_at`, joined by `"; "`. */
  function CookieHeader(cookies: map<string, string>): string
    requires "JSESSIONID" in cookies && "li_at" in cookies
  {
    "JSESSIONID=\"" + cookies["JSESSIONID"] + "\"; li_at=" + cookies["li_at"]
  }

  /** The headers that do not depend on the cookies. */
  function StaticHeaders(): map<string, string>
  {
    map[
      "accept" := "application/vnd.linkedin.normalized+json+2.1",
      "accept-language" := "en-US,en;q=0.9",
      "content-type" := "application/json; charset=UTF-8",
      "origin" := BaseUrl,
      "Referer" := BaseUrl + "/feed/",
      "Referrer-Policy" := "strict-origin-when-cross-origin",
      "User-Agent" := "Mozilla/5.0 (Windows NT 10.0; Win64; x64) AppleWebKit/537.36 (KHTML, like Gecko) Chrome/119.0.0.0 Safari/537.36"
    ]
  }

  /** The cookie header splits back into the two cookies, `JSESSIONID` first, when neither value holds a `;`. */
  lemma CookieHeaderSplits(cookies: map<string, string>)
    requires "JSESSIONID" in cookies && "li_at" in cookies
    requires Lacks(cookies["JSESSIONID"], ';') && Lacks(cookies["li_at"], ';')
    ensures SplitOn(CookieHeader(cookies), "; ") == ["JSESSIONID=\"" + cookies["JSESSIONID"] + "\"", "li_at=" + cookies["li_at"]]
  {
    var a, b := "JSESSIONID=\"" + cookies["JSESSIONID"] + "\"", "li_at=" + cookies["li_at"];
    assert CookieHeader(cookies) == a + "; " + b;
    assert Lacks(a, ';') by {
      forall i | 0 <= i < |a|
        ensures a[i] != ';'
      {
        if 12 <= i < 12 + |cookies["JSESSIONID"]| {
          assert a[i] == cookies["JSESSIONID"][i - 12];
        }
      }
    }
    assert Lacks(b, ';') by {
      forall i | 0 <= i < |b|
        ensures b[i] != ';'
      {
        if 6 <= i {
          assert b[i] == cookies["li_at"][i - 6];
        }
      }
    }
    SplitAfterLacking(a, b, "; ");
    SplitLacking(b, "; ");
  }

  /** The first piece containing `sub` (`next(...)` over the pieces). */
  function FirstWith(parts: seq<string>, sub: string): (r: Option<string>)
    ensures r.Some? ==> r.value in parts && Contains(r.value, sub)
    ensures r.None? ==> forall k :: 0 <= k < |parts| ==> !Contains(parts[k], sub)
  {
    if parts == [] then None
    else if Contains(parts[0], sub) then Some(parts[0])
    else FirstWith(parts[1..], sub)
  }

  /**
   * The value `_check_session` reads for `key` from a `Set-Cookie` header:
   * after `key=` in the first `;`-piece holding it, stripped, without
   * double quotes; `None` when the header does not mention `key=`.
   */
  function Parsed(setCookie: string, key: string): (r: Option<string>)
    ensures r.Some? ==> Lacks(r.value, '"')
    ensures !Contains(setCookie, key + "=") ==> r.None?
  {
    if !Contains(setCookie, key + "=") then None
    else
      match FirstWith(SplitOn(setCookie, ";"), key + "=")
      case None => None
      case Some(found) =>
        if found == "" then None
        else
          SplitCount(found, key + "=");
          var after := SplitOn(found, key + "=")[1];
          Some(RemoveChar(Strip(SplitOn(after, ";")[0]), '"'))
  }

  /** One turn of the cookie loop: the new cookies and whether this key changed. */
  function UpdateOne(cookies: map<string, string>, setCookie: string, key: string): (r: (map<string, string>, bool))
    requires key in cookies
    ensures r.0.Keys == cookies.Keys
    ensures r.1 <==> r.0[key] != cookies[key]
    ensures forall k :: k in cookies && k != key ==> r.0[k] == cookies[k]
    ensures r.1 ==> Parsed(setCookie, key) == Some(r.0[key]) && r.0[key] != ""
  {
    var v := Parsed(setCookie, key);
    if v.Some? && v.value != "" && cookies[key] != v.value then (cookies[key := v.value], true)
    else (cookies, false)
  }

  /** The cookie loop over `keys`: the new cookies and whether any changed. */
  function UpdateAll(cookies: map<string, string>, setCookie: string, keys: seq<string>): (r: (map<string, string>, bool))
    requires forall k :: k in keys ==> k in cookies
    ensures r.0.Keys == cookies.Keys
    ensures forall k :: k in cookies && k !in keys ==> r.0[k] == cookies[k]
    ensures forall k :: k in keys && r.0[k] != cookies[k] ==> Parsed(setCookie, k) == Some(r.0[k]) && r.0[k] != ""
    ensures !r.1 ==> r.0 == cookies
  {
    if keys == [] then (cookies, false)
    else
      var front := UpdateAll(cookies, setCookie, keys[..|keys| - 1]);
      var last := UpdateOne(front.0, setCookie, keys[|keys| - 1]);
      (last.0, front.1 || last.1)
  }

  lemma UpdateAllStep(cookies: map<string, string>, setCookie: string, keys: seq<string>, i: nat)
    requires i < |keys| && forall k :: k in keys ==> k in cookies
    ensures var front := UpdateAll(cookies, setCookie, keys[..i]);
      var last := UpdateOne(front.0, setCookie, keys[i]);
      UpdateAll(cookies, setCookie, keys[..i + 1]) == (last.0, front.1 || last.1)
  {
    assert keys[..i + 1][..i] == keys[..i];
  }

  /** The loop of `_check_session` over the two cookie names, in order. */
  method UpdateCookies(cookies0: map<string, string>, setCookie: string) returns (cookies: map<string, string>, hasUpdates: bool)
    requires "JSESSIONID" in cookies0 && "li_at" in cookies0
    ensures (cookies, hasUpdates) == UpdateAll(cookies0, setCookie, CookieKeys)
  {
    cookies, hasUpdates := cookies0, false;
    for i := 0 to |CookieKeys|
      invariant (cookies, hasUpdates) == UpdateAll(cookies0, setCookie, CookieKeys[..i])
    {
      UpdateAllStep(cookies0, setCookie, CookieKeys, i);
      var key := CookieKeys[i];
      var value := Parsed(setCookie, key);
      if value.Some? && value.value != "" && cookies[key] != value.value {
        cookies := cookies[key := value.value];
        hasUpdates := true;
      }
    }
    assert CookieKeys[..|CookieKeys|] == CookieKeys;
  }

  /** The headers `_check_session` looks at: the ones given, else those of a GET (which may fail). */
  function Received(given: map<string, string>, fetch: Outcome<map<string, string>>): Option<map<string, string>>
  {
    if given != map[] then Some(given)
    else if fetch.Returned? then Some(fetch.value)
    else None
  }

  /** `_check_session` on the cookies: the new cookies and whether any changed. */
  function Session(cookies: map<string, string>, headers: Option<map<string, string>>): (r: (map<string, string>, bool))
    requires "JSESSIONID" in cookies && "li_at" in cookies
    ensures r.0.Keys == cookies.Keys
    ensures !r.1 ==> r.0 == cookies
  {
    match headers
    case None => (cookies, false)
    case Some(h) =>
      if "Set-Cookie" in h && Contains(h["Set-Cookie"], "li_at=") then UpdateAll(cookies, h["Set-Cookie"], CookieKeys)
      else (cookies, false)
  }

  /**
   * A cookie changes only when the header mentions `li_at=`, and then to
   * the non-empty value parsed for it; a parsed non-empty value that
   * differs always replaces the old one.
   */
  lemma SessionChanges(cookies: map<string, string>, h: map<string, string>, key: string)
    requires "JSESSIONID" in cookies && "li_at" in cookies && key in CookieKeys
    ensures var r := Session(cookies, Some(h));
      && (r.0[key] != cookies[key] ==>
            "Set-Cookie" in h && Contains(h["Set-Cookie"], "li_at=") && Parsed(h["Set-Cookie"], key) == Some(r.0[key]) && r.0[key] != "")
      && ("Set-Cookie" in h && Contains(h["Set-Cookie"], "li_at=") && Parsed(h["Set-Cookie"], key).Some? &&
          Parsed(h["Set-Cookie"], key).value != "" && Parsed(h["Set-Cookie"], key).value != cookies[key] ==>
            r.0[key] == Parsed(h["Set-Cookie"], key).value && r.1)
  {
    if "Set-Cookie" in h && Contains(h["Set-Cookie"], "li_at=") {
      var sc := h["Set-Cookie"];
      var first := UpdateOne(cookies, sc, "JSESSIONID");
      assert CookieKeys[..1] == ["JSESSIONID"] && CookieKeys[..1][..0] == [];
      assert UpdateAll(cookies, sc, CookieKeys[..1]) == (first.0, first.1);
      assert CookieKeys[..|CookieKeys| - 1] == CookieKeys[..1];
    }
  }

  /** A string without `sep` splits into itself. */
  lemma SplitWithout(s: string, sep: string)
    requires sep != [] && !Contains(s, sep)
    ensures SplitOn(s, sep) == [s]
  {
    SplitCount(s, sep);
    SplitFirstPiece(s, sep);
  }

  lemma LacksConcat(a: string, b: string, c: char)
    requires Lacks(a, c) && Lacks(b, c)
    ensures Lacks(a + b, c)
  {
    forall i | |a| <= i < |a + b|
      ensures (a + b)[i] != c
    {
      assert (a + b)[i] == b[i - |a|];
    }
  }

  /** The piece `key=v` and the string after the `;` that ends it. */
  lemma LeadingPiece(key: string, v: string, rest: string)
    requires Lacks(key, ';') && Lacks(v, ';')
    ensures var part := key + "=" + v;
      && SplitOn(part + ";" + rest, ";") == [part] + SplitOn(rest, ";")
      && OccursAt(part + ";" + rest, key + "=", 0) && OccursAt(part, key + "=", 0)
  {
    var sep := key + "=";
    LacksConcat(key, "=", ';');
    LacksConcat(sep, v, ';');
    var part := sep + v;
    SplitAfterLacking(part, rest, ";");
    assert (part + ";" + rest)[..|sep|] == sep;
    assert part[..|sep|] == sep;
  }

  /** What follows `key=` in `key=v`, when `v` does not mention `key=`. */
  lemma AfterKey(key: string, v: string)
    requires !Contains(v, key + "=")
    ensures SplitOn(key + "=" + v, key + "=") == ["", v]
  {
    var sep, part := key + "=", key + "=" + v;
    assert part[..|sep|] == sep && part[|sep|..] == v;
    SplitWithout(v, sep);
  }

  /** A `Set-Cookie` header that starts with `key=<v>;` yields `v` for `key`, when `v` is clean. */
  lemma ParsedLeading(key: string, v: string, rest: string)
    requires Lacks(key, ';') && Lacks(v, ';') && Lacks(v, '"') && !Contains(v, key + "=") && Strip(v) == v
    ensures Parsed(key + "=" + v + ";" + rest, key) == Some(v)
  {
    var part := key + "=" + v;
    var sc := part + ";" + rest;
    LeadingPiece(key, v, rest);
    assert Contains(sc, key + "=");
    assert Contains(part, key + "=");
    assert FirstWith(SplitOn(sc, ";"), key + "=") == Some(part);
    AfterKey(key, v);
    SplitLacking(v, ";");
  }

  /** The refreshed `li_at` of a typical `Set-Cookie: li_at=<v>; Path=/` header. */
  lemma ParsedLiAt(v: string)
    requires Lacks(v, ';') && Lacks(v, '"') && !Contains(v, "li_at=") && Strip(v) == v
    ensures Parsed("li_at=" + v + "; Path=/", "li_at") == Some(v)
  {
    assert "li_at" + "=" == "li_at=";
    assert "li_at=" + v + "; Path=/" == "li_at" + "=" + v + ";" + " Path=/";
    ParsedLeading("li_at", v, " Path=/");
  }

  // ----------------------------------------------------------------- post

  /** The database calls a post makes, in order. */
  datatype DbCall = CreatePost(text: Value, sourceId: Value) | UpdateStatus(id: Value, status: string, message: Option<string>)

  /**
   * The services a post uses: `create_post(text, source_id)` (a record
   * with its id, `None`, or an exception), the LinkedIn POST (the response
   * headers, or the exception of the request or of `raise_for_status`),
   * the GET of `_check_session`, and the timestamp reported.
   */
  datatype Services = Services(create: (Value, Value) -> Outcome<Option<Value>>,
                               publish: Value -> Outcome<map<string, string>>,
                               fetch: Outcome<map<string, string>>, now: string)

  function Skipped(): Value
  {
    Dict([Entry("success", Bool(false)), Entry("error", Str("Skipped - not a LinkedIn post")),
          Entry("platform", Str("linkedin")), Entry("skipped", Bool(true))])
  }

  function Failed(message: string, postId: Value): Value
  {
    Dict([Entry("success", Bool(false)), Entry("error", Str(message)), Entry("platform", Str("linkedin")), Entry("post_id", postId)])
  }

  function Posted(postId: Value, now: string): Value
  {
    Dict([Entry("success", Bool(true)), Entry("platform", Str("linkedin")), Entry("post_id", postId), Entry("posted_at", Str(now))])
  }

  /** The failure of the catch-all handler. */
  function Errored(message: string, postId: Value): Value
  {
    Failed("Error posting to LinkedIn: " + message, postId)
  }

  /** The text a post sends: a nested `content.text` as it is, else `text` stripped. */
  function PostText(content: Value): Outcome<Value>
    requires content.Dict?
  {
    var c := Get(content, "content");
    if c.Dict? && Has(c, "text") then Returned(Get(c, "text"))
    else
      var t := GetOr(content, "text", Str(""));
      if t.Str? then Returned(Str(Strip(t.s)))
      else Raised(Exc(AttributeError, NoAttribute(t, "strip")))
  }

  /** `len(v)`. */
  function Len(v: Value): (r: Outcome<nat>)
    ensures r.Raised? <==> !(v.Str? || v.List? || v.Dict?)
    ensures r.Raised? ==> r.exc.kind == TypeError
    ensures v.Str? ==> r == Returned(|v.s|)
  {
    match v
    case Str(s) => Returned(|s|)
    case List(items) => Returned(|items|)
    case Dict(entries) => Returned(|entries|)
    case _ => Raised(Exc(TypeError, "object of type '" + TypeName(v) + "' has no len()"))
  }

  /** How far a post gets before the database: skipped, rejected with a message, too long, or the text to store. */
  datatype Gate = Skip | Reject(message: string) | TooLong | Pass(text: Value)

  /** The checks `_run` makes before touching the database, in order. */
  function Guard(content: Value): (r: Gate)
    requires content.Dict?
    ensures r.Pass? ==> Truthy(r.text) && Len(r.text).Returned? && Len(r.text).value <= PostCharLimit
  {
    var platform := GetOr(content, "platform", Str(""));
    if !platform.Str? then Reject(NoAttribute(platform, "lower"))
    else if Lower(platform.s) != "linkedin" then Skip
    else
      match PostText(content)
      case Raised(e) => Reject(e.msg)
      case Returned(text) =>
        if !Truthy(text) then Reject("Empty post content")
        else
          match Len(text)
          case Raised(e) => Reject(e.msg)
          case Returned(n) => if n > PostCharLimit then TooLong else Pass(text)
  }

  /**
   * `_run`: the result, the database calls in order, and the response
   * headers handed to `_check_session` when the post went through.
   */
  function RunSpec(content: Value, svc: Services): (r: (Value, seq<DbCall>, Option<map<string, string>>))
    requires content.Dict?
    ensures r.0.Dict?
    ensures r.2.Some? ==> |r.1| == 2 && r.1[1].UpdateStatus? && r.1[1].status == "posted"
  {
    match Guard(content)
    case Skip => (Skipped(), [], None)
    case Reject(m) => (Errored(m, Null), [], None)
    case TooLong => (Failed("LinkedIn post character limit reached", Null), [], None)
    case Pass(text) =>
      var created := [CreatePost(text, Get(content, "source_id"))];
      match svc.create(text, Get(content, "source_id"))
      case Raised(e) => (Errored(e.msg, Null), created, None)
      case Returned(None) => (Errored("Failed to store post in database", Null), created, None)
      case Returned(Some(id)) =>
        if !Truthy(id) then (Errored("Failed to store post in database", id), created, None)
        else
          match svc.publish(text)
          case Returned(h) => (Posted(id, svc.now), created + [UpdateStatus(id, "posted", None)], Some(h))
          case Raised(e) =>
            var last := UpdateStatus(id, "failed", Some("Error posting to LinkedIn: " + e.msg));
            if e.kind == RequestException then
              (Errored(e.msg, id), created + [UpdateStatus(id, "failed", Some("LinkedIn API error: " + e.msg))] + [last], None)
            else (Errored(e.msg, id), created + [last], None)
  }

  /** `LinkedInPoster`: the session cookies and the request headers built from them. */
  class LinkedInPoster {
    var cookies: map<string, string>
    var csrfToken: string
    var cookieHeader: string

    /** The request headers: the static ones plus the two built from the cookies. */
    function Headers(): map<string, string>
      reads this
    {
      StaticHeaders()["csrf-token" := csrfToken]["cookie" := cookieHeader]
    }

    /** Both cookies exist, `JSESSIONID` has no quotes, and the headers carry the current cookies. */
    ghost predicate Valid()
      reads this
    {
      && "JSESSIONID" in cookies && "li_at" in cookies
      && Lacks(cookies["JSESSIONID"], '"')
      && cookieHeader == CookieHeader(cookies)
      && csrfToken == cookies["JSESSIONID"]
    }

    /** The cookies come from the environment, stripped, with every double quote removed from `JSESSIONID`. */
    constructor (env: Env)
      ensures cookies == map["JSESSIONID" := RemoveChar(Strip(GetEnvOr(env, "LINKEDIN_JSESSIONID", "")), '"'),
                             "li_at" := Strip(GetEnvOr(env, "LINKEDIN_LI_AT", ""))]
      ensures Valid()
    {
      var session := Strip(GetEnvOr(env, "LINKEDIN_JSESSIONID", ""));
      if !Lacks(session, '"') {
        session := RemoveChar(session, '"');
      }
      var initial := map["JSESSIONID" := session, "li_at" := Strip(GetEnvOr(env, "LINKEDIN_LI_AT", ""))];
      cookies := initial;
      csrfToken := initial["JSESSIONID"];
      cookieHeader := CookieHeader(initial);
    }

    /**
     * `_check_session`: the cookies as `Session` computes them; the two
     * cookie-derived headers are recomputed only when a cookie changed.
     */
    method CheckSession(given: map<string, string>, fetch: Outcome<map<string, string>>)
      requires Valid()
      modifies this
      ensures cookies == Session(old(cookies), Received(given, fetch)).0
      ensures !Session(old(cookies), Received(given, fetch)).1 ==>
        csrfToken == old(csrfToken) && cookieHeader == old(cookieHeader)
      ensures Valid()
    {
      var received := given;
      if given == map[] {
        if fetch.Raised? {
          return;
        }
        received := fetch.value;
      }
      assert Received(given, fetch) == Some(received);
      if "Set-Cookie" in received && Contains(received["Set-Cookie"], "li_at=") {
        ApplySetCookie(received["Set-Cookie"]);
      }
    }

    /** The cookie loop of `_check_session` for a `Set-Cookie` header mentioning `li_at=`. */
    method ApplySetCookie(setCookie: string)
      requires Valid()
      modifies this
      ensures cookies == UpdateAll(old(cookies), setCookie, CookieKeys).0
      ensures !UpdateAll(old(cookies), setCookie, CookieKeys).1 ==>
        csrfToken == old(csrfToken) && cookieHeader == old(cookieHeader)
      ensures Valid()
    {
      var updated, hasUpdates := UpdateCookies(cookies, setCookie);
      assert "JSESSIONID" in CookieKeys;
      cookies := updated;
      if hasUpdates {
        cookieHeader := CookieHeader(cookies);
        csrfToken := cookies["JSESSIONID"];
      }
    }

    /**
     * `_run`: the result and database calls of `RunSpec`; the session is
     * checked against the response headers only after a successful POST.
     */
    method Run(content: Value, svc: Services) returns (r: Value, calls: seq<DbCall>)
      requires content.Dict? && Valid()
      modifies this
      ensures (r, calls) == (RunSpec(content, svc).0, RunSpec(content, svc).1)
      ensures RunSpec(content, svc).2.None? ==> cookies == old(cookies) && csrfToken == old(csrfToken) && cookieHeader == old(cookieHeader)
      ensures RunSpec(content, svc).2.Some? ==>
        cookies == Session(old(cookies), Received(RunSpec(content, svc).2.value, svc.fetch)).0
      ensures Valid()
    {
      var gate := Guard(content);
      match gate
      case Skip => return Skipped(), [];
      case Reject(m) => return Errored(m, Null), [];
      case TooLong => return Failed("LinkedIn post character limit reached", Null), [];
      case Pass(text) =>
        var sourceId := Get(content, "source_id");
        calls := [CreatePost(text, sourceId)];
        var created := svc.create(text, sourceId);
        if created.Raised? {
          return Errored(created.exc.msg, Null), calls;
        }
        if created.value.None? {
          return Errored("Failed to store post in database", Null), calls;
        }
        var id := created.value.value;
        if !Truthy(id) {
          return Errored("Failed to store post in database", id), calls;
        }
        var response := svc.publish(text);
        if response.Raised? {
          var e := response.exc;
          if e.kind == RequestException {
            calls := calls + [UpdateStatus(id, "failed", Some("LinkedIn API error: " + e.msg))];
          }
          calls := calls + [UpdateStatus(id, "failed", Some("Error posting to LinkedIn: " + e.msg))];
          return Errored(e.msg, id), calls;
        }
        CheckSession(response.value, svc.fetch);
        calls := calls + [UpdateStatus(id, "posted", None)];
        r := Posted(id, svc.now);
    }
  }

  /** A post for another platform is skipped without any database call or request. */
  lemma OtherPlatformSkipped(content: Value, svc: Services)
    requires content.Dict? && Get(content, "platform").Str? && Lower(Get(content, "platform").s) != "linkedin"
    ensures RunSpec(content, svc) == (Skipped(), [], None)
  {
    assert Has(content, "platform");
  }

  /**
   * Empty text and text over 3000 characters fail before any database
   * call or request, whatever the services would do; the second with
   * "LinkedIn post character limit reached" and no post id.
   */
  lemma GuardsBeforeWrites(content: Value, svc: Services, other: Services)
    requires content.Dict? && Guard(content) != Skip && !Guard(content).Pass?
    ensures RunSpec(content, svc).1 == [] && RunSpec(content, svc) == RunSpec(content, other)
    ensures Guard(content) == TooLong ==>
      var r := RunSpec(content, svc).0;
      Get(r, "success") == Bool(false) && Get(r, "error") == Str("LinkedIn post character limit reached") && Get(r, "post_id") == Null
  {
    if Guard(content) == TooLong {
      var entries := [Entry("success", Bool(false)), Entry("error", Str("LinkedIn post character limit reached")),
                      Entry("platform", Str("linkedin")), Entry("post_id", Null)];
      LookupAt(entries, "post_id", 3);
    }
  }

  /** The length guard: a non-empty string text reaches the database exactly when it has at most 3000 characters. */
  lemma LengthGuard(content: Value, svc: Services)
    requires content.Dict? && Get(content, "platform").Str? && Lower(Get(content, "platform").s) == "linkedin"
    requires PostText(content).Returned? && PostText(content).value.Str? && PostText(content).value.s != ""
    ensures var text := PostText(content).value;
      && (|text.s| <= PostCharLimit <==> RunSpec(content, svc).1 != [])
      && (|text.s| <= PostCharLimit ==> RunSpec(content, svc).1[0] == CreatePost(text, Get(content, "source_id")))
      && (|text.s| > PostCharLimit ==> Guard(content) == TooLong)
  {
    assert Has(content, "platform");
  }

  /**
   * A post succeeds exactly when the record was created with an id and
   * the POST went through; the calls are then the creation and the
   * `posted` update, in that order.
   */
  lemma PostSucceeds(content: Value, svc: Services)
    requires content.Dict? && Guard(content).Pass?
    ensures var text := Guard(content).text;
      var created := svc.create(text, Get(content, "source_id"));
      var r := RunSpec(content, svc);
      && (Get(r.0, "success") == Bool(true) <==>
            created.Returned? && created.value.Some? && Truthy(created.value.value) && svc.publish(text).Returned?)
      && (Get(r.0, "success") == Bool(true) ==>
            r.1 == [CreatePost(text, Get(content, "source_id")), UpdateStatus(created.value.value, "posted", None)])
  {
  }

  /**
   * A request failure after the record exists marks it failed twice: with
   * the API error, then with the catch-all message, which is the one left.
   */
  lemma RequestFailureMarkedTwice(content: Value, svc: Services)
    requires content.Dict? && Guard(content).Pass?
    requires var created := svc.create(Guard(content).text, Get(content, "source_id"));
      created.Returned? && created.value.Some? && Truthy(created.value.value)
    requires svc.publish(Guard(content).text).Raised? && svc.publish(Guard(content).text).exc.kind == RequestException
    ensures var id := svc.create(Guard(content).text, Get(content, "source_id")).value.value;
      var m := svc.publish(Guard(content).text).exc.msg;
      RunSpec(content, svc).1 == [CreatePost(Guard(content).text, Get(content, "source_id")),
                                  UpdateStatus(id, "failed", Some("LinkedIn API error: " + m)),
                                  UpdateStatus(id, "failed", Some("Error posting to LinkedIn: " + m))]
  {
  }
}
