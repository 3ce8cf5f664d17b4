/**
 * The content tools: the validators of the generator's input, the
 * generator's per-platform loop, the splitting of generated text into a
 * tweet thread, hashtag extraction and truncation, and the length gate
 * of the content filter.
 *
 * The language model's completion, the database calls and the float
 * scores (sentiment, relevance) are inputs.
 */
module ContentTools {
  import opened Py
  import opened Text

  // ----------------------------------------------------------- validators

  predicate IsQuote(c: char)
  {
    c == '"' || c == '\''
  }

  const ValidPlatforms: seq<string> := ["linkedin", "twitter"]

  /** `validate_platform`: `str(v)` without surrounding quotes, lower-cased, and either `linkedin` or `twitter`. */
  function ValidatePlatform(v: Value): (r: Outcome<string>)
    ensures r.Returned? ==> r.value in ValidPlatforms
    ensures r.Raised? ==> r.exc == Exc(ValueError, "Platform must be either 'linkedin' or 'twitter'")
  {
    var name := Lower(StripChars(PyStr(v), IsQuote));
    if name in ValidPlatforms then Returned(name)
    else Raised(Exc(ValueError, "Platform must be either 'linkedin' or 'twitter'"))
  }

  /** Quotes around a platform name, in any letter case, are accepted and normalised away. */
  lemma QuotedPlatformAccepted(open: string, name: string, close: string)
    requires forall i :: 0 <= i < |open| ==> IsQuote(open[i])
    requires forall i :: 0 <= i < |close| ==> IsQuote(close[i])
    requires Lower(name) in ValidPlatforms
    ensures ValidatePlatform(Str(open + name + close)) == Returned(Lower(name))
  {
    var lowered := Lower(name);
    assert lowered == "linkedin" || lowered == "twitter";
    assert !IsQuote(name[0]) by {
      assert lowered[0] == LowerChar(name[0]);
    }
    assert !IsQuote(name[|name| - 1]) by {
      assert lowered[|name| - 1] == LowerChar(name[|name| - 1]);
    }
    assert open + name + close == open + (name + close);
    TrimStartPast(open, name + close, IsQuote);
    TrimEndPast(name, close, IsQuote);
  }

  /**
   * `validate_digest` (and the same check at the top of `_run`): a dict
   * whose `content`, defaulting to `{}`, is a dict holding `combined_digest`.
   */
  function ValidateDigest(v: Value): (r: Outcome<Value>)
    ensures r.Returned? ==> r.value == v
    ensures r.Raised? ==> r.exc.kind == ValueError
  {
    if !v.Dict? then Raised(Exc(ValueError, "digest must be a dictionary"))
    else
      var content := GetOr(v, "content", Dict([]));
      if !content.Dict? then Raised(Exc(ValueError, "digest['content'] must be a dictionary"))
      else if !Has(content, "combined_digest") then Raised(Exc(ValueError, "digest['content'] must contain 'combined_digest' key"))
      else Returned(v)
  }

  /** A digest is accepted exactly when its `content` is a dict with `combined_digest`; a missing `content` is rejected too. */
  lemma DigestAccepted(v: Value)
    ensures ValidateDigest(v).Returned? <==>
      v.Dict? && Has(v, "content") && Get(v, "content").Dict? && Has(Get(v, "content"), "combined_digest")
  {
    if v.Dict? && !Has(v, "content") {
      assert GetOr(v, "content", Dict([])) == Dict([]);
      assert !Has(Dict([]), "combined_digest");
    }
  }

  // -------------------------------------------------------- tweet threads

  const TweetMarker := "[TWEET]"
  const MaxTweet := 250

  /** `[t.strip() for t in pieces if t.strip()]`. */
  function StrippedPieces(pieces: seq<string>): (r: seq<string>)
    ensures forall k :: 0 <= k < |r| ==> r[k] != ""
  {
    if pieces == [] then []
    else (if Strip(pieces[0]) != "" then [Strip(pieces[0])] else []) + StrippedPieces(pieces[1..])
  }

  /** `[t for t in tweets if len(t) <= 250]`. */
  function ShortOnes(tweets: seq<string>): (r: seq<string>)
    ensures |r| <= |tweets|
    ensures forall k :: 0 <= k < |r| ==> |r[k]| <= MaxTweet && r[k] in tweets
  {
    if tweets == [] then []
    else (if |tweets[0]| <= MaxTweet then [tweets[0]] else []) + ShortOnes(tweets[1..])
  }

  /** The tweets of a generated thread. */
  function Tweets(content: string): seq<string>
  {
    ShortOnes(StrippedPieces(SplitOn(content, TweetMarker)))
  }

  /** Every tweet is non-empty, stripped, at most 250 characters, and free of the marker. */
  lemma TweetShape(content: string)
    ensures forall k :: 0 <= k < |Tweets(content)| ==>
      var t := Tweets(content)[k];
      t != "" && Strip(t) == t && |t| <= MaxTweet && !Contains(t, TweetMarker)
  {
    var pieces := SplitOn(content, TweetMarker);
    SplitPiecesLackSep(content, TweetMarker);
    StrippedShape(pieces);
  }

  lemma {:induction false} StrippedShape(pieces: seq<string>)
    requires forall k :: 0 <= k < |pieces| ==> !Contains(pieces[k], TweetMarker)
    ensures forall t :: t in StrippedPieces(pieces) ==> Strip(t) == t && !Contains(t, TweetMarker)
  {
    if pieces != [] {
      StrippedShape(pieces[1..]);
      StripIdempotent(pieces[0]);
      StripKeepsAbsence(pieces[0], TweetMarker);
    }
  }

  /** Stripped non-blank pieces pass through the comprehension unchanged. */
  lemma {:induction false} StrippedKeeps(ts: seq<string>)
    requires forall k :: 0 <= k < |ts| ==> IsStrippedNonBlank(ts[k])
    ensures StrippedPieces(ts) == ts
  {
    if ts != [] {
      StripFixed(ts[0]);
      StrippedKeeps(ts[1..]);
    }
  }

  /**
   * Splitting a thread written with the marker gives back its tweets in
   * order, minus those over 250 characters; a thread of short tweets
   * comes back whole.
   */
  lemma ThreadRoundTrip(ts: seq<string>)
    requires ts != []
    requires forall k :: 0 <= k < |ts| ==> IsStrippedNonBlank(ts[k]) && Lacks(ts[k], '[')
    ensures Tweets(Join(ts, TweetMarker)) == ShortOnes(ts)
    ensures (forall k :: 0 <= k < |ts| ==> |ts[k]| <= MaxTweet) ==> Tweets(Join(ts, TweetMarker)) == ts
  {
    JoinSplit(ts, TweetMarker);
    StrippedKeeps(ts);
    if forall k :: 0 <= k < |ts| ==> |ts[k]| <= MaxTweet {
      ShortKeeps(ts);
    }
  }

  lemma {:induction false} ShortKeeps(ts: seq<string>)
    requires forall k :: 0 <= k < |ts| ==> |ts[k]| <= MaxTweet
    ensures ShortOnes(ts) == ts
  {
    if ts != [] {
      ShortKeeps(ts[1..]);
    }
  }

  /** The content the generator returns for a platform. */
  function Formatted(platform: string, content: string): (r: Value)
    ensures r.Dict?
  {
    if platform == "twitter" then
      var tweets := Tweets(content);
      Dict([Entry("tweets", List(seq(|tweets|, k requires 0 <= k < |tweets| => Str(tweets[k])))),
            Entry("is_thread", Bool(|tweets| > 1)), Entry("platform", Str("twitter"))])
    else Dict([Entry("text", Str(content)), Entry("platform", Str("linkedin"))])
  }

  /** A twitter result is a thread exactly when more than one tweet survives. */
  lemma ThreadFlag(content: string)
    ensures Get(Formatted("twitter", content), "is_thread") == Bool(|Tweets(content)| > 1)
  {
    var tweets := Tweets(content);
    var entries := [Entry("tweets", List(seq(|tweets|, k requires 0 <= k < |tweets| => Str(tweets[k])))),
                    Entry("is_thread", Bool(|tweets| > 1)), Entry("platform", Str("twitter"))];
    LookupAt(entries, "is_thread", 1);
  }

  // ------------------------------------------------------------ generator

  /**
   * What generating for one platform meets: the completion (or its
   * exception), then what `add_content_source` returns (the new source's
   * id, or `None`) and the id of the record `create_post` returns (or
   * `None`). Neither database call raises: both catch every exception.
   */
  datatype Generation = Generation(completion: Outcome<string>, sourceId: Option<int>, postId: Option<int>)

  /** `if not source`: no id, or the falsy id 0. */
  predicate NoSource(g: Generation)
  {
    g.sourceId.None? || g.sourceId.value == 0
  }

  /**
   * The database step as written: `add_content_source` returns an `int`
   * id, and reading `source.id` from it raises `AttributeError`, so the
   * post record is never created.
   */
  function StoredAsWritten(g: Generation): (r: Outcome<(Value, Value)>)
    ensures r.Raised?
  {
    if NoSource(g) then Raised(Exc(ValueError, "Failed to create content source"))
    else Raised(Exc(AttributeError, NoAttribute(Int(g.sourceId.value), "id")))
  }

  /** The database step as intended: the returned id is the source's id. */
  function Stored(g: Generation): (r: Outcome<(Value, Value)>)
    ensures r.Returned? <==> !NoSource(g) && g.postId.Some?
    ensures r.Returned? ==> r.value == (Int(g.sourceId.value), Int(g.postId.value))
  {
    if NoSource(g) then Raised(Exc(ValueError, "Failed to create content source"))
    else if g.postId.None? then Raised(Exc(ValueError, "Failed to create post history"))
    else Returned((Int(g.sourceId.value), Int(g.postId.value)))
  }

  /**
   * `_generate_for_platform` over the outcome of its database step: a
   * failed completion fails; otherwise the result succeeds with the
   * formatted content, and a database failure only blanks the ids and
   * adds `db_error`.
   */
  function Generated(platform: string, completion: Outcome<string>, stored: Outcome<(Value, Value)>): (r: Value)
    ensures r.Dict?
    ensures Get(r, "success") == Bool(completion.Returned?)
  {
    match completion
    case Raised(e) =>
      var entries := [Entry("success", Bool(false)), Entry("error", Str(e.msg)), Entry("platform", Str(platform))];
      Dict(entries)
    case Returned(content) =>
      var formatted := Formatted(platform, content);
      match stored
      case Returned((sourceId, postId)) =>
        Dict([Entry("success", Bool(true)), Entry("content", formatted), Entry("source_id", sourceId),
              Entry("post_id", postId), Entry("platform", Str(platform))])
      case Raised(e) =>
        Dict([Entry("success", Bool(true)), Entry("content", formatted), Entry("source_id", Null),
              Entry("post_id", Null), Entry("platform", Str(platform)), Entry("db_error", Str(e.msg))])
  }

  /** `_generate_for_platform` as written. */
  function GenerateAsWritten(platform: string, g: Generation): Value
  {
    Generated(platform, g.completion, StoredAsWritten(g))
  }

  /** `_generate_for_platform` as intended; the generator uses this one. */
  function GenerateForPlatform(platform: string, g: Generation): Value
  {
    Generated(platform, g.completion, Stored(g))
  }

  /** The `db_error` and ids of a generation whose database step failed with `e`. */
  lemma GeneratedDbError(platform: string, content: string, e: Exc)
    ensures var r := Generated(platform, Returned(content), Raised(e));
      Get(r, "success") == Bool(true) && Get(r, "source_id") == Null && Get(r, "post_id") == Null && Get(r, "db_error") == Str(e.msg)
  {
    var entries := [Entry("success", Bool(true)), Entry("content", Formatted(platform, content)), Entry("source_id", Null),
                    Entry("post_id", Null), Entry("platform", Str(platform)), Entry("db_error", Str(e.msg))];
    LookupAt(entries, "source_id", 2);
    LookupAt(entries, "post_id", 3);
    LookupAt(entries, "db_error", 5);
  }

  /**
   * As written, no generation is ever stored: whatever the database
   * returns, the ids are `None`, a created source is reported as the
   * `AttributeError`, and `create_post`'s answer plays no part.
   */
  lemma AsWrittenNeverStores(platform: string, g: Generation, postId: Option<int>)
    requires g.completion.Returned?
    ensures var r := GenerateAsWritten(platform, g);
      && Get(r, "source_id") == Null && Get(r, "post_id") == Null
      && (!NoSource(g) ==> Get(r, "db_error") == Str(NoAttribute(Int(g.sourceId.value), "id")))
      && GenerateAsWritten(platform, g.(postId := postId)) == r
  {
    GeneratedDbError(platform, g.completion.value, StoredAsWritten(g).exc);
  }

  /** As intended, both ids are reported exactly when both records were created. */
  lemma GenerateStores(platform: string, g: Generation)
    requires g.completion.Returned?
    ensures var r := GenerateForPlatform(platform, g);
      && (!NoSource(g) && g.postId.Some? ==> Get(r, "source_id") == Int(g.sourceId.value) && Get(r, "post_id") == Int(g.postId.value))
      && (NoSource(g) ==> Get(r, "db_error") == Str("Failed to create content source") && Get(r, "source_id") == Null)
      && (!NoSource(g) && g.postId.None? ==> Get(r, "db_error") == Str("Failed to create post history") && Get(r, "post_id") == Null)
  {
    var content := g.completion.value;
    match Stored(g)
    case Returned((sourceId, postId)) =>
      var entries := [Entry("success", Bool(true)), Entry("content", Formatted(platform, content)), Entry("source_id", sourceId),
                      Entry("post_id", postId), Entry("platform", Str(platform))];
      LookupAt(entries, "source_id", 2);
      LookupAt(entries, "post_id", 3);
    case Raised(e) =>
      GeneratedDbError(platform, content, e);
  }

  /** The input that shows it: a created source 1 and post 2 are reported with no ids and an `AttributeError` message. */
  lemma AsWrittenExample()
    ensures var g := Generation(Returned("A post"), Some(1), Some(2));
      && Get(GenerateAsWritten("linkedin", g), "source_id") == Null
      && Get(GenerateAsWritten("linkedin", g), "db_error") == Str(NoAttribute(Int(1), "id"))
      && Get(GenerateForPlatform("linkedin", g), "source_id") == Int(1)
  {
    var g := Generation(Returned("A post"), Some(1), Some(2));
    AsWrittenNeverStores("linkedin", g, None);
    GenerateStores("linkedin", g);
  }

  /** `[p.lower() for p in platforms]`: the first entry that is not a string raises `AttributeError`. */
  function Lowered(items: seq<Value>): (r: Outcome<seq<string>>)
    ensures r.Returned? ==> |r.value| == |items|
    ensures r.Returned? ==> forall k :: 0 <= k < |items| ==> items[k].Str? && r.value[k] == Lower(items[k].s)
  {
    if items == [] then Returned([])
    else if !items[0].Str? then Raised(Exc(AttributeError, NoAttribute(items[0], "lower")))
    else
      match Lowered(items[1..])
      case Raised(e) => Raised(e)
      case Returned(rest) => Returned([Lower(items[0].s)] + rest)
  }

  /** `[p for p in platforms if p not in valid_platforms]`. */
  function Invalid(ps: seq<string>): (r: seq<string>)
    ensures r == [] <==> forall k :: 0 <= k < |ps| ==> ps[k] in ValidPlatforms
  {
    if ps == [] then []
    else (if ps[0] in ValidPlatforms then [] else [ps[0]]) + Invalid(ps[1..])
  }

  function AsList(ps: seq<string>): Value
  {
    List(seq(|ps|, k requires 0 <= k < |ps| => Str(ps[k])))
  }

  /**
   * The `results` dict after the loop over `ps`, where `gen` is the
   * per-platform handler: `_run` as written calls `GenerateAsWritten`,
   * and the corrected handler is `GenerateForPlatform`.
   */
  function Results(ps: seq<string>, world: string -> Generation, gen: (string, Generation) -> Value): seq<Entry>
  {
    if ps == [] then []
    else Assign(Results(ps[..|ps| - 1], world, gen), ps[|ps| - 1], gen(ps[|ps| - 1], world(ps[|ps| - 1])))
  }

  /** The platforms `_run` asks for, lower-cased, or the exception that rejects them. */
  function Requested(platform: Value): (r: Outcome<seq<string>>)
    ensures r.Returned? ==> forall k :: 0 <= k < |r.value| ==> r.value[k] in ValidPlatforms
  {
    match Lowered(if platform.List? then platform.items else [platform])
    case Raised(e) => Raised(e)
    case Returned(ps) =>
      if Invalid(ps) != [] then
        Raised(Exc(ValueError, "Invalid platforms: " + Repr(AsList(Invalid(ps))) + ". Must be one of: " + Repr(AsList(ValidPlatforms))))
      else Returned(ps)
  }

  /** `ContentGenerator._run`: the digest check, the platform check, then one result per platform. */
  function RunSpec(digest: Value, platform: Value, world: string -> Generation, gen: (string, Generation) -> Value): (r: Value)
    ensures r.Dict?
  {
    match ValidateDigest(digest)
    case Raised(e) => Dict([Entry("success", Bool(false)), Entry("error", Str(e.msg))])
    case Returned(_) =>
      match Requested(platform)
      case Raised(e) => Dict([Entry("success", Bool(false)), Entry("error", Str(e.msg))])
      case Returned(ps) => Dict([Entry("success", Bool(true)), Entry("results", Dict(Results(ps, world, gen)))])
  }

  /** `ContentGenerator._run`, filling `results` platform by platform. */
  method Run(digest: Value, platform: Value, world: string -> Generation, gen: (string, Generation) -> Value) returns (r: Value)
    ensures r == RunSpec(digest, platform, world, gen)
  {
    var checked := ValidateDigest(digest);
    if checked.Raised? {
      return Dict([Entry("success", Bool(false)), Entry("error", Str(checked.exc.msg))]);
    }
    var requested := Requested(platform);
    if requested.Raised? {
      return Dict([Entry("success", Bool(false)), Entry("error", Str(requested.exc.msg))]);
    }
    var results := FillResults(requested.value, world, gen);
    r := Dict([Entry("success", Bool(true)), Entry("results", Dict(results))]);
  }

  /** The loop of `_run`: `results[p] = self._generate_for_platform(digest, p)` for each platform in turn. */
  method FillResults(ps: seq<string>, world: string -> Generation, gen: (string, Generation) -> Value) returns (results: seq<Entry>)
    ensures results == Results(ps, world, gen)
  {
    results := [];
    for i := 0 to |ps|
      invariant results == Results(ps[..i], world, gen)
    {
      assert ps[..i + 1][..i] == ps[..i];
      results := Assign(results, ps[i], gen(ps[i], world(ps[i])));
    }
    assert ps[..|ps|] == ps;
  }

  /** The results hold one entry per requested platform, each that platform's own generation result. */
  lemma {:induction false} ResultsPerPlatform(ps: seq<string>, world: string -> Generation, gen: (string, Generation) -> Value)
    ensures forall p :: Lookup(Results(ps, world, gen), p).Some? <==> p in ps
    ensures forall p :: p in ps ==> Lookup(Results(ps, world, gen), p) == Some(gen(p, world(p)))
  {
    if ps != [] {
      ResultsPerPlatform(ps[..|ps| - 1], world, gen);
      assert ps == ps[..|ps| - 1] + [ps[|ps| - 1]];
    }
  }

  /**
   * A single platform is a one-element request; any invalid entry
   * rejects the whole call before anything is generated; otherwise the
   * call succeeds even when every platform's generation failed.
   */
  lemma RunBehaviour(digest: Value, platform: Value, world: string -> Generation, other: string -> Generation, gen: (string, Generation) -> Value)
    requires ValidateDigest(digest).Returned?
    ensures platform.Str? && Lower(platform.s) in ValidPlatforms ==> Requested(platform) == Returned([Lower(platform.s)])
    ensures Requested(platform).Raised? ==>
      Get(RunSpec(digest, platform, world, gen), "success") == Bool(false) && RunSpec(digest, platform, world, gen) == RunSpec(digest, platform, other, gen)
    ensures Requested(platform).Returned? ==> Get(RunSpec(digest, platform, world, gen), "success") == Bool(true)
  {
    if platform.Str? {
      var items := [platform];
      assert items[1..] == [] && Lowered(items[1..]) == Returned([]);
      assert Lowered(items) == Returned([Lower(platform.s)] + []);
      assert [Lower(platform.s)] + [] == [Lower(platform.s)];
      assert Lowered([platform]) == Returned([Lower(platform.s)]);
    }
  }

  /** The `results` of a `_run` whose checks passed. */
  lemma RunResults(digest: Value, platform: Value, world: string -> Generation, gen: (string, Generation) -> Value)
    requires ValidateDigest(digest).Returned? && Requested(platform).Returned?
    ensures Get(RunSpec(digest, platform, world, gen), "results") == Dict(Results(Requested(platform).value, world, gen))
  {
    var entries := [Entry("success", Bool(true)), Entry("results", Dict(Results(Requested(platform).value, world, gen)))];
    LookupAt(entries, "results", 1);
  }

  /**
   * As written, `_run` reports every requested platform whose completion
   * succeeded as a success without ids, whatever the database did.
   */
  lemma RunAsWrittenNeverStores(digest: Value, platform: Value, world: string -> Generation, p: string)
    requires ValidateDigest(digest).Returned? && Requested(platform).Returned?
    requires p in Requested(platform).value && world(p).completion.Returned?
    ensures var results := Get(RunSpec(digest, platform, world, GenerateAsWritten), "results");
      && results.Dict? && Lookup(results.entries, p).Some? && Lookup(results.entries, p).value.Dict?
      && Get(Lookup(results.entries, p).value, "success") == Bool(true)
      && Get(Lookup(results.entries, p).value, "source_id") == Null
      && Get(Lookup(results.entries, p).value, "post_id") == Null
  {
    RunResults(digest, platform, world, GenerateAsWritten);
    ResultsPerPlatform(Requested(platform).value, world, GenerateAsWritten);
    AsWrittenNeverStores(p, world(p), world(p).postId);
  }

  /** With the corrected handler, a platform whose records were both created reports both ids. */
  lemma RunIntendedStores(digest: Value, platform: Value, world: string -> Generation, p: string)
    requires ValidateDigest(digest).Returned? && Requested(platform).Returned?
    requires p in Requested(platform).value && world(p).completion.Returned?
    requires !NoSource(world(p)) && world(p).postId.Some?
    ensures var results := Get(RunSpec(digest, platform, world, GenerateForPlatform), "results");
      && results.Dict? && Lookup(results.entries, p).Some? && Lookup(results.entries, p).value.Dict?
      && Get(Lookup(results.entries, p).value, "source_id") == Int(world(p).sourceId.value)
      && Get(Lookup(results.entries, p).value, "post_id") == Int(world(p).postId.value)
  {
    RunResults(digest, platform, world, GenerateForPlatform);
    ResultsPerPlatform(Requested(platform).value, world, GenerateForPlatform);
    GenerateStores(p, world(p));
  }

  // ------------------------------------------------------------- hashtags

  /** The characters of the regular-expression class `\w`, on ASCII. */
  predicate IsWordChar(c: char)
  {
    'a' <= c <= 'z' || 'A' <= c <= 'Z' || '0' <= c <= '9' || c == '_'
  }

  /** A match of `#\w+`. */
  predicate IsHashtag(h: string)
  {
    |h| >= 2 && h[0] == '#' && forall k :: 1 <= k < |h| ==> IsWordChar(h[k])
  }

  /** The length of the leading run of word characters. */
  function WordRun(s: string): (n: nat)
    ensures n <= |s|
    ensures forall k :: 0 <= k < n ==> IsWordChar(s[k])
    ensures n < |s| ==> !IsWordChar(s[n])
  {
    if s != [] && IsWordChar(s[0]) then 1 + WordRun(s[1..]) else 0
  }

  /** `re.findall(r'#\w+', s)`: the matches left to right, each as long as possible. */
  function FindHashtags(s: string): (r: seq<string>)
    ensures forall k :: 0 <= k < |r| ==> IsHashtag(r[k])
    decreases |s|
  {
    if s == [] then []
    else if s[0] == '#' && |s| > 1 && IsWordChar(s[1]) then
      var n := WordRun(s[1..]) + 1;
      [s[..n]] + FindHashtags(s[n..])
    else FindHashtags(s[1..])
  }

  lemma {:induction false} WordRunOf(w: string, rest: string)
    requires forall k :: 0 <= k < |w| ==> IsWordChar(w[k])
    requires rest == [] || !IsWordChar(rest[0])
    ensures WordRun(w + rest) == |w|
    decreases |w|
  {
    var s := w + rest;
    if w != [] {
      assert s[0] == w[0] && IsWordChar(s[0]);
      assert s[1..] == w[1..] + rest;
      WordRunOf(w[1..], rest);
      assert WordRun(s) == 1 + WordRun(s[1..]);
    } else {
      assert s == rest;
    }
  }

  /** A hashtag followed by something that is not a word character is found whole, first. */
  lemma LeadingHashtag(h: string, rest: string)
    requires IsHashtag(h) && (rest == [] || !IsWordChar(rest[0]))
    ensures FindHashtags(h + rest) == [h] + FindHashtags(rest)
  {
    var s := h + rest;
    assert s[1..] == h[1..] + rest;
    WordRunOf(h[1..], rest);
    assert s[..|h|] == h && s[|h|..] == rest;
  }

  /** Hashtags written one after another, separated by spaces, are found again in order. */
  lemma {:induction false} HashtagsInOrder(tags: seq<string>)
    requires forall k :: 0 <= k < |tags| ==> IsHashtag(tags[k])
    ensures FindHashtags(Join(tags, " ")) == tags
  {
    if |tags| == 1 {
      LeadingHashtag(tags[0], "");
      assert tags[0] + "" == tags[0];
    } else if |tags| > 1 {
      var rest := Join(tags[1..], " ");
      HashtagsInOrder(tags[1..]);
      assert tags[0] + " " + rest == tags[0] + (" " + rest);
      LeadingHashtag(tags[0], " " + rest);
      assert (" " + rest)[1..] == rest;
    }
  }

  /** `xs[:n]`, negative `n` counting from the end. */
  function SliceTo<T>(xs: seq<T>, n: int): (r: seq<T>)
    ensures |r| <= |xs| && r == xs[..|r|]
    ensures n >= 0 ==> |r| == if n <= |xs| then n else |xs|
    ensures n < 0 ==> |r| == if -n <= |xs| then |xs| + n else 0
  {
    if n >= 0 then (if n <= |xs| then xs[..n] else xs)
    else if -n <= |xs| then xs[..|xs| + n] else []
  }

  /** `HashtagAnalyzer._run`: the first `max_hashtags` matches of the completion, or the failure. */
  function Hashtags(completion: Outcome<string>, maxHashtags: int): (r: Value)
    ensures r.Dict?
  {
    match completion
    case Raised(e) => Dict([Entry("success", Bool(false)), Entry("error", Str(e.msg))])
    case Returned(text) => Dict([Entry("success", Bool(true)), Entry("hashtags", AsList(SliceTo(FindHashtags(text), maxHashtags)))])
  }

  /** A completion's report lists its matches, truncated. */
  lemma HashtagsReported(text: string, maxHashtags: int)
    ensures Get(Hashtags(Returned(text), maxHashtags), "hashtags") == AsList(SliceTo(FindHashtags(text), maxHashtags))
  {
    var entries := [Entry("success", Bool(true)), Entry("hashtags", AsList(SliceTo(FindHashtags(text), maxHashtags)))];
    LookupAt(entries, "hashtags", 1);
  }

  /** The hashtags reported are the first `max_hashtags` of the completion's, in order of appearance. */
  lemma HashtagsTruncated(tags: seq<string>, maxHashtags: nat)
    requires forall k :: 0 <= k < |tags| ==> IsHashtag(tags[k])
    ensures var n := if maxHashtags <= |tags| then maxHashtags else |tags|;
      Get(Hashtags(Returned(Join(tags, " ")), maxHashtags), "hashtags") == AsList(tags[..n])
  {
    HashtagsInOrder(tags);
    HashtagsReported(Join(tags, " "), maxHashtags);
  }

  // --------------------------------------------------------------- filter

  const MinLength := 100
  const MaxLength := 5000

  /** `re.sub(r'\s+', ' ', s)`: every run of whitespace becomes one space. */
  function CollapseRuns(s: string): (r: string)
    ensures |r| <= |s|
    ensures s != [] ==> r != [] && (IsSpace(s[0]) <==> r[0] == ' ')
    ensures forall k :: 0 <= k < |r| ==> IsSpace(r[k]) ==> r[k] == ' '
    ensures forall k :: 0 <= k < |r| - 1 ==> !(r[k] == ' ' && r[k + 1] == ' ')
    decreases |s|
  {
    if s == [] then []
    else if IsSpace(s[0]) then
      var rest := TrimStart(s[1..], IsSpace);
      " " + CollapseRuns(rest)
    else [s[0]] + CollapseRuns(s[1..])
  }

  /** The text `_check_quality` measures: runs collapsed, then stripped. */
  function Cleaned(s: string): string
  {
    Strip(CollapseRuns(s))
  }

  /** Cleaning never lengthens a text. */
  lemma CleanedShorter(s: string)
    ensures |Cleaned(s)| <= |s|
  {
  }

  /** A text without whitespace is measured as it is. */
  lemma {:induction false} CleanedWithoutSpace(s: string)
    requires forall k :: 0 <= k < |s| ==> !IsSpace(s[k])
    ensures CollapseRuns(s) == s && Cleaned(s) == s
    decreases |s|
  {
    if s != [] {
      CleanedWithoutSpace(s[1..]);
      assert s == [s[0]] + s[1..];
      StripFixed(s);
    }
  }

  /** A failure of the filter: it does not pass. */
  function Rejected(message: string): (r: Value)
    ensures r.Dict? && Get(r, "success") == Bool(false) && Get(r, "passed_filter") == Bool(false)
  {
    var entries := [Entry("success", Bool(false)), Entry("error", Str(message)), Entry("passed_filter", Bool(false))];
    LookupAt(entries, "passed_filter", 2);
    Dict(entries)
  }

  /** `filters.get('keywords', [])`. */
  function Keywords(filters: Value): Value
    requires filters.Dict?
  {
    GetOr(filters, "keywords", List([]))
  }

  /** The first item that is not a string, whose `.lower()` raises. */
  function FirstNonString(items: seq<Value>): (r: Option<Value>)
    ensures r.None? <==> forall k :: 0 <= k < |items| ==> items[k].Str?
    ensures r.Some? ==> r.value in items && !r.value.Str?
  {
    if items == [] then None
    else if !items[0].Str? then Some(items[0])
    else FirstNonString(items[1..])
  }

  /**
   * How `_calculate_relevance_score` treats the keywords: no keywords
   * give the score 0.0 (`false`, which never reaches 0.6); otherwise the
   * keywords are iterated and lower-cased (`true`), and a list item that
   * is not a string, or a value that cannot be iterated, raises.
   */
  function Scoring(keywords: Value): (r: Outcome<bool>)
    ensures r == Returned(false) <==> !Truthy(keywords)
    ensures keywords.List? && FirstNonString(keywords.items).Some? ==> r.Raised? && r.exc.kind == AttributeError
  {
    if !Truthy(keywords) then Returned(false)
    else if keywords.List? then
      match FirstNonString(keywords.items)
      case Some(k) => Raised(Exc(AttributeError, NoAttribute(k, "lower")))
      case None => Returned(true)
    else if keywords.Str? || keywords.Dict? then Returned(true)
    else Raised(Exc(TypeError, "'" + TypeName(keywords) + "' object is not iterable"))
  }

  /**
   * `ContentFilter._run`: the result; `sentimentOk` and `relevanceOk` stand
   * for the two float comparisons, the second for a score computed from
   * keywords.
   */
  function Filter(content: Value, filters: Value, sentimentOk: bool, relevanceOk: bool): (r: Value)
    ensures r.Dict?
  {
    if !content.Dict? then Rejected(NoAttribute(content, "get"))
    else
      var text := Get(content, "text");
      if !Truthy(text) then Rejected("No content provided")
      else if !filters.Dict? then Rejected(NoAttribute(filters, "get"))
      else if !text.Str? then Rejected("expected string or bytes-like object")
      else
        match Scoring(Keywords(filters))
        case Raised(e) => Rejected(e.msg)
        case Returned(scored) =>
          var n := |Cleaned(text.s)|;
          Dict([Entry("success", Bool(true)), Entry("passed_filter", Bool(MinLength <= n <= MaxLength && sentimentOk && scored && relevanceOk))])
  }

  /** Missing or empty text fails and does not pass. */
  lemma NoTextFails(content: Value, filters: Value, sentimentOk: bool, relevanceOk: bool)
    requires content.Dict? && !Truthy(Get(content, "text"))
    ensures Filter(content, filters, sentimentOk, relevanceOk) == Rejected("No content provided")
  {
  }

  /** A text the filter gets to score, with the result it then gives. */
  lemma FilterScored(s: string, content: Value, filters: Value, sentimentOk: bool, relevanceOk: bool)
    requires content.Dict? && Get(content, "text") == Str(s) && s != "" && filters.Dict? && Scoring(Keywords(filters)).Returned?
    ensures var scored := Scoring(Keywords(filters)).value;
      && Get(Filter(content, filters, sentimentOk, relevanceOk), "success") == Bool(true)
      && Get(Filter(content, filters, sentimentOk, relevanceOk), "passed_filter")
           == Bool(MinLength <= |Cleaned(s)| <= MaxLength && sentimentOk && scored && relevanceOk)
  {
    var n := |Cleaned(s)|;
    var entries := [Entry("success", Bool(true)),
                    Entry("passed_filter", Bool(MinLength <= n <= MaxLength && sentimentOk && Scoring(Keywords(filters)).value && relevanceOk))];
    LookupAt(entries, "passed_filter", 1);
  }

  /**
   * Passing needs the cleaned length within [100, 5000], and with good
   * scores from keywords that is all it needs; a text under 100
   * characters never passes.
   */
  lemma LengthGate(s: string, content: Value, filters: Value, sentimentOk: bool, relevanceOk: bool)
    requires content.Dict? && Get(content, "text") == Str(s) && s != "" && filters.Dict?
    ensures var passed := Get(Filter(content, filters, sentimentOk, relevanceOk), "passed_filter") == Bool(true);
      && (passed ==> MinLength <= |Cleaned(s)| <= MaxLength)
      && (sentimentOk && relevanceOk && Scoring(Keywords(filters)) == Returned(true) ==> (passed <==> MinLength <= |Cleaned(s)| <= MaxLength))
      && (|s| < MinLength ==> !passed)
  {
    CleanedShorter(s);
    if Scoring(Keywords(filters)).Returned? {
      FilterScored(s, content, filters, sentimentOk, relevanceOk);
    }
  }

  /** Without keywords the relevance score is 0.0, so no text passes, however good it is. */
  lemma NoKeywordsNeverPass(s: string, content: Value, filters: Value, sentimentOk: bool, relevanceOk: bool)
    requires content.Dict? && Get(content, "text") == Str(s) && s != "" && filters.Dict? && !Truthy(Keywords(filters))
    ensures Get(Filter(content, filters, sentimentOk, relevanceOk), "success") == Bool(true)
    ensures Get(Filter(content, filters, sentimentOk, relevanceOk), "passed_filter") == Bool(false)
  {
    FilterScored(s, content, filters, sentimentOk, relevanceOk);
  }

  /** A keyword that is not a string makes the filter fail with the `AttributeError` of its `.lower()`. */
  lemma NonStringKeywordFails(s: string, content: Value, filters: Value, sentimentOk: bool, relevanceOk: bool)
    requires content.Dict? && Get(content, "text") == Str(s) && s != "" && filters.Dict?
    requires Keywords(filters).List? && FirstNonString(Keywords(filters).items).Some?
    ensures Filter(content, filters, sentimentOk, relevanceOk) == Rejected(Scoring(Keywords(filters)).exc.msg)
    ensures Get(Filter(content, filters, sentimentOk, relevanceOk), "success") == Bool(false)
  {
  }
}
