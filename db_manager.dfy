/**
 * The database manager: the post history, content source and metrics
 * tables, and the operations the bot uses on them.
 *
 * A table is a sequence of records, and a record's `id` is its position
 * plus one (autoincrement, nothing is deleted). Whether the session's
 * commit succeeds is the argument `saved`; a failed commit is rolled
 * back, so the tables stay as they were. A column a record does not carry
 * reads as `None`.
 */
module Database {
  import opened Py
  import opened Text
  import opened DbFields

  const ValidPlatforms: seq<string> := ["twitter", "linkedin"]
  const ValidStatuses: seq<string> := ["pending", "generated", "scheduled", "posted", "failed"]
  const SecondsPerDay := 86400

  /** A column of a record; `None` when the record does not carry it. */
  function Column(row: seq<Entry>, name: string): Value
  {
    match Lookup(row, name)
    case Some(v) => v
    case None => Null
  }

  /** What `v or 0` adds to an int: an int itself, `True` as 1, and 0 for a falsy value. */
  function Count(v: Value): int
  {
    match v
    case Int(n) => n
    case Bool(b) => if b then 1 else 0
    case _ => 0
  }

  /** `v or 0`. */
  function OrZero(v: Value): Value
  {
    if Truthy(v) then v else Int(0)
  }

  /** `0 + (v or 0)` is defined: `v` is falsy, an int or a bool. */
  predicate Summable(v: Value)
  {
    !Truthy(v) || v.Int? || v.Bool?
  }

  /** The four counts of a metrics record can each be added to an int. */
  predicate CountsSummable(m: seq<Entry>)
  {
    Summable(Column(m, "likes")) && Summable(Column(m, "comments")) && Summable(Column(m, "shares")) && Summable(Column(m, "views"))
  }

  // --------------------------------------------------- add_content_source

  /** The first of `fields` that `data` lacks (a `None` value counts as present). */
  function FirstLacking(data: seq<Entry>, fields: seq<string>): (r: Option<string>)
    ensures r.None? <==> forall i :: 0 <= i < |fields| ==> Lookup(data, fields[i]).Some?
    ensures r.Some? ==> r.value in fields && Lookup(data, r.value).None?
  {
    if fields == [] then None
    else if Lookup(data, fields[0]).None? then Some(fields[0])
    else FirstLacking(data, fields[1..])
  }

  /** The copy loop of `add_content_source` over `fields`: a supplied value, else a default, else nothing. */
  function Copied(data: seq<Entry>, fields: seq<string>, defaults: seq<Entry>): seq<Entry>
  {
    if fields == [] then []
    else
      var acc := Copied(data, fields[..|fields| - 1], defaults);
      var f := fields[|fields| - 1];
      match Lookup(data, f)
      case Some(v) => Assign(acc, f, v)
      case None =>
        match Lookup(defaults, f)
        case Some(d) => Assign(acc, f, d)
        case None => acc
  }

  /** The record `add_content_source` stores, or the `ValueError` for the first missing required field. */
  function SourceRow(data: seq<Entry>, now: int): Outcome<seq<Entry>>
  {
    var s := ContentSourceFields(now);
    match FirstLacking(data, s.required)
    case Some(f) => Raised(Exc(ValueError, "Missing required field: " + f))
    case None => Returned(Copied(data, Listed(s), s.defaults))
  }

  /** The checks and the copy loop of `add_content_source`. */
  method SourceFields(data: seq<Entry>, now: int) returns (r: Outcome<seq<Entry>>)
    ensures r == SourceRow(data, now)
  {
    var s := ContentSourceFields(now);
    var lacking := FirstLacking(data, s.required);
    if lacking.Some? {
      return Raised(Exc(ValueError, "Missing required field: " + lacking.value));
    }
    var fields := Listed(s);
    var filtered: seq<Entry> := [];
    for i := 0 to |fields|
      invariant filtered == Copied(data, fields[..i], s.defaults)
    {
      assert fields[..i + 1][..i] == fields[..i];
      var f := fields[i];
      match Lookup(data, f)
      case Some(v) =>
        filtered := Assign(filtered, f, v);
      case None =>
        match Lookup(s.defaults, f)
        case Some(d) =>
          filtered := Assign(filtered, f, d);
        case None =>
    }
    assert fields[..|fields|] == fields;
    r := Returned(filtered);
  }

  /** The copy loop carries exactly the listed fields that are supplied or defaulted, supplied values unchanged (`None` included). */
  lemma {:induction false} CopiedLookup(data: seq<Entry>, fields: seq<string>, defaults: seq<Entry>)
    ensures forall k :: Lookup(Copied(data, fields, defaults), k) == if k !in fields then None else if Lookup(data, k).Some? then Lookup(data, k) else Lookup(defaults, k)
  {
    if fields != [] {
      var front := fields[..|fields| - 1];
      CopiedLookup(data, front, defaults);
      assert fields == front + [fields[|fields| - 1]];
    }
  }

  /**
   * `add_content_source` stores nothing when `source_type`, `category` or
   * `content_hash` is absent; otherwise the record holds only listed
   * fields, a supplied value unchanged, and the defaults for an absent
   * `created_at` or `source_type`.
   */
  lemma SourceRowFields(data: seq<Entry>, now: int)
    ensures SourceRow(data, now).Raised? <==>
      Lookup(data, "source_type").None? || Lookup(data, "category").None? || Lookup(data, "content_hash").None?
    ensures SourceRow(data, now).Returned? ==>
      var row := SourceRow(data, now).value;
      && (forall k :: k !in Listed(ContentSourceFields(now)) ==> Lookup(row, k).None?)
      && (forall k :: Lookup(data, k).Some? && k in Listed(ContentSourceFields(now)) ==> Lookup(row, k) == Lookup(data, k))
      && (Lookup(data, "created_at").None? ==> Lookup(row, "created_at") == Some(Int(now)))
      && (Lookup(data, "source_type").Some? ==> Lookup(row, "source_type") == Lookup(data, "source_type"))
  {
    var s := ContentSourceFields(now);
    var r := FirstLacking(data, s.required);
    assert |s.required| == 3 && s.required[0] == "source_type" && s.required[1] == "category" && s.required[2] == "content_hash";
    if r.None? {
      CopiedLookup(data, Listed(s), s.defaults);
      assert "created_at" in Listed(s);
      LookupAt(s.defaults, "created_at", 0);
    }
  }

  // ---------------------------------------------------------- create_post

  function PlatformError(): string
  {
    "Invalid platform. Must be one of: " + Join(ValidPlatforms, ", ")
  }

  function StatusError(): string
  {
    "Invalid status. Must be one of: " + Join(ValidStatuses, ", ")
  }

  /** `post_data.get('platform', '')`. */
  function PlatformOf(postData: seq<Entry>): Value
  {
    match Lookup(postData, "platform") case Some(v) => v case None => Str("")
  }

  /** The platform check of `create_post`: `str(platform).lower()` is `twitter` or `linkedin`. */
  predicate PlatformAccepted(postData: seq<Entry>)
  {
    Lower(PyStr(PlatformOf(postData))) in ValidPlatforms
  }

  /** The status check of `create_post`: a status, if given, is valid once lower-cased. */
  predicate StatusAccepted(postData: seq<Entry>)
  {
    Lookup(postData, "status").None? || Lower(PyStr(Lookup(postData, "status").value)) in ValidStatuses
  }

  /** The content hash is generated only when the record has no `content_hash` key. */
  function Hashed(filtered: seq<Entry>, hash: Value -> string): seq<Entry>
  {
    if Lookup(filtered, "content_hash").None? then Assign(filtered, "content_hash", Str(hash(Column(filtered, "content"))))
    else filtered
  }

  /**
   * The record `create_post` stores (without its id), or why it refuses:
   * the platform check, the status check, then the required fields.
   */
  function PostRow(postData: seq<Entry>, now: int, hash: Value -> string): (r: Outcome<seq<Entry>>)
    ensures r.Raised? ==> r.exc.kind == ValueError
  {
    if !PlatformAccepted(postData) then Raised(Exc(ValueError, PlatformError()))
    else if !StatusAccepted(postData) then Raised(Exc(ValueError, StatusError()))
    else
      PreparedRaises(postData, PostHistoryFields(now));
      match Prepared(postData, PostHistoryFields(now))
      case Raised(e) => Raised(e)
      case Returned(filtered) => Returned(Hashed(filtered, hash))
  }

  /** The checks of `create_post` and the record it builds. */
  method PostRecord(postData: seq<Entry>, now: int, hash: Value -> string) returns (r: Outcome<seq<Entry>>)
    ensures r == PostRow(postData, now, hash)
  {
    if !PlatformAccepted(postData) {
      return Raised(Exc(ValueError, PlatformError()));
    }
    if !StatusAccepted(postData) {
      return Raised(Exc(ValueError, StatusError()));
    }
    var prepared := Prepare(postData, PostHistoryFields(now));
    if prepared.Raised? {
      return prepared;
    }
    var filtered := prepared.value;
    if Lookup(filtered, "content_hash").None? {
      filtered := Assign(filtered, "content_hash", Str(hash(Column(filtered, "content"))));
    }
    r := Returned(filtered);
  }

  /** A platform outside `twitter`/`linkedin` in any case, and a status that is invalid or `None`, are refused. */
  lemma PostRowRefusals(postData: seq<Entry>, now: int, hash: Value -> string)
    ensures !PlatformAccepted(postData) ==> PostRow(postData, now, hash) == Raised(Exc(ValueError, PlatformError()))
    ensures PlatformAccepted(postData) && !StatusAccepted(postData) ==> PostRow(postData, now, hash) == Raised(Exc(ValueError, StatusError()))
    ensures Lookup(postData, "status") == Some(Null) ==> PostRow(postData, now, hash).Raised?
  {
    if Lookup(postData, "status") == Some(Null) {
      assert Lower(PyStr(Null)) == "none";
    }
  }

  /** Past the two checks, a post is refused exactly when its platform or content is absent or `None`. */
  lemma PostRowRequired(postData: seq<Entry>, now: int, hash: Value -> string)
    requires PlatformAccepted(postData) && StatusAccepted(postData)
    ensures PostRow(postData, now, hash).Raised? <==> Absent(postData, "platform") || Absent(postData, "content")
  {
    var s := PostHistoryFields(now);
    PreparedRaises(postData, s);
    assert s.required == ["platform", "content"];
    assert PostRow(postData, now, hash).Raised? <==> Prepared(postData, s).Raised?;
  }

  /** An accepted status is not `None`: `str(None).lower()` is `none`. */
  lemma StatusNotNull(postData: seq<Entry>)
    requires StatusAccepted(postData) && Lookup(postData, "status").Some?
    ensures Lookup(postData, "status").value != Null
  {
    assert Lower(PyStr(Null)) == "none";
  }

  /** The post schema lists platform, content, hash and status; only status and the creation time have defaults. */
  lemma PostSchema(now: int)
    ensures var s := PostHistoryFields(now);
      && UniqueKeys(s.defaults)
      && "platform" in Listed(s) && "content" in Listed(s) && "content_hash" in Listed(s) && "status" in Listed(s)
      && "platform" !in KeysOf(s.defaults) && "content" !in KeysOf(s.defaults) && "content_hash" !in KeysOf(s.defaults)
      && s.defaults[0] == Entry("status", Str("pending"))
  {
    var s := PostHistoryFields(now);
    SchemasWellFormed(now);
    assert Listed(s)[0] == "platform" && Listed(s)[1] == "content" && Listed(s)[3] == "content_hash" && Listed(s)[7] == "status";
    assert KeysOf(s.defaults) == ["status", "created_at"];
  }

  /** What preparation keeps of a post: platform, content and a supplied hash as given, the status or `pending`. */
  lemma PostPrepared(postData: seq<Entry>, now: int)
    requires Prepared(postData, PostHistoryFields(now)).Returned?
    ensures var filtered := Prepared(postData, PostHistoryFields(now)).value;
      && Lookup(filtered, "platform") == Lookup(postData, "platform")
      && Lookup(filtered, "content") == Lookup(postData, "content")
      && Lookup(filtered, "content_hash") == Lookup(postData, "content_hash")
      && Lookup(filtered, "status") == if Absent(postData, "status") then Some(Str("pending")) else Lookup(postData, "status")
  {
    var s := PostHistoryFields(now);
    PostSchema(now);
    PreparedKeeps(postData, s, "platform");
    PreparedKeeps(postData, s, "content");
    PreparedKeeps(postData, s, "content_hash");
    PreparedDefault(postData, s, 0);
  }

  /**
   * The platform and status are stored as given, not lower-cased; without
   * a status the post is `pending`; the hash is computed only when none is
   * supplied.
   */
  lemma PostRowStored(postData: seq<Entry>, now: int, hash: Value -> string)
    requires PostRow(postData, now, hash).Returned?
    ensures var row := PostRow(postData, now, hash).value;
      && Lookup(row, "platform") == Lookup(postData, "platform")
      && (Lookup(postData, "status").None? ==> Lookup(row, "status") == Some(Str("pending")))
      && (Lookup(postData, "status").Some? ==> Lookup(row, "status") == Lookup(postData, "status"))
      && (Lookup(postData, "content_hash").Some? ==> Lookup(row, "content_hash") == Lookup(postData, "content_hash"))
      && (Lookup(postData, "content_hash").None? ==> Lookup(row, "content_hash") == Some(Str(hash(Column(postData, "content")))))
  {
    PostPrepared(postData, now);
    var filtered := Prepared(postData, PostHistoryFields(now)).value;
    assert PostRow(postData, now, hash).value == Hashed(filtered, hash);
    HashedKeeps(filtered, hash, "platform");
    HashedKeeps(filtered, hash, "status");
    if Lookup(postData, "status").Some? {
      StatusNotNull(postData);
    }
  }

  lemma HashedKeeps(filtered: seq<Entry>, hash: Value -> string, k: string)
    requires k != "content_hash"
    ensures Lookup(Hashed(filtered, hash), k) == Lookup(filtered, k)
  {
  }

  // ------------------------------------------------- update_post_status

  /** A record after `update_post_status`. */
  function StatusUpdated(row: seq<Entry>, status: string, errorMessage: Option<string>, now: int): seq<Entry>
  {
    var withStatus := Assign(row, "status", Str(status));
    var withMessage := if errorMessage.Some? && errorMessage.value != "" then Assign(withStatus, "error_message", Str(errorMessage.value)) else withStatus;
    if status == "posted" then Assign(withMessage, "posted_at", Int(now)) else withMessage
  }

  /**
   * The status is always set (unchecked); the error message is replaced
   * only by a non-empty one; `posted_at` is set exactly for `posted`;
   * nothing else, the id included, changes.
   */
  lemma StatusUpdatedFields(row: seq<Entry>, status: string, errorMessage: Option<string>, now: int)
    ensures var r := StatusUpdated(row, status, errorMessage, now);
      && Lookup(r, "status") == Some(Str(status))
      && Lookup(r, "error_message") == (if errorMessage.Some? && errorMessage.value != "" then Some(Str(errorMessage.value)) else Lookup(row, "error_message"))
      && Lookup(r, "posted_at") == (if status == "posted" then Some(Int(now)) else Lookup(row, "posted_at"))
      && forall k :: k != "status" && k != "error_message" && k != "posted_at" ==> Lookup(r, k) == Lookup(row, k)
  {
  }

  // --------------------------------------------------- get_post_history

  /** `if x:` for an optional string. */
  predicate Given(x: Option<string>)
  {
    x.Some? && x.value != ""
  }

  /** The three filters of `get_post_history`, after the checks. */
  datatype Query = Query(platform: Option<string>, status: Option<string>, cutoff: Option<int>)

  /** The query `get_post_history` builds, or the `ValueError` for an invalid filter. */
  function HistoryQuery(platform: Option<string>, status: Option<string>, days: Option<int>, now: int): (r: Outcome<Query>)
    ensures r.Returned? ==> r.value.platform.Some? ==> r.value.platform.value in ValidPlatforms
    ensures r.Returned? ==> r.value.status.Some? ==> r.value.status.value in ValidStatuses
  {
    if Given(platform) && Lower(platform.value) !in ValidPlatforms then Raised(Exc(ValueError, PlatformError()))
    else if Given(status) && Lower(status.value) !in ValidStatuses then Raised(Exc(ValueError, StatusError()))
    else
      Returned(Query(if Given(platform) then Some(Lower(platform.value)) else None,
                     if Given(status) then Some(Lower(status.value)) else None,
                     if days.Some? && days.value != 0 then Some(now - days.value * SecondsPerDay) else None))
  }

  /** A record the query selects; a `None` timestamp is never at or after the cutoff. */
  predicate Selects(q: Query, row: seq<Entry>)
  {
    && (q.platform.Some? ==> Column(row, "platform") == Str(q.platform.value))
    && (q.status.Some? ==> Column(row, "status") == Str(q.status.value))
    && (q.cutoff.Some? ==> Column(row, "created_at").Int? && Column(row, "created_at").i >= q.cutoff.value)
  }

  /** A record as `get_post_history` reports it. */
  function Report(row: seq<Entry>): Value
  {
    Dict([Entry("id", Column(row, "id")), Entry("platform", Column(row, "platform")), Entry("content", Column(row, "content")),
          Entry("status", Column(row, "status")), Entry("error_message", Column(row, "error_message")),
          Entry("posted_at", Column(row, "posted_at")), Entry("scheduled_for", Column(row, "scheduled_for")),
          Entry("created_at", Column(row, "created_at"))])
  }

  /** The reports of the selected records, in table order. */
  function Selected(q: Query, rows: seq<seq<Entry>>): (r: seq<Value>)
    ensures |r| <= |rows|
  {
    if rows == [] then []
    else Selected(q, rows[..|rows| - 1]) + if Selects(q, rows[|rows| - 1]) then [Report(rows[|rows| - 1])] else []
  }

  /** `get_post_history`: an invalid filter gives `[]`. */
  function History(rows: seq<seq<Entry>>, platform: Option<string>, status: Option<string>, days: Option<int>, now: int): seq<Value>
  {
    match HistoryQuery(platform, status, days, now)
    case Raised(_) => []
    case Returned(q) => Selected(q, rows)
  }

  /** Every report is of a selected record, and every selected record is reported. */
  lemma {:induction false} SelectedExactly(q: Query, rows: seq<seq<Entry>>)
    ensures forall v :: v in Selected(q, rows) ==> exists i :: 0 <= i < |rows| && Selects(q, rows[i]) && v == Report(rows[i])
    ensures forall i :: 0 <= i < |rows| && Selects(q, rows[i]) ==> Report(rows[i]) in Selected(q, rows)
  {
    if rows != [] {
      var front := rows[..|rows| - 1];
      SelectedExactly(q, front);
      forall v | v in Selected(q, rows)
        ensures exists i :: 0 <= i < |rows| && Selects(q, rows[i]) && v == Report(rows[i])
      {
        if v in Selected(q, front) {
          var i :| 0 <= i < |front| && Selects(q, front[i]) && v == Report(front[i]);
          assert rows[i] == front[i];
        } else {
          assert Selects(q, rows[|rows| - 1]) && v == Report(rows[|rows| - 1]);
        }
      }
      forall i | 0 <= i < |rows| && Selects(q, rows[i])
        ensures Report(rows[i]) in Selected(q, rows)
      {
        if i < |rows| - 1 {
          assert rows[i] == front[i];
        }
      }
    }
  }

  /**
   * An invalid platform or status filter gives `[]`; a stored platform
   * is compared as stored, so a record saved as `Twitter` is never found
   * by the filter `twitter`.
   */
  lemma HistoryFilters(rows: seq<seq<Entry>>, platform: Option<string>, status: Option<string>, days: Option<int>, now: int)
    ensures Given(platform) && Lower(platform.value) !in ValidPlatforms ==> History(rows, platform, status, days, now) == []
    ensures Given(status) && Lower(status.value) !in ValidStatuses ==> History(rows, platform, status, days, now) == []
    ensures Given(platform) && HistoryQuery(platform, status, days, now).Returned? ==>
      forall row :: Selects(HistoryQuery(platform, status, days, now).value, row) ==> Column(row, "platform") == Str(Lower(platform.value))
    ensures Given(platform) && HistoryQuery(platform, status, days, now).Returned? ==>
      forall v :: v in History(rows, platform, status, days, now) ==>
        exists i :: 0 <= i < |rows| && Column(rows[i], "platform") == Str(Lower(platform.value)) && v == Report(rows[i])
  {
    if HistoryQuery(platform, status, days, now).Returned? {
      SelectedExactly(HistoryQuery(platform, status, days, now).value, rows);
    }
  }

  // -------------------------------------------------- platform analytics

  datatype Totals = Totals(likes: int, comments: int, shares: int, views: int)

  /** What `get_platform_analytics` reports, without the floats: the post count, the totals, and the entries of the posts with metrics. */
  datatype Analytics = Analytics(totalPosts: nat, engagement: Totals, postMetrics: seq<Value>)

  /** The `posts` entry of a post with metrics, without its `engagement_rate` and with `posted_at` as stored. */
  function PostEntry(post: seq<Entry>, m: seq<Entry>): Value
  {
    Dict([Entry("post_id", Column(post, "id")), Entry("content", Column(post, "content")), Entry("posted_at", Column(post, "posted_at")),
          Entry("metrics", Dict([Entry("likes", OrZero(Column(m, "likes"))), Entry("comments", OrZero(Column(m, "comments"))),
                                 Entry("shares", OrZero(Column(m, "shares"))), Entry("views", OrZero(Column(m, "views")))]))])
  }

  /** The first metrics record of a post (`.first()`), if any. */
  function MetricsOf(metrics: seq<seq<Entry>>, postId: Value): (r: Option<seq<Entry>>)
    ensures r.Some? ==> r.value in metrics && Column(r.value, "post_id") == postId
    ensures r.None? ==> forall m :: m in metrics ==> Column(m, "post_id") != postId
  {
    if metrics == [] then None
    else if Column(metrics[0], "post_id") == postId then Some(metrics[0])
    else MetricsOf(metrics[1..], postId)
  }

  /** A post of the platform posted within `[start, end]` (SQL `BETWEEN`). */
  predicate InRange(row: seq<Entry>, platform: string, start: int, end: int)
  {
    Column(row, "platform") == Str(platform) && Column(row, "posted_at").Int? && start <= Column(row, "posted_at").i <= end
  }

  function Add(t: Totals, m: seq<Entry>): Totals
  {
    Totals(t.likes + Count(Column(m, "likes")), t.comments + Count(Column(m, "comments")),
           t.shares + Count(Column(m, "shares")), t.views + Count(Column(m, "views")))
  }

  /** The loop of `get_platform_analytics` over the posts it selected. */
  function Summed(posts: seq<seq<Entry>>, metrics: seq<seq<Entry>>): Analytics
  {
    if posts == [] then Analytics(0, Totals(0, 0, 0, 0), [])
    else
      var a := Summed(posts[..|posts| - 1], metrics);
      var post := posts[|posts| - 1];
      match MetricsOf(metrics, Column(post, "id"))
      case None => a.(totalPosts := a.totalPosts + 1)
      case Some(m) => Analytics(a.totalPosts + 1, Add(a.engagement, m), a.postMetrics + [PostEntry(post, m)])
  }

  /** The posts `get_platform_analytics` selects, in table order. */
  function InRangePosts(rows: seq<seq<Entry>>, platform: string, start: int, end: int): (r: seq<seq<Entry>>)
    ensures forall p :: p in r ==> InRange(p, platform, start, end) && p in rows
    ensures forall p :: p in rows && InRange(p, platform, start, end) ==> p in r
  {
    if rows == [] then []
    else InRangePosts(rows[..|rows| - 1], platform, start, end) + if InRange(rows[|rows| - 1], platform, start, end) then [rows[|rows| - 1]] else []
  }

  /** Every selected post is counted, with or without metrics. */
  lemma {:induction false} SummedCounts(posts: seq<seq<Entry>>, metrics: seq<seq<Entry>>)
    ensures Summed(posts, metrics).totalPosts == |posts|
    ensures |Summed(posts, metrics).postMetrics| <= |posts|
  {
    if posts != [] {
      SummedCounts(posts[..|posts| - 1], metrics);
    }
  }

  /**
   * A post without metrics is counted but adds nothing to the totals; one
   * with metrics adds each count `or 0` (`True` as 1, `None` as 0) and
   * its `posts` entry, each count there `or 0`.
   */
  lemma SummedStep(posts: seq<seq<Entry>>, post: seq<Entry>, metrics: seq<seq<Entry>>)
    ensures var before, after := Summed(posts, metrics), Summed(posts + [post], metrics);
      && after.totalPosts == before.totalPosts + 1
      && (MetricsOf(metrics, Column(post, "id")).None? ==> after.engagement == before.engagement && after.postMetrics == before.postMetrics)
      && (MetricsOf(metrics, Column(post, "id")).Some? ==>
            var m := MetricsOf(metrics, Column(post, "id")).value;
            && after.engagement.likes == before.engagement.likes + Count(Column(m, "likes"))
            && after.engagement.comments == before.engagement.comments + Count(Column(m, "comments"))
            && after.engagement.shares == before.engagement.shares + Count(Column(m, "shares"))
            && after.engagement.views == before.engagement.views + Count(Column(m, "views"))
            && after.postMetrics == before.postMetrics + [PostEntry(post, m)]
            && Get(after.postMetrics[|after.postMetrics| - 1], "post_id") == Column(post, "id"))
  {
    assert (posts + [post])[..|posts|] == posts;
  }

  /** Without any metrics record the totals are zero, whatever the number of posts. */
  lemma {:induction false} NoMetricsNoEngagement(posts: seq<seq<Entry>>)
    ensures Summed(posts, []).engagement == Totals(0, 0, 0, 0) && Summed(posts, []).postMetrics == []
  {
    if posts != [] {
      NoMetricsNoEngagement(posts[..|posts| - 1]);
    }
  }

  // ------------------------------------------------------- update_metrics

  /** `{**base, **extra}`: the entries of `extra` assigned in order. */
  function Merged(base: seq<Entry>, extra: seq<Entry>): seq<Entry>
    decreases |extra|
  {
    if extra == [] then base
    else Merged(Assign(base, extra[0].key, extra[0].val), extra[1..])
  }

  /** A later key wins: a merged dict holds `extra`'s value where it has one, `base`'s elsewhere. */
  lemma {:induction false} MergedLookup(base: seq<Entry>, extra: seq<Entry>)
    requires UniqueKeys(extra)
    ensures forall k :: Lookup(Merged(base, extra), k) == if Lookup(extra, k).Some? then Lookup(extra, k) else Lookup(base, k)
    decreases |extra|
  {
    if extra != [] {
      var rest := extra[1..];
      assert UniqueKeys(rest) by {
        forall i, j | 0 <= i < j < |rest|
          ensures rest[i].key != rest[j].key
        {
          assert rest[i] == extra[i + 1] && rest[j] == extra[j + 1];
        }
      }
      MergedLookup(Assign(base, extra[0].key, extra[0].val), rest);
      assert Lookup(rest, extra[0].key).None? by {
        forall e | e in rest
          ensures e.key != extra[0].key
        {
          var j :| 0 <= j < |rest| && rest[j] == e;
          assert extra[j + 1] == e;
        }
        LookupAbsent(rest, extra[0].key);
      }
    }
  }

  /** The index of the first metrics record of a post. */
  function MetricsIndex(metrics: seq<seq<Entry>>, postId: Value): (r: Option<nat>)
    ensures r.Some? ==> r.value < |metrics| && Column(metrics[r.value], "post_id") == postId
    ensures r.Some? ==> forall j :: 0 <= j < r.value ==> Column(metrics[j], "post_id") != postId
    ensures r.None? ==> forall j :: 0 <= j < |metrics| ==> Column(metrics[j], "post_id") != postId
  {
    if metrics == [] then None
    else if Column(metrics[0], "post_id") == postId then Some(0)
    else match MetricsIndex(metrics[1..], postId)
      case None => None
      case Some(i) => Some(i + 1)
  }

  /** The record `update_metrics` prepares from `{'post_id': post_id, **metrics_data}`. */
  function MetricsRecord(postId: int, metricsData: seq<Entry>, now: int): Outcome<seq<Entry>>
  {
    Prepared(Merged([Entry("post_id", Int(postId))], metricsData), ContentMetricsFields(now))
  }

  /** The `TypeError` of `n <op> v` for an int `n`. */
  function Unsupported(op: string, v: Value): Exc
  {
    Exc(TypeError, "unsupported operand type(s) for " + op + ": 'int' and '" + TypeName(v) + "'")
  }

  /**
   * The exception `update_metrics` meets once the record holds its new
   * fields, if any: `sum` of likes, comments and shares, each `or 0`; the
   * division by a truthy `views`; `append` on `metrics_history or []`.
   */
  function EngagementError(rec: seq<Entry>): (r: Option<Exc>)
    ensures r.None? <==> CountsSummable(rec) && (Truthy(Column(rec, "metrics_history")) ==> Column(rec, "metrics_history").List?)
    ensures !CountsSummable(rec) ==> r.Some? && r.value.kind == TypeError
    ensures CountsSummable(rec) && r.Some? ==> r.value.kind == AttributeError
  {
    var likes, comments, shares, views := Column(rec, "likes"), Column(rec, "comments"), Column(rec, "shares"), Column(rec, "views");
    var history := Column(rec, "metrics_history");
    if !Summable(likes) then Some(Unsupported("+", likes))
    else if !Summable(comments) then Some(Unsupported("+", comments))
    else if !Summable(shares) then Some(Unsupported("+", shares))
    else if !Summable(views) then Some(Unsupported("/", views))
    else if Truthy(history) && !history.List? then Some(Exc(AttributeError, NoAttribute(history, "append")))
    else None
  }

  /** The post's metrics record once `update_metrics` has filled in or assigned the prepared fields. */
  function UpdatedRecord(metrics: seq<seq<Entry>>, postId: int, filtered: seq<Entry>): seq<Entry>
  {
    match MetricsIndex(metrics, Int(postId))
    case None => filtered
    case Some(i) => Merged(metrics[i], filtered)
  }

  /**
   * The metrics table after `update_metrics`, or the exception that makes
   * it return `False`: the `ValueError` of the preparation, or the
   * `TypeError` or `AttributeError` of the engagement and history steps.
   */
  function MetricsAfter(metrics: seq<seq<Entry>>, postId: int, metricsData: seq<Entry>, now: int): Outcome<seq<seq<Entry>>>
  {
    match MetricsRecord(postId, metricsData, now)
    case Raised(e) => Raised(e)
    case Returned(filtered) =>
      var rec := UpdatedRecord(metrics, postId, filtered);
      match EngagementError(rec)
      case Some(e) => Raised(e)
      case None =>
        match MetricsIndex(metrics, Int(postId))
        case None => Returned(metrics + [rec])
        case Some(i) => Returned(metrics[i := rec])
  }

  /** The counts `update_metrics` defaults to 0. */
  const CountKeys: seq<string> := ["likes", "comments", "shares", "views", "clicks"]

  /**
   * Without a `post_id` of its own in `metrics_data` the record is always
   * prepared: it carries the post's id, and each count is the given value
   * or else 0.
   */
  lemma MetricsRecordFields(postId: int, metricsData: seq<Entry>, now: int)
    requires UniqueKeys(metricsData) && Lookup(metricsData, "post_id").None?
    ensures MetricsRecord(postId, metricsData, now).Returned?
    ensures var r := MetricsRecord(postId, metricsData, now).value;
      && UniqueKeys(r)
      && Lookup(r, "post_id") == Some(Int(postId))
      && forall k :: k in CountKeys ==> Lookup(r, k) == if Absent(metricsData, k) then Some(Int(0)) else Lookup(metricsData, k)
  {
    MetricsRecordPrepared(postId, metricsData, now);
    MetricsRecordCounts(postId, metricsData, now);
  }

  /** The merge with the post's id always passes the required check, keeps that id and has distinct keys. */
  lemma MetricsRecordPrepared(postId: int, metricsData: seq<Entry>, now: int)
    requires UniqueKeys(metricsData) && Lookup(metricsData, "post_id").None?
    ensures MetricsRecord(postId, metricsData, now).Returned?
    ensures UniqueKeys(MetricsRecord(postId, metricsData, now).value)
    ensures Lookup(MetricsRecord(postId, metricsData, now).value, "post_id") == Some(Int(postId))
  {
    var s := ContentMetricsFields(now);
    var base := [Entry("post_id", Int(postId))];
    var merged := Merged(base, metricsData);
    MergedLookup(base, metricsData);
    assert Lookup(merged, "post_id") == Some(Int(postId));
    PreparedRaises(merged, s);
    assert s.required == ["post_id"];
    SchemasWellFormed(now);
    MetricsSchema(now);
    PreparedKeeps(merged, s, "post_id");
    MergedUnique(base, metricsData);
    UniqueFilled(Prepared(merged, s).value, s, merged);
  }

  /** Each count of a prepared metrics record is the given value, or else 0. */
  lemma MetricsRecordCounts(postId: int, metricsData: seq<Entry>, now: int)
    requires UniqueKeys(metricsData) && MetricsRecord(postId, metricsData, now).Returned?
    ensures forall k :: k in CountKeys ==>
      Lookup(MetricsRecord(postId, metricsData, now).value, k) == if Absent(metricsData, k) then Some(Int(0)) else Lookup(metricsData, k)
  {
    forall k | k in CountKeys
      ensures Lookup(MetricsRecord(postId, metricsData, now).value, k) == if Absent(metricsData, k) then Some(Int(0)) else Lookup(metricsData, k)
    {
      var i :| 0 <= i < |CountKeys| && CountKeys[i] == k;
      MetricsRecordCount(postId, metricsData, now, i);
    }
  }

  /** The count `CountKeys[i]` of a prepared metrics record. */
  lemma MetricsRecordCount(postId: int, metricsData: seq<Entry>, now: int, i: nat)
    requires UniqueKeys(metricsData) && MetricsRecord(postId, metricsData, now).Returned? && i < |CountKeys|
    ensures Lookup(MetricsRecord(postId, metricsData, now).value, CountKeys[i]) ==
      if Absent(metricsData, CountKeys[i]) then Some(Int(0)) else Lookup(metricsData, CountKeys[i])
  {
    MetricsSchemaAt(now, i);
    MergedDefault([Entry("post_id", Int(postId))], metricsData, ContentMetricsFields(now), i, i + 1);
  }

  /** The metrics schema's default `i` is the count `CountKeys[i]` at 0, listed right after `post_id`'s position plus `i`. */
  lemma MetricsSchemaAt(now: int, i: nat)
    requires i < |CountKeys|
    ensures var s := ContentMetricsFields(now);
      && UniqueKeys(s.defaults) && i < |s.defaults| && i + 1 < |Listed(s)|
      && s.defaults[i] == Entry(CountKeys[i], Int(0)) && Listed(s)[i + 1] == CountKeys[i] && CountKeys[i] != "post_id"
  {
    SchemasWellFormed(now);
    MetricsSchema(now);
  }

  /** The metrics schema's first five defaults are the counts, at 0, listed after `post_id`. */
  lemma MetricsSchema(now: int)
    ensures |ContentMetricsFields(now).defaults| > |CountKeys|
    ensures forall i :: 0 <= i < |CountKeys| ==>
      ContentMetricsFields(now).defaults[i] == Entry(CountKeys[i], Int(0)) && Listed(ContentMetricsFields(now))[i + 1] == CountKeys[i]
    ensures Listed(ContentMetricsFields(now))[0] == "post_id" && "post_id" !in CountKeys
    ensures "post_id" !in KeysOf(ContentMetricsFields(now).defaults)
  {
  }

  /** A default whose key the base lacks: the prepared merge holds the given value unless absent or `None`, else the default. */
  lemma MergedDefault(base: seq<Entry>, extra: seq<Entry>, s: Schema, i: nat, j: nat)
    requires UniqueKeys(extra) && UniqueKeys(s.defaults) && Prepared(Merged(base, extra), s).Returned?
    requires i < |s.defaults| && j < |Listed(s)| && Listed(s)[j] == s.defaults[i].key && Lookup(base, s.defaults[i].key).None?
    ensures Lookup(Prepared(Merged(base, extra), s).value, s.defaults[i].key) ==
      if Absent(extra, s.defaults[i].key) then Some(s.defaults[i].val) else Lookup(extra, s.defaults[i].key)
  {
    PreparedDefault(Merged(base, extra), s, i);
    MergedLookup(base, extra);
  }

  /**
   * The first metrics record of a post is created when it has none and its
   * counts and history pass the engagement steps; nothing else changes.
   */
  lemma MetricsCreated(metrics: seq<seq<Entry>>, postId: int, metricsData: seq<Entry>, now: int)
    requires MetricsRecord(postId, metricsData, now).Returned? && MetricsIndex(metrics, Int(postId)).None?
    ensures MetricsAfter(metrics, postId, metricsData, now).Returned? <==> EngagementError(MetricsRecord(postId, metricsData, now).value).None?
    ensures MetricsAfter(metrics, postId, metricsData, now).Returned? ==>
      var after := MetricsAfter(metrics, postId, metricsData, now).value;
      |after| == |metrics| + 1 && after[..|metrics|] == metrics && after[|metrics|] == MetricsRecord(postId, metricsData, now).value
  {
  }

  /**
   * Updating a post's metrics assigns every prepared field, so a count
   * not given is reset to 0; the other records stay.
   */
  lemma MetricsUpdated(metrics: seq<seq<Entry>>, postId: int, metricsData: seq<Entry>, now: int)
    requires UniqueKeys(metricsData) && Lookup(metricsData, "post_id").None?
    requires MetricsIndex(metrics, Int(postId)).Some?
    ensures MetricsRecord(postId, metricsData, now).Returned?
    ensures MetricsAfter(metrics, postId, metricsData, now).Returned? <==>
      EngagementError(Merged(metrics[MetricsIndex(metrics, Int(postId)).value], MetricsRecord(postId, metricsData, now).value)).None?
    ensures MetricsAfter(metrics, postId, metricsData, now).Returned? ==>
      var after, i := MetricsAfter(metrics, postId, metricsData, now).value, MetricsIndex(metrics, Int(postId)).value;
      && |after| == |metrics| && (forall j :: 0 <= j < |metrics| && j != i ==> after[j] == metrics[j])
      && forall k :: k in CountKeys ==> Lookup(after[i], k) == if Absent(metricsData, k) then Some(Int(0)) else Lookup(metricsData, k)
  {
    MetricsRecordFields(postId, metricsData, now);
    var r := MetricsRecord(postId, metricsData, now).value;
    var i := MetricsIndex(metrics, Int(postId)).value;
    MergedLookup(metrics[i], r);
  }

  /** `update_metrics(1, {'likes': 'many'})` returns `False`: `0 + 'many'` raises `TypeError` before the commit. */
  lemma TextCountRejected(metrics: seq<seq<Entry>>, now: int)
    requires MetricsIndex(metrics, Int(1)).None?
    ensures MetricsAfter(metrics, 1, [Entry("likes", Str("many"))], now) == Raised(Unsupported("+", Str("many")))
  {
    var data := [Entry("likes", Str("many"))];
    assert Lookup(data, "post_id").None? && Lookup(data, "likes") == Some(Str("many"));
    MetricsRecordPrepared(1, data, now);
    MetricsRecordCount(1, data, now, 0);
    var r := MetricsRecord(1, data, now).value;
    assert Column(r, "likes") == Str("many");
    assert UpdatedRecord(metrics, 1, r) == r;
    assert EngagementError(r) == Some(Unsupported("+", Str("many")));
  }

  /** `metrics_history` is an optional metrics field without a default. */
  lemma MetricsHistoryListed(now: int)
    ensures "metrics_history" in Listed(ContentMetricsFields(now))
    ensures "metrics_history" !in KeysOf(ContentMetricsFields(now).defaults)
  {
    var s := ContentMetricsFields(now);
    assert Listed(s)[11] == "metrics_history";
    assert KeysOf(s.defaults) == ["likes", "comments", "shares", "views", "clicks", "first_tracked"];
  }

  /** Metrics data that gives no count and no `post_id` yields a record with the counts at 0 and the data's `metrics_history`. */
  lemma HistoryRecord(postId: int, metricsData: seq<Entry>, now: int)
    requires UniqueKeys(metricsData) && Lookup(metricsData, "post_id").None?
    requires forall k :: k in CountKeys ==> Lookup(metricsData, k).None?
    ensures MetricsRecord(postId, metricsData, now).Returned?
    ensures var r := MetricsRecord(postId, metricsData, now).value;
      && Lookup(r, "metrics_history") == Lookup(metricsData, "metrics_history")
      && Column(r, "likes") == Int(0) && Column(r, "comments") == Int(0) && Column(r, "shares") == Int(0) && Column(r, "views") == Int(0)
  {
    MetricsRecordFields(postId, metricsData, now);
    HistoryKept(postId, metricsData, now);
    assert "likes" in CountKeys && "comments" in CountKeys && "shares" in CountKeys && "views" in CountKeys;
  }

  /** A prepared metrics record carries the data's `metrics_history`, if any. */
  lemma HistoryKept(postId: int, metricsData: seq<Entry>, now: int)
    requires UniqueKeys(metricsData) && MetricsRecord(postId, metricsData, now).Returned?
    ensures Lookup(MetricsRecord(postId, metricsData, now).value, "metrics_history") == Lookup(metricsData, "metrics_history")
  {
    var base := [Entry("post_id", Int(postId))];
    var merged := Merged(base, metricsData);
    var s := ContentMetricsFields(now);
    SchemasWellFormed(now);
    MetricsHistoryListed(now);
    PreparedKeeps(merged, s, "metrics_history");
    MergedLookup(base, metricsData);
    assert Lookup(base, "metrics_history") == None;
  }

  /** A `metrics_history` that is not a list makes `append` raise `AttributeError`, so nothing is stored. */
  lemma HistoryNotListRejected(metrics: seq<seq<Entry>>, postId: int, metricsData: seq<Entry>, now: int, history: Value)
    requires UniqueKeys(metricsData) && Lookup(metricsData, "post_id").None?
    requires forall k :: k in CountKeys ==> Lookup(metricsData, k).None?
    requires MetricsIndex(metrics, Int(postId)).None?
    requires Lookup(metricsData, "metrics_history") == Some(history) && Truthy(history) && !history.List?
    ensures MetricsAfter(metrics, postId, metricsData, now) == Raised(Exc(AttributeError, NoAttribute(history, "append")))
  {
    HistoryRecord(postId, metricsData, now);
    var r := MetricsRecord(postId, metricsData, now).value;
    assert Column(r, "metrics_history") == history;
    assert CountsSummable(r);
    assert UpdatedRecord(metrics, postId, r) == r;
    assert EngagementError(r) == Some(Exc(AttributeError, NoAttribute(history, "append")));
  }

  /** A table `update_metrics` stores keeps every record's counts summable. */
  lemma MetricsAfterSummable(metrics: seq<seq<Entry>>, postId: int, metricsData: seq<Entry>, now: int)
    requires forall m :: m in metrics ==> CountsSummable(m)
    requires MetricsAfter(metrics, postId, metricsData, now).Returned?
    ensures forall m :: m in MetricsAfter(metrics, postId, metricsData, now).value ==> CountsSummable(m)
  {
    var rec := UpdatedRecord(metrics, postId, MetricsRecord(postId, metricsData, now).value);
    assert CountsSummable(rec);
    var after := MetricsAfter(metrics, postId, metricsData, now).value;
    forall m | m in after
      ensures CountsSummable(m)
    {
      var j :| 0 <= j < |after| && after[j] == m;
      if j < |metrics| && after[j] != rec {
        assert m == metrics[j];
      }
    }
  }

  /** Merging into a dict without repeated keys keeps it so. */
  lemma {:induction false} MergedUnique(base: seq<Entry>, extra: seq<Entry>)
    requires UniqueKeys(base)
    ensures UniqueKeys(Merged(base, extra))
    decreases |extra|
  {
    if extra != [] {
      AssignKeepsUnique(base, extra[0].key, extra[0].val);
      MergedUnique(Assign(base, extra[0].key, extra[0].val), extra[1..]);
    }
  }

  /** A prepared record has no key twice when its input had none. */
  lemma UniqueFilled(filtered: seq<Entry>, s: Schema, merged: seq<Entry>)
    requires UniqueKeys(merged) && Prepared(merged, s) == Returned(filtered)
    ensures UniqueKeys(filtered)
  {
    var kept := KeepFields(merged, Listed(s));
    KeepUnique(merged, Listed(s));
    FillUnique(kept, s.defaults);
  }

  lemma {:induction false} KeepUnique(entries: seq<Entry>, valid: seq<string>)
    ensures UniqueKeys(KeepFields(entries, valid)) || !UniqueKeys(entries)
  {
    if entries != [] && UniqueKeys(entries) {
      var rest := entries[1..];
      assert UniqueKeys(rest) by {
        forall i, j | 0 <= i < j < |rest|
          ensures rest[i].key != rest[j].key
        {
          assert rest[i] == entries[i + 1] && rest[j] == entries[j + 1];
        }
      }
      KeepUnique(rest, valid);
      assert Lookup(rest, entries[0].key).None? by {
        forall e | e in rest
          ensures e.key != entries[0].key
        {
          var j :| 0 <= j < |rest| && rest[j] == e;
          assert entries[j + 1] == e;
        }
        LookupAbsent(rest, entries[0].key);
      }
      var kr := KeepFields(rest, valid);
      assert Lookup(kr, entries[0].key).None?;
      if entries[0].key in valid {
        assert forall j :: 0 <= j < |kr| ==> kr[j].key != entries[0].key by {
          forall j | 0 <= j < |kr|
            ensures kr[j].key != entries[0].key
          {
            if kr[j].key == entries[0].key {
              LookupFinds(kr, entries[0].key);
            }
          }
        }
      }
    }
  }

  lemma {:induction false} FillUnique(entries: seq<Entry>, defaults: seq<Entry>)
    ensures UniqueKeys(FillDefaults(entries, defaults)) || !UniqueKeys(entries)
  {
    if defaults != [] && UniqueKeys(entries) {
      FillUnique(entries, defaults[..|defaults| - 1]);
      AssignUnique(FillDefaults(entries, defaults[..|defaults| - 1]), defaults[|defaults| - 1]);
    }
  }

  lemma {:induction false} AssignUnique(entries: seq<Entry>, d: Entry)
    requires UniqueKeys(entries)
    ensures UniqueKeys(WithDefault(entries, d))
  {
    if Absent(entries, d.key) {
      AssignKeepsUnique(entries, d.key, d.val);
    }
  }

  lemma {:induction false} AssignKeepsUnique(entries: seq<Entry>, key: string, val: Value)
    requires UniqueKeys(entries)
    ensures UniqueKeys(Assign(entries, key, val))
  {
    if entries != [] && entries[0].key != key {
      var rest := entries[1..];
      assert UniqueKeys(rest) by {
        forall i, j | 0 <= i < j < |rest|
          ensures rest[i].key != rest[j].key
        {
          assert rest[i] == entries[i + 1] && rest[j] == entries[j + 1];
        }
      }
      AssignKeepsUnique(rest, key, val);
      var ar := Assign(rest, key, val);
      assert Lookup(rest, entries[0].key).None? by {
        forall e | e in rest
          ensures e.key != entries[0].key
        {
          var j :| 0 <= j < |rest| && rest[j] == e;
          assert entries[j + 1] == e;
        }
        LookupAbsent(rest, entries[0].key);
      }
      assert Lookup(ar, entries[0].key).None?;
      forall j | 0 <= j < |ar|
        ensures ar[j].key != entries[0].key
      {
        if ar[j].key == entries[0].key {
          LookupFinds(ar, entries[0].key);
        }
      }
    } else if entries != [] {
      assert Assign(entries, key, val)[1..] == entries[1..];
    }
  }

  // -------------------------------------------------------------- manager

  /** Each row's id is its position plus one, as an autoincrement key hands them out. */
  ghost predicate Numbered(rows: seq<seq<Entry>>)
  {
    forall i :: 0 <= i < |rows| ==> Lookup(rows[i], "id") == Some(Int(i + 1))
  }

  /** Appending a row with the next id keeps the numbering. */
  lemma NumberedAppend(rows: seq<seq<Entry>>, row: seq<Entry>)
    requires Numbered(rows) && Lookup(row, "id") == Some(Int(|rows| + 1))
    ensures Numbered(rows + [row])
  {
  }

  /** Replacing a row by one with the same id keeps the numbering. */
  lemma NumberedUpdate(rows: seq<seq<Entry>>, i: nat, row: seq<Entry>)
    requires Numbered(rows) && i < |rows| && Lookup(row, "id") == Lookup(rows[i], "id")
    ensures Numbered(rows[i := row])
  {
  }

  class DatabaseManager {
    var sources: seq<seq<Entry>>
    var posts: seq<seq<Entry>>
    var metrics: seq<seq<Entry>>

    /** A record's id is its position plus one. */
    ghost predicate Valid()
      reads this
    {
      Numbered(posts) && Numbered(sources) && forall m :: m in metrics ==> CountsSummable(m)
    }

    constructor ()
      ensures sources == [] && posts == [] && metrics == [] && Valid()
    {
      sources, posts, metrics := [], [], [];
    }

    /** `add_content_source`: the new record's id, or `None` when a field is missing or the commit fails. */
    method AddContentSource(data: seq<Entry>, now: int, saved: bool) returns (id: Option<int>)
      requires Valid()
      modifies this
      ensures Valid() && posts == old(posts) && metrics == old(metrics)
      ensures SourceRow(data, now).Raised? || !saved ==> id.None? && sources == old(sources)
      ensures SourceRow(data, now).Returned? && saved ==>
        id == Some(|old(sources)| + 1) && sources == old(sources) + [Assign(SourceRow(data, now).value, "id", Int(|old(sources)| + 1))]
    {
      var row := SourceFields(data, now);
      if row.Raised? || !saved {
        return None;
      }
      var newId := |sources| + 1;
      NumberedAppend(sources, Assign(row.value, "id", Int(newId)));
      sources := sources + [Assign(row.value, "id", Int(newId))];
      id := Some(newId);
    }

    /** `create_post`: the stored record, or `None` when it is refused or the commit fails. */
    method CreatePost(postData: seq<Entry>, now: int, hash: Value -> string, saved: bool) returns (post: Option<seq<Entry>>)
      requires Valid()
      modifies this
      ensures Valid() && sources == old(sources) && metrics == old(metrics)
      ensures PostRow(postData, now, hash).Raised? || !saved ==> post.None? && posts == old(posts)
      ensures PostRow(postData, now, hash).Returned? && saved ==>
        post == Some(Assign(PostRow(postData, now, hash).value, "id", Int(|old(posts)| + 1))) && posts == old(posts) + [post.value]
    {
      var record := PostRecord(postData, now, hash);
      if record.Raised? {
        return None;
      }
      var filtered := record.value;
      if !saved {
        return None;
      }
      var row := Assign(filtered, "id", Int(|posts| + 1));
      NumberedAppend(posts, row);
      posts := posts + [row];
      post := Some(row);
    }

    /** `update_post_status`: false for an unknown id or a failed commit, and then nothing changes. */
    method UpdatePostStatus(postId: int, status: string, errorMessage: Option<string>, now: int, saved: bool) returns (ok: bool)
      requires Valid()
      modifies this
      ensures Valid() && sources == old(sources) && metrics == old(metrics)
      ensures ok <==> 1 <= postId <= |old(posts)| && saved
      ensures ok ==> posts == old(posts)[postId - 1 := StatusUpdated(old(posts)[postId - 1], status, errorMessage, now)]
      ensures !ok ==> posts == old(posts)
    {
      if !(1 <= postId <= |posts|) || !saved {
        return false;
      }
      var row := posts[postId - 1];
      StatusUpdatedFields(row, status, errorMessage, now);
      NumberedUpdate(posts, postId - 1, StatusUpdated(row, status, errorMessage, now));
      posts := posts[postId - 1 := StatusUpdated(row, status, errorMessage, now)];
      ok := true;
    }

    /**
     * `update_metrics` without the stored engagement rate and history entry:
     * false when the preparation, the engagement and history steps or the
     * commit fail.
     */
    method UpdateMetrics(postId: int, metricsData: seq<Entry>, now: int, saved: bool) returns (ok: bool)
      requires Valid()
      modifies this
      ensures Valid() && sources == old(sources) && posts == old(posts)
      ensures ok <==> MetricsAfter(old(metrics), postId, metricsData, now).Returned? && saved
      ensures ok ==> metrics == MetricsAfter(old(metrics), postId, metricsData, now).value
      ensures !ok ==> metrics == old(metrics)
    {
      var prepared := Prepare(Merged([Entry("post_id", Int(postId))], metricsData), ContentMetricsFields(now));
      if prepared.Raised? {
        return false;
      }
      var filtered := prepared.value;
      var index := MetricsIndex(metrics, Int(postId));
      var record := if index.None? then filtered else Merged(metrics[index.value], filtered);
      if EngagementError(record).Some? || !saved {
        return false;
      }
      MetricsAfterSummable(metrics, postId, metricsData, now);
      if index.None? {
        metrics := metrics + [record];
      } else {
        metrics := metrics[index.value := record];
      }
      ok := true;
    }

    /** `get_post_history` without the metrics and the ordering: the reports, in table order. */
    method GetPostHistory(platform: Option<string>, status: Option<string>, days: Option<int>, now: int) returns (result: seq<Value>)
      ensures result == History(posts, platform, status, days, now)
    {
      var query := HistoryQuery(platform, status, days, now);
      if query.Raised? {
        return [];
      }
      var q := query.value;
      result := [];
      for i := 0 to |posts|
        invariant result == Selected(q, posts[..i])
      {
        assert posts[..i + 1][..i] == posts[..i];
        if Selects(q, posts[i]) {
          result := result + [Report(posts[i])];
        }
      }
      assert posts[..|posts|] == posts;
    }

    /** `get_platform_analytics` without the floats and the date rendering. */
    method PlatformAnalytics(platform: string, start: int, end: int) returns (r: Analytics)
      requires Valid()
      ensures r == Summed(InRangePosts(posts, platform, start, end), metrics)
      ensures r.totalPosts == |InRangePosts(posts, platform, start, end)|
    {
      var selected := InRangePosts(posts, platform, start, end);
      r := Analytics(0, Totals(0, 0, 0, 0), []);
      for i := 0 to |selected|
        invariant r == Summed(selected[..i], metrics)
      {
        assert selected[..i + 1][..i] == selected[..i];
        var post := selected[i];
        match MetricsOf(metrics, Column(post, "id"))
        case None =>
          r := r.(totalPosts := r.totalPosts + 1);
        case Some(m) =>
          r := Analytics(r.totalPosts + 1, Add(r.engagement, m), r.postMetrics + [PostEntry(post, m)]);
      }
      assert selected[..|selected|] == selected;
      SummedCounts(selected, metrics);
    }
  }
}
