/**
 * The database manager's field schemas and the preparation of a record
 * before it is stored: the required fields must be present and not
 * `None`, only the listed fields are kept, and a default fills a field
 * that is absent or `None`.
 *
 * A record is an entry list (a Python dict keeps its insertion order);
 * timestamps are whole seconds, so `datetime.utcnow` is the argument `now`.
 */
module DbFields {
  import opened Py
  import opened Text

  /** A model's field lists: required, optional, and the defaults in declaration order. */
  datatype Schema = Schema(required: seq<string>, optional: seq<string>, defaults: seq<Entry>)

  /** The fields a record may carry. */
  function Listed(s: Schema): seq<string>
  {
    s.required + s.optional
  }

  /** The keys of an entry list, in order. */
  function KeysOf(entries: seq<Entry>): (r: seq<string>)
    ensures |r| == |entries| && forall i :: 0 <= i < |entries| ==> r[i] == entries[i].key
  {
    seq(|entries|, i requires 0 <= i < |entries| => entries[i].key)
  }

  /** No key occurs twice, as in any Python dict. */
  predicate UniqueKeys(entries: seq<Entry>)
  {
    forall i, j :: 0 <= i < j < |entries| ==> entries[i].key != entries[j].key
  }

  function ContentSourceFields(now: int): Schema
  {
    Schema(["source_type", "category", "content_hash"], ["url", "title", "created_at", "processed_at"],
           [Entry("created_at", Int(now)), Entry("source_type", Str("generated"))])
  }

  function PostHistoryFields(now: int): Schema
  {
    Schema(["platform", "content"],
           ["source_id", "content_hash", "post_id", "posted_at", "scheduled_for", "status", "created_at", "updated_at", "error_message"],
           [Entry("status", Str("pending")), Entry("created_at", Int(now))])
  }

  function ContentMetricsFields(now: int): Schema
  {
    Schema(["post_id"],
           ["likes", "comments", "shares", "views", "clicks", "engagement_rate", "performance_score", "platform_metrics",
            "first_tracked", "last_updated", "metrics_history"],
           [Entry("likes", Int(0)), Entry("comments", Int(0)), Entry("shares", Int(0)), Entry("views", Int(0)),
            Entry("clicks", Int(0)), Entry("first_tracked", Int(now))])
  }

  /** `field not in data or data[field] is None`. */
  predicate Absent(entries: seq<Entry>, field: string)
  {
    Lookup(entries, field).None? || Lookup(entries, field) == Some(Null)
  }

  /** The required fields that are absent or `None`, in order. */
  function MissingFields(entries: seq<Entry>, fields: seq<string>): (r: seq<string>)
    ensures forall f :: f in r <==> f in fields && Absent(entries, f)
  {
    if fields == [] then []
    else (if Absent(entries, fields[0]) then [fields[0]] else []) + MissingFields(entries, fields[1..])
  }

  /** `{k: v for k, v in data.items() if k in valid}`. */
  function KeepFields(entries: seq<Entry>, valid: seq<string>): (r: seq<Entry>)
    ensures forall k :: Lookup(r, k) == if k in valid then Lookup(entries, k) else None
  {
    if entries == [] then []
    else if entries[0].key in valid then [entries[0]] + KeepFields(entries[1..], valid)
    else KeepFields(entries[1..], valid)
  }

  /** One round of the defaults loop: fill `d.key` with `d.val` when it is absent or `None`. */
  function WithDefault(entries: seq<Entry>, d: Entry): seq<Entry>
  {
    if Absent(entries, d.key) then Assign(entries, d.key, d.val) else entries
  }

  /** The defaults loop over `defaults`, in order. */
  function FillDefaults(entries: seq<Entry>, defaults: seq<Entry>): seq<Entry>
  {
    if defaults == [] then entries
    else WithDefault(FillDefaults(entries, defaults[..|defaults| - 1]), defaults[|defaults| - 1])
  }

  /** `_validate_and_prepare_data`. */
  function Prepared(data: seq<Entry>, s: Schema): Outcome<seq<Entry>>
  {
    var missing := MissingFields(data, s.required);
    if missing != [] then Raised(Exc(ValueError, "Missing required fields: " + Join(missing, ", ")))
    else Returned(FillDefaults(KeepFields(data, Listed(s)), s.defaults))
  }

  /** `_validate_and_prepare_data`: the required check, the filter, then the defaults loop. */
  method Prepare(data: seq<Entry>, s: Schema) returns (r: Outcome<seq<Entry>>)
    ensures r == Prepared(data, s)
  {
    var missing := MissingFields(data, s.required);
    if missing != [] {
      return Raised(Exc(ValueError, "Missing required fields: " + Join(missing, ", ")));
    }
    var kept := KeepFields(data, Listed(s));
    var filtered := kept;
    for i := 0 to |s.defaults|
      invariant filtered == FillDefaults(kept, s.defaults[..i])
    {
      assert s.defaults[..i + 1][..i] == s.defaults[..i];
      filtered := WithDefault(filtered, s.defaults[i]);
    }
    assert s.defaults[..|s.defaults|] == s.defaults;
    r := Returned(filtered);
  }

  /** The defaults loop changes only default keys, and fills each exactly when it was absent or `None`. */
  lemma {:induction false} FillDefaultsLookup(entries: seq<Entry>, defaults: seq<Entry>)
    requires UniqueKeys(defaults)
    ensures forall k :: k !in KeysOf(defaults) ==> Lookup(FillDefaults(entries, defaults), k) == Lookup(entries, k)
    ensures forall i :: 0 <= i < |defaults| ==>
      Lookup(FillDefaults(entries, defaults), defaults[i].key) ==
        if Absent(entries, defaults[i].key) then Some(defaults[i].val) else Lookup(entries, defaults[i].key)
  {
    if defaults != [] {
      var front, last := defaults[..|defaults| - 1], defaults[|defaults| - 1];
      FillDefaultsLookup(entries, front);
      assert forall i :: 0 <= i < |front| ==> front[i].key != last.key;
      assert last.key !in KeysOf(front);
      forall k | k !in KeysOf(defaults)
        ensures k !in KeysOf(front) && k != last.key
      {
        assert KeysOf(defaults) == KeysOf(front) + [last.key];
      }
    }
  }

  /** `_validate_and_prepare_data` raises exactly when a required field is absent or `None`. */
  lemma PreparedRaises(data: seq<Entry>, s: Schema)
    ensures Prepared(data, s).Raised? <==> exists f :: f in s.required && Absent(data, f)
    ensures Prepared(data, s).Raised? ==> Prepared(data, s).exc.kind == ValueError
  {
    var missing := MissingFields(data, s.required);
    if exists f :: f in s.required && Absent(data, f) {
      var f :| f in s.required && Absent(data, f);
      assert f in missing;
    }
    if missing != [] {
      assert missing[0] in missing;
    }
  }

  /**
   * What a prepared record holds: only listed fields and default keys; a
   * supplied, listed, non-`None` value unchanged; a default exactly where
   * the field was absent or `None`; nothing else added.
   */
  lemma PreparedFields(data: seq<Entry>, s: Schema)
    requires UniqueKeys(s.defaults) && Prepared(data, s).Returned?
    ensures var r := Prepared(data, s).value;
      && (forall k :: Lookup(r, k).Some? ==> k in Listed(s) || k in KeysOf(s.defaults))
      && (forall k :: k in Listed(s) && !Absent(data, k) ==> Lookup(r, k) == Lookup(data, k))
      && (forall k :: k !in KeysOf(s.defaults) ==> Lookup(r, k) == if k in Listed(s) then Lookup(data, k) else None)
      && (forall i :: 0 <= i < |s.defaults| ==>
            Lookup(r, s.defaults[i].key) ==
              if s.defaults[i].key in Listed(s) && !Absent(data, s.defaults[i].key) then Lookup(data, s.defaults[i].key)
              else Some(s.defaults[i].val))
  {
    var kept := KeepFields(data, Listed(s));
    FillDefaultsLookup(kept, s.defaults);
    forall k | k in Listed(s) && !Absent(data, k) && k in KeysOf(s.defaults)
      ensures Lookup(FillDefaults(kept, s.defaults), k) == Lookup(data, k)
    {
      var i :| 0 <= i < |s.defaults| && s.defaults[i].key == k;
    }
  }

  /** One listed field without a default: the prepared record carries it exactly as supplied. */
  lemma PreparedKeeps(data: seq<Entry>, s: Schema, k: string)
    requires UniqueKeys(s.defaults) && Prepared(data, s).Returned?
    requires k in Listed(s) && k !in KeysOf(s.defaults)
    ensures Lookup(Prepared(data, s).value, k) == Lookup(data, k)
  {
    FillDefaultsLookup(KeepFields(data, Listed(s)), s.defaults);
  }

  /** One default: the prepared record carries the supplied value if it is listed and not `None`, else the default. */
  lemma PreparedDefault(data: seq<Entry>, s: Schema, i: nat)
    requires UniqueKeys(s.defaults) && Prepared(data, s).Returned? && i < |s.defaults|
    requires s.defaults[i].key in Listed(s)
    ensures Lookup(Prepared(data, s).value, s.defaults[i].key) ==
      if Absent(data, s.defaults[i].key) then Some(s.defaults[i].val) else Lookup(data, s.defaults[i].key)
  {
    FillDefaultsLookup(KeepFields(data, Listed(s)), s.defaults);
  }

  /** The defaults of the three schemas have distinct keys. */
  lemma SchemasWellFormed(now: int)
    ensures UniqueKeys(ContentSourceFields(now).defaults)
    ensures UniqueKeys(PostHistoryFields(now).defaults)
    ensures UniqueKeys(ContentMetricsFields(now).defaults)
  {
  }
}
