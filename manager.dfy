/**
 * The platform manager: which adapters it builds, and how it fans a
 * call out to them. An adapter call is an oracle from the platform to
 * what that adapter's method returns or raises; every fan-out also
 * reports the platforms it called, in order.
 */
module Manager {
  import opened Py
  import opened PlatformConfig
  import ThreadsBrowser

  /** The adapter class bound to a platform in the construction table. */
  datatype AdapterClass = DevToAdapter | MastodonAdapter | ThreadsApiAdapter

  /** The construction table: Dev.to, Mastodon, and Threads through the Graph API adapter; nothing else. */
  function AdapterFor(p: Platform): (r: Option<AdapterClass>)
    ensures r.Some? <==> p in {DevTo, Mastodon, Threads}
    ensures p == Threads ==> r == Some(ThreadsApiAdapter)
  {
    match p
    case DevTo => Some(DevToAdapter)
    case Mastodon => Some(MastodonAdapter)
    case Threads => Some(ThreadsApiAdapter)
    case _ => None
  }

  /** The enabled platforms that have an adapter, in order. */
  function Buildable(ps: seq<Platform>): seq<Platform>
  {
    if ps == [] then [] else Buildable(ps[..|ps| - 1]) + if AdapterFor(ps[|ps| - 1]).Some? then [ps[|ps| - 1]] else []
  }

  /**
   * A fan-out over `ps` in order: the result map and the platforms called.
   * An exception from one call stops the loop and propagates, so later
   * platforms are not called and no map is returned.
   */
  function Collect<T>(ps: seq<Platform>, f: Platform -> Outcome<T>): (Outcome<map<Platform, T>>, seq<Platform>)
  {
    if ps == [] then (Returned(map[]), [])
    else
      var front := Collect(ps[..|ps| - 1], f);
      var p := ps[|ps| - 1];
      if front.0.Raised? then front
      else
        match f(p)
        case Raised(e) => (Raised(e), front.1 + [p])
        case Returned(v) => (Returned(front.0.value[p := v]), front.1 + [p])
  }

  /** The message for a platform without an adapter. */
  function NotInitialized(p: Platform): Value
  {
    Dict([Entry("success", Bool(false)), Entry("error", Str("Platform " + p.Value() + " not initialized"))])
  }

  /** `PlatformManager`: the adapters by platform, and the order they were added in (the dict's iteration order). */
  class PlatformManager {
    var platforms: map<Platform, AdapterClass>
    var order: seq<Platform>

    /** The order lists each key once. */
    ghost predicate Valid()
      reads this
    {
      && (forall p :: p in order <==> p in platforms)
      && (forall i, j :: 0 <= i < j < |order| ==> order[i] != order[j])
    }

    constructor ()
      ensures platforms == map[] && order == [] && Valid()
    {
      platforms, order := map[], [];
    }

    /**
     * `_initialize_platforms`: an adapter for each enabled platform the
     * table knows, in the enabled order. Building the Threads adapter
     * raises `ValueError` when its rate-limit variables do not parse; the
     * adapters added before it stay.
     */
    method InitializePlatforms(env: Env) returns (r: Outcome<()>)
      requires platforms == map[] && order == []
      modifies this
      ensures Valid()
      ensures r.Returned? <==> (Threads in Buildable(EnabledPlatforms(env)) ==> ThreadsBrowser.ThreadsRateLimits(env).Returned?)
      ensures r.Raised? ==> r.exc.kind == ValueError
      ensures r.Returned? ==> order == Buildable(EnabledPlatforms(env))
      ensures forall p :: p in platforms ==> AdapterFor(p) == Some(platforms[p])
    {
      var enabled := GetEnabledPlatforms(env);
      EnabledOrdered(env);
      r := AddAdapters(enabled, ThreadsBrowser.ThreadsRateLimits(env));
    }

    /** The loop of `_initialize_platforms`, over the enabled platforms and the outcome of building the Threads adapter. */
    method AddAdapters(enabled: seq<Platform>, limits: Outcome<ThreadsBrowser.RateLimits>) returns (r: Outcome<()>)
      requires platforms == map[] && order == []
      requires forall i, j :: 0 <= i < j < |enabled| ==> enabled[i] != enabled[j]
      modifies this
      ensures Valid()
      ensures r.Returned? <==> (Threads in Buildable(enabled) ==> limits.Returned?)
      ensures r.Raised? ==> r == Raised(limits.exc)
      ensures r.Returned? ==> order == Buildable(enabled)
      ensures forall p :: p in platforms ==> AdapterFor(p) == Some(platforms[p])
    {
      for i := 0 to |enabled|
        invariant Valid()
        invariant order == Buildable(enabled[..i])
        invariant forall p :: p in platforms ==> AdapterFor(p) == Some(platforms[p])
        invariant Threads in order ==> limits.Returned?
      {
        var p := enabled[i];
        BuildableStep(enabled, i);
        BuildableSubset(enabled[..i]);
        assert p !in enabled[..i];
        match AdapterFor(p)
        case None =>
        case Some(kind) =>
          if kind == ThreadsApiAdapter && limits.Raised? {
            BuildablePrefix(enabled, i + 1);
            return Raised(limits.exc);
          }
          platforms := platforms[p := kind];
          order := order + [p];
      }
      assert enabled[..|enabled|] == enabled;
      r := Returned(());
    }

    /** `authenticate_all`, `post_to_all` and `check_all_statuses`: one call per adapter, in order. */
    method FanOut<T>(f: Platform -> Outcome<T>) returns (r: Outcome<map<Platform, T>>, called: seq<Platform>)
      ensures (r, called) == Collect(order, f)
    {
      r, called := Returned(map[]), [];
      for i := 0 to |order|
        invariant r.Returned? && (r, called) == Collect(order[..i], f)
      {
        assert order[..i + 1][..i] == order[..i];
        var p := order[i];
        var v := f(p);
        if v.Raised? {
          CollectStaysRaised(order, i + 1, f);
          assert order[..|order|] == order;
          return Raised(v.exc), called + [p];
        }
        r, called := Returned(r.value[p := v.value]), called + [p];
      }
      assert order[..|order|] == order;
    }

    /** `post_to_platform`: "not initialized" without a call for a platform without an adapter, otherwise its `post_content` unchanged. */
    method PostToPlatform(p: Platform, post: Platform -> Outcome<Value>) returns (r: Outcome<Value>, called: seq<Platform>)
      ensures p !in platforms ==> r == Returned(NotInitialized(p)) && called == []
      ensures p in platforms ==> r == post(p) && called == [p]
    {
      if p !in platforms {
        return Returned(NotInitialized(p)), [];
      }
      r, called := post(p), [p];
    }

    /** `check_platform_status`: false without a call for a platform without an adapter. */
    method CheckPlatformStatus(p: Platform, status: Platform -> bool) returns (up: bool, called: seq<Platform>)
      ensures p !in platforms ==> !up && called == []
      ensures p in platforms ==> up == status(p) && called == [p]
    {
      if p !in platforms {
        return false, [];
      }
      up, called := status(p), [p];
    }
  }

  lemma {:induction false} BuildableSubset(ps: seq<Platform>)
    ensures forall p :: p in Buildable(ps) ==> p in ps && AdapterFor(p).Some?
    ensures forall p :: p in ps && AdapterFor(p).Some? ==> p in Buildable(ps)
  {
    if ps != [] {
      BuildableSubset(ps[..|ps| - 1]);
      assert ps == ps[..|ps| - 1] + [ps[|ps| - 1]];
    }
  }

  lemma BuildableStep(ps: seq<Platform>, i: nat)
    requires i < |ps|
    ensures Buildable(ps[..i + 1]) == Buildable(ps[..i]) + if AdapterFor(ps[i]).Some? then [ps[i]] else []
  {
    assert ps[..i + 1][..i] == ps[..i];
  }

  lemma {:induction false} BuildablePrefix(ps: seq<Platform>, n: nat)
    requires n <= |ps|
    ensures forall p :: p in Buildable(ps[..n]) ==> p in Buildable(ps)
  {
    BuildableSubset(ps[..n]);
    BuildableSubset(ps);
    forall p | p in Buildable(ps[..n])
      ensures p in Buildable(ps)
    {
      assert p in ps[..n];
    }
  }

  /** Filtering a list without duplicates keeps it without duplicates. */
  lemma {:induction false} BuildableDistinct(ps: seq<Platform>)
    requires forall i, j :: 0 <= i < j < |ps| ==> ps[i] != ps[j]
    ensures forall i, j :: 0 <= i < j < |Buildable(ps)| ==> Buildable(ps)[i] != Buildable(ps)[j]
  {
    if ps != [] {
      var front := ps[..|ps| - 1];
      BuildableDistinct(front);
      BuildableSubset(front);
      assert ps[|ps| - 1] !in front;
    }
  }

  /** After construction the adapters are exactly the enabled platforms the table knows, with Threads on the Graph API adapter. */
  lemma BuiltAdapters(env: Env)
    ensures forall p :: p in Buildable(EnabledPlatforms(env)) <==> IsEnabled(env, p) && p in {DevTo, Mastodon, Threads}
    ensures forall p :: p in Buildable(EnabledPlatforms(env)) ==> p != Twitter && p != LinkedIn
  {
    BuildableSubset(EnabledPlatforms(env));
  }

  /** Once a call has raised, the fan-out stays raised with the same calls. */
  lemma {:induction false} CollectStaysRaised<T>(ps: seq<Platform>, n: nat, f: Platform -> Outcome<T>)
    requires n <= |ps| && Collect(ps[..n], f).0.Raised?
    ensures Collect(ps, f) == Collect(ps[..n], f)
    decreases |ps| - n
  {
    if n < |ps| {
      assert ps[..n + 1][..n] == ps[..n];
      CollectStaysRaised(ps, n + 1, f);
    } else {
      assert ps[..n] == ps;
    }
  }

  /**
   * Without an exception every platform is called once, in order...
   */
  lemma {:induction false} CollectAll<T>(ps: seq<Platform>, f: Platform -> Outcome<T>)
    requires forall i :: 0 <= i < |ps| ==> f(ps[i]).Returned?
    ensures Collect(ps, f).0.Returned? && Collect(ps, f).1 == ps
  {
    if ps != [] {
      var front := ps[..|ps| - 1];
      CollectAll(front, f);
      assert ps == front + [ps[|ps| - 1]];
    }
  }

  /** ... and the map holds exactly their answers, failures included. */
  lemma {:induction false} CollectAllAnswers<T>(ps: seq<Platform>, f: Platform -> Outcome<T>)
    requires forall i :: 0 <= i < |ps| ==> f(ps[i]).Returned?
    ensures Collect(ps, f).0.Returned?
    ensures Collect(ps, f).0.value.Keys == set p | p in ps
    ensures forall p :: p in ps ==> Collect(ps, f).0.value[p] == f(p).value
  {
    if ps != [] {
      var front := ps[..|ps| - 1];
      CollectAllAnswers(front, f);
      assert ps == front + [ps[|ps| - 1]];
    }
  }

  /**
   * The first exception aborts the fan-out: it propagates, and the
   * platforms after the one that raised are not called.
   */
  lemma {:induction false} CollectAborts<T>(ps: seq<Platform>, f: Platform -> Outcome<T>, k: nat)
    requires k < |ps| && f(ps[k]).Raised?
    requires forall i :: 0 <= i < k ==> f(ps[i]).Returned?
    ensures Collect(ps, f) == (Raised(f(ps[k]).exc), ps[..k + 1])
  {
    var front, upTo := ps[..k], ps[..k + 1];
    assert upTo == front + [ps[k]] && upTo[..k] == front;
    CollectAll(front, f);
    CollectStaysRaised(ps, k + 1, f);
  }

  /** A fan-out without exceptions answers for exactly the platforms that have an adapter. */
  lemma FanOutKeys<T>(m: PlatformManager, f: Platform -> Outcome<T>)
    requires m.Valid()
    requires forall p :: p in m.platforms ==> f(p).Returned?
    ensures Collect(m.order, f).0.Returned? && Collect(m.order, f).1 == m.order
    ensures Collect(m.order, f).0.value.Keys == m.platforms.Keys
  {
    CollectAll(m.order, f);
    CollectAllAnswers(m.order, f);
  }
}
