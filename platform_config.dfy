/**
 * The platform enumeration and which platforms the environment enables.
 */
module PlatformConfig {
  import opened Py

  /** The `Platform` enumeration. */
  datatype Platform = DevTo | Mastodon | Threads | Twitter | LinkedIn
  {
    /** The enumeration member's value. */
    function Value(): string
    {
      match this
      case DevTo => "dev.to"
      case Mastodon => "mastodon"
      case Threads => "threads"
      case Twitter => "twitter"
      case LinkedIn => "linkedin"
    }
  }

  /** `Platform(value)`: the member with the given value, if any. */
  function FromValue(value: string): (r: Option<Platform>)
    ensures r.Some? ==> r.value.Value() == value
  {
    if value == "dev.to" then Some(DevTo)
    else if value == "mastodon" then Some(Mastodon)
    else if value == "threads" then Some(Threads)
    else if value == "twitter" then Some(Twitter)
    else if value == "linkedin" then Some(LinkedIn)
    else None
  }

  /** Each member is found again from its value, so the five values are pairwise distinct. */
  lemma ValuesDistinct(p: Platform, q: Platform)
    ensures FromValue(p.Value()) == Some(p)
    ensures p.Value() == q.Value() ==> p == q
  {
    assert FromValue(q.Value()) == Some(q);
  }

  /** The platforms the environment has credentials for, in the order they are checked. */
  function EnabledPlatforms(env: Env): seq<Platform>
  {
    (if EnvSet(env, "DEVTO_API_KEY") then [DevTo] else [])
    + (if EnvSet(env, "MASTODON_ACCESS_TOKEN") then [Mastodon] else [])
    + (if EnvSet(env, "INSTAGRAM_USERNAME") && EnvSet(env, "INSTAGRAM_PASSWORD") then [Threads] else [])
  }

  /** `PlatformConfig.get_enabled_platforms`. */
  method GetEnabledPlatforms(env: Env) returns (enabled: seq<Platform>)
    ensures enabled == EnabledPlatforms(env)
  {
    enabled := [];
    if EnvSet(env, "DEVTO_API_KEY") {
      enabled := enabled + [DevTo];
    }
    if EnvSet(env, "MASTODON_ACCESS_TOKEN") {
      enabled := enabled + [Mastodon];
    }
    if EnvSet(env, "INSTAGRAM_USERNAME") && EnvSet(env, "INSTAGRAM_PASSWORD") {
      enabled := enabled + [Threads];
    }
  }

  /** `PlatformConfig.is_enabled`. */
  predicate IsEnabled(env: Env, p: Platform)
  {
    p in EnabledPlatforms(env)
  }

  /** Each platform is enabled by exactly its own credentials; Twitter and LinkedIn never are. */
  lemma EnabledExactly(env: Env, p: Platform)
    ensures IsEnabled(env, p) <==>
      match p
      case DevTo => EnvSet(env, "DEVTO_API_KEY")
      case Mastodon => EnvSet(env, "MASTODON_ACCESS_TOKEN")
      case Threads => EnvSet(env, "INSTAGRAM_USERNAME") && EnvSet(env, "INSTAGRAM_PASSWORD")
      case Twitter => false
      case LinkedIn => false
  {
  }

  /** The position a platform takes in the enabled list's fixed order. */
  function Rank(p: Platform): nat
  {
    match p
    case DevTo => 0
    case Mastodon => 1
    case Threads => 2
    case Twitter => 3
    case LinkedIn => 4
  }

  /** The enabled list follows the order DevTo, Mastodon, Threads, so it has no duplicates. */
  lemma EnabledOrdered(env: Env)
    ensures forall i, j :: 0 <= i < j < |EnabledPlatforms(env)| ==>
      Rank(EnabledPlatforms(env)[i]) < Rank(EnabledPlatforms(env)[j])
    ensures forall i, j :: 0 <= i < j < |EnabledPlatforms(env)| ==>
      EnabledPlatforms(env)[i] != EnabledPlatforms(env)[j]
  {
    var e := EnabledPlatforms(env);
    assert |e| <= 3;
    forall i, j | 0 <= i < j < |e|
      ensures Rank(e[i]) < Rank(e[j])
    {
      var a := if EnvSet(env, "DEVTO_API_KEY") then [DevTo] else [];
      var b := if EnvSet(env, "MASTODON_ACCESS_TOKEN") then [Mastodon] else [];
      var c := if EnvSet(env, "INSTAGRAM_USERNAME") && EnvSet(env, "INSTAGRAM_PASSWORD") then [Threads] else [];
      assert e == a + b + c;
    }
  }
}
