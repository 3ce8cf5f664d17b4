/**
 * The Threads configuration tables: static methods that return literal
 * dictionaries, and the credential check.
 */
module ThreadsConfig {
  import opened Py
  import PlatformConfig

  const MaxContentLength := 500
  const MaxRetries := 3
  const RetryDelay := 2
  const Timeout := 30
  const MaxMediaSize := 10 * 1024 * 1024
  const BannedWords: seq<string> := ["spam", "advertise", "promotion"]
  const AllowedMediaTypes: seq<string> := ["image/jpeg", "image/png", "video/mp4"]

  /** A list of strings as a Python value. */
  function Strs(ss: seq<string>): (r: Value)
    ensures r.List? && |r.items| == |ss|
  {
    if ss == [] then List([]) else List([Str(ss[0])] + Strs(ss[1..]).items)
  }

  /** `ThreadsConfig.get_config`. */
  function GetConfig(): (r: Value)
    ensures r.Dict? && !Has(r, "content_rules")
  {
    var entries := [
      Entry("max_content_length", Int(MaxContentLength)),
      Entry("max_retries", Int(MaxRetries)),
      Entry("retry_delay", Int(RetryDelay)),
      Entry("timeout", Int(Timeout)),
      Entry("headless", Bool(true)),
      Entry("user_agent", Str("Mozilla/5.0 (Windows NT 10.0; Win64; x64) AppleWebKit/537.36")),
      Entry("login_url", Str("https://www.instagram.com/accounts/login/")),
      Entry("threads_url", Str("https://www.threads.net")),
      Entry("status_url", Str("https://www.threads.net/status"))
    ];
    LookupAbsent(entries, "content_rules");
    Dict(entries)
  }

  /** `ThreadsConfig.validate_credentials`: both Instagram variables set and non-empty. */
  predicate ValidateCredentials(env: Env)
  {
    Truthy(GetEnv(env, "INSTAGRAM_USERNAME")) && Truthy(GetEnv(env, "INSTAGRAM_PASSWORD"))
  }

  /** The credential check is exactly the condition that enables Threads. */
  lemma CredentialsEnableThreads(env: Env)
    ensures ValidateCredentials(env) <==> PlatformConfig.IsEnabled(env, PlatformConfig.Threads)
  {
    PlatformConfig.EnabledExactly(env, PlatformConfig.Threads);
  }

  /** `ThreadsConfig.get_content_rules`. */
  function GetContentRules(): (r: Value)
    ensures r.Dict?
  {
    Dict(ContentRuleEntries())
  }

  function ContentRuleEntries(): seq<Entry>
  {
    [
      Entry("max_length", Int(500)),
      Entry("min_length", Int(1)),
      Entry("banned_words", Strs(BannedWords)),
      Entry("max_hashtags", Int(5)),
      Entry("max_mentions", Int(5)),
      Entry("allowed_media_types", Strs(AllowedMediaTypes)),
      Entry("max_media_size", Int(MaxMediaSize))
    ]
  }

  /** `ThreadsConfig.get_rate_limits`. */
  function GetRateLimits(): (r: Value)
    ensures r.Dict?
  {
    Dict([
      Entry("posts_per_hour", Int(5)),
      Entry("posts_per_day", Int(20)),
      Entry("minimum_interval", Int(300)),
      Entry("cooldown_period", Int(3600))
    ])
  }

  /** `ThreadsConfig.get_media_config`; the `(1080, 1080)` tuple is a two-element list here. */
  function GetMediaConfig(): (r: Value)
    ensures r.Dict?
  {
    Dict(MediaConfigEntries())
  }

  function MediaConfigEntries(): seq<Entry>
  {
    [
      Entry("max_image_size", List([Int(1080), Int(1080)])),
      Entry("image_quality", Int(85)),
      Entry("supported_formats", Strs([".jpg", ".jpeg", ".png"])),
      Entry("max_file_size", Int(10 * 1024 * 1024))
    ]
  }

  /** `get_config` holds the limits the adapter reads. */
  lemma ConfigValues()
    ensures Get(GetConfig(), "max_content_length") == Int(500)
    ensures Get(GetConfig(), "max_retries") == Int(3)
    ensures Get(GetConfig(), "retry_delay") == Int(2)
    ensures Get(GetConfig(), "timeout") == Int(30)
  {
  }

  lemma RulesMaxLength()
    ensures Get(GetContentRules(), "max_length") == Int(500)
  {
  }

  lemma RulesBannedWords()
    ensures Get(GetContentRules(), "banned_words") == Strs(BannedWords)
  {
  }

  lemma RulesMediaTypes()
    ensures Get(GetContentRules(), "allowed_media_types") == Strs(AllowedMediaTypes)
  {
  }

  lemma RulesMediaSize()
    ensures Get(GetContentRules(), "max_media_size") == Int(10485760)
  {
    LookupAt(ContentRuleEntries(), "max_media_size", 6);
  }

  /**
   * The content rules agree with the rest: their length limit is the
   * configured maximum length, their banned words and media types are the
   * ones the adapter tests against, and their size limit is 10 MiB.
   */
  lemma ContentRulesValues()
    ensures Get(GetContentRules(), "max_length") == Get(GetConfig(), "max_content_length")
    ensures Get(GetContentRules(), "banned_words") == Strs(BannedWords)
    ensures Get(GetContentRules(), "allowed_media_types") == Strs(AllowedMediaTypes)
    ensures Get(GetContentRules(), "max_media_size") == Int(MaxMediaSize)
  {
    ConfigValues();
    RulesMaxLength();
    RulesBannedWords();
    RulesMediaTypes();
    RulesMediaSize();
  }

  /** The rate limits: 5 an hour, 20 a day, 300 s apart, 3600 s cooldown. */
  lemma RateLimitValues()
    ensures Get(GetRateLimits(), "posts_per_hour") == Int(5)
    ensures Get(GetRateLimits(), "posts_per_day") == Int(20)
    ensures Get(GetRateLimits(), "minimum_interval") == Int(300)
    ensures Get(GetRateLimits(), "cooldown_period") == Int(3600)
  {
  }

  /** The media config's size limit is the content rules' one. */
  lemma MediaConfigValues()
    ensures Get(GetMediaConfig(), "max_file_size") == Get(GetContentRules(), "max_media_size")
  {
    RulesMediaSize();
    LookupAt(MediaConfigEntries(), "max_file_size", 3);
  }
}
