# Autonomous Social Media Curator — a Dafny model of its decision logic

The curator is a Python bot that generates posts with a language model,
filters them, stores them in a SQLite database and publishes them to
Dev.to, Mastodon, Threads (through a browser or the Graph API) and
LinkedIn. Most of the program is network, browser and ORM plumbing. This
project models the small, exact rules that surround that plumbing and
proves what they guarantee:

- **Threads adapters** (`ThreadsBrowser`, `ThreadsApi`, `ThreadsFormat`, `Retry`):
  - the text formatter;
  - content and media validation;
  - the retry wrapper with exponential backoff, which is nested, so the
    inner step runs up to `max_retries²` times;
  - the order of the guards in posting and replying;
  - when the rate limiter records a post;
  - how media ids are shaped into the request;
  - the token reuse / refresh / code-exchange decision.
- **Platform fan-out** (`PlatformConfig`, `Manager`): which platforms are
  enabled by which credentials, the table that builds the adapters, the
  "not initialized" short-circuit, the key sets of the aggregate maps, and
  the fact that an adapter's exception aborts a fan-out.
- **Configuration tables** (`ThreadsConfig`): the constants the adapters
  rely on, including the absence of the `content_rules` key that the
  browser adapter reads.
- **LinkedIn tool** (`LinkedIn`): normalising the input's shape, the
  cookie and CSRF header, the 3000-character guard, and the parsing of
  `Set-Cookie` when a session is checked.
- **Content tools** (`ContentTools`): the platform and digest validators,
  platform handling in the generator, splitting a thread into tweets,
  hashtag truncation, and the content filter's length gate and keyword
  scoring.
- **Database manager** (`DbFields`, `Database`): schema-driven field
  filtering and defaults, platform and status validation, status and
  metrics updates, history filters, and the engagement totals.
- **Dev.to and Mastodon adapters** (`DevToPlatform`, `MastodonPlatform`):
  their guards and results over an abstract transport.

Python values are the `Py.Value` datatype: `None`, booleans, integers,
strings, lists, and dicts as ordered entry lists, since a dict keeps its
insertion order. An exception is the `Raised` case of `Py.Outcome`, so a
contract can say which exception a call raises and when. Everything the
program observes from outside is an argument of the model: HTTP
responses, the browser, the clock, the file system (existence, MIME type
and size), the environment variables, the language model's completion,
the database session and the rate limiter's admission. Objects whose
methods change their fields are classes: the platform manager, the four
adapters, the LinkedIn poster and the database manager. Each class method
is proved against a function that states its result and new state, and
the lemmas about those functions carry the properties.

Integers are unbounded, as in Python. Times are whole seconds.

Where the code does not do what it evidently means (see "## Findings"),
the operations follow the code as written and the corrected behaviour is
a separate definition beside it. The browser adapter's media step reads
the table it is given: the adapter's own `get_config()` table, as
written, or one holding the content rules, as intended. The generator's
`_run` takes its per-platform handler as an argument: the as-written
handler, or the corrected one.

## Model

| member | source | states |
|---|---|---|
| ContentTools.ValidatePlatform | social_media_bot/tools/content_tools.py:23-28 | an accepted platform is `linkedin` or `twitter`; anything else raises the `ValueError` with the source's message |
| ContentTools.QuotedPlatformAccepted | social_media_bot/tools/content_tools.py:23-28 | quotes of either kind around a platform name, in any letter case, are stripped and the name comes back lower-cased |
| ContentTools.ValidateDigest | social_media_bot/tools/content_tools.py:30-42 | an accepted digest comes back unchanged; every rejection is a `ValueError` |
| ContentTools.DigestAccepted | social_media_bot/tools/content_tools.py:30-42 | a digest is accepted exactly when it is a dict whose `content` (default `{}`) is a dict holding `combined_digest` |
| ContentTools.StrippedPieces | social_media_bot/tools/content_tools.py:519 | the comprehension keeps no empty tweet |
| ContentTools.ShortOnes | social_media_bot/tools/content_tools.py:520 | the 250-character filter keeps only tweets of the input, each at most 250 characters |
| ContentTools.TweetShape | social_media_bot/tools/content_tools.py:518-525 | every tweet of a generated thread is non-empty, stripped, at most 250 characters and free of the `[TWEET]` marker |
| ContentTools.StrippedShape | social_media_bot/tools/content_tools.py:519 | pieces without the marker give stripped tweets without the marker |
| ContentTools.StrippedKeeps | social_media_bot/tools/content_tools.py:519 | stripped non-blank pieces pass through unchanged |
| ContentTools.ThreadRoundTrip | social_media_bot/tools/content_tools.py:518-525 | splitting tweets joined with `[TWEET]` gives back the short ones in order, and all of them when every one is short |
| ContentTools.ShortKeeps | social_media_bot/tools/content_tools.py:520 | a list of short tweets passes the length filter whole |
| ContentTools.Formatted | social_media_bot/tools/content_tools.py:517-532 | the formatted content is a dict (tweets for twitter, the text for linkedin) |
| ContentTools.ThreadFlag | social_media_bot/tools/content_tools.py:521-525 | `is_thread` is true exactly when more than one tweet survives the filters |
| ContentTools.StoredAsWritten | social_media_bot/tools/content_tools.py:545-559 | the database step as written always raises: `ValueError` without a source, else the `AttributeError` of `source.id` on an `int` |
| ContentTools.Stored | social_media_bot/tools/content_tools.py:545-559 | the corrected database step succeeds exactly when a source id (not 0) and a post were created, and then yields those two ids |
| ContentTools.Generated | social_media_bot/tools/content_tools.py:499-588 | the result is a dict whose `success` is whether the completion returned |
| ContentTools.GeneratedDbError | social_media_bot/tools/content_tools.py:570-580 | a database failure keeps `success` true, blanks both ids and reports the exception's message as `db_error` |
| ContentTools.AsWrittenNeverStores | social_media_bot/tools/content_tools.py:545-580 | as written no generation reports an id, a created source is reported as the `AttributeError`, and `create_post`'s answer plays no part |
| ContentTools.GenerateStores | social_media_bot/tools/content_tools.py:535-580 | as intended both ids are reported exactly when both records were created, and each failure has its own `db_error` message |
| ContentTools.AsWrittenExample | social_media_bot/tools/content_tools.py:545-566 | for source 1 and post 2 the as-written result has no ids and an `AttributeError` message, the corrected one `source_id` 1 |
| ContentTools.Lowered | social_media_bot/tools/content_tools.py:606 | lower-casing keeps the length and lowers each entry; it needs every entry to be a string |
| ContentTools.Invalid | social_media_bot/tools/content_tools.py:609-612 | no platform is invalid exactly when every platform is `linkedin` or `twitter` |
| ContentTools.Requested | social_media_bot/tools/content_tools.py:604-612 | the platforms accepted are all valid ones |
| ContentTools.RunSpec | social_media_bot/tools/content_tools.py:590-640 | `_run` always answers with a dict |
| ContentTools.Run | social_media_bot/tools/content_tools.py:590-640 | the loop that fills `results` computes the answer of the specification function, for the per-platform handler given (`_run` as written calls the as-written one) |
| ContentTools.FillResults | social_media_bot/tools/content_tools.py:615-628 | the loop over the platforms builds exactly the `results` entries of the specification, for the handler given |
| ContentTools.ResultsPerPlatform | social_media_bot/tools/content_tools.py:615-628 | `results` has an entry exactly for each requested platform, and it is the handler's result for that platform's own generation |
| ContentTools.RunBehaviour | social_media_bot/tools/content_tools.py:590-640 | a single platform is a one-element request; an invalid entry rejects the call before any generation; otherwise `_run` succeeds even when every generation failed |
| ContentTools.RunResults | social_media_bot/tools/content_tools.py:615-634 | a call past its checks answers with the `results` the loop builds |
| ContentTools.RunAsWrittenNeverStores | social_media_bot/tools/content_tools.py:590-640 | as written, every requested platform whose completion succeeded is reported as a success with `source_id` and `post_id` both `None`, whatever the database did |
| ContentTools.RunIntendedStores | social_media_bot/tools/content_tools.py:590-640 | with the corrected handler, a platform whose source and post were both created reports both ids |
| ContentTools.WordRun | social_media_bot/tools/content_tools.py:668 | the leading run of `\w` characters is as long as possible |
| ContentTools.FindHashtags | social_media_bot/tools/content_tools.py:668 | every match of `#\w+` is a hashtag |
| ContentTools.WordRunOf | social_media_bot/tools/content_tools.py:668 | a run of word characters followed by a non-word character is matched whole |
| ContentTools.LeadingHashtag | social_media_bot/tools/content_tools.py:668 | a hashtag followed by a non-word character is the first match, whole |
| ContentTools.HashtagsInOrder | social_media_bot/tools/content_tools.py:668 | hashtags written out separated by spaces are found again, in order |
| ContentTools.SliceTo | social_media_bot/tools/content_tools.py:672 | `xs[:n]` is a prefix, of length `n` capped at `len(xs)`, or `len(xs)+n` for negative `n` |
| ContentTools.Hashtags | social_media_bot/tools/content_tools.py:646-683 | `HashtagAnalyzer._run` answers with a dict |
| ContentTools.HashtagsReported | social_media_bot/tools/content_tools.py:668-672 | the hashtags reported are the matches of the completion cut to `max_hashtags` |
| ContentTools.HashtagsTruncated | social_media_bot/tools/content_tools.py:668-672 | a completion listing hashtags reports the first `max_hashtags` of them, in order |
| ContentTools.CollapseRuns | social_media_bot/tools/content_tools.py:799 | `re.sub(r'\s+', ' ', s)` never lengthens, leaves only plain spaces as whitespace, and never two spaces in a row |
| ContentTools.CleanedShorter | social_media_bot/tools/content_tools.py:799 | the cleaned text is never longer than the text |
| ContentTools.CleanedWithoutSpace | social_media_bot/tools/content_tools.py:799 | a text without whitespace is measured as it is |
| ContentTools.Rejected | social_media_bot/tools/content_tools.py:824-829 | a rejection has `success` and `passed_filter` false |
| ContentTools.FirstNonString | social_media_bot/tools/content_tools.py:781 | the first keyword that is not a string, found exactly when there is one |
| ContentTools.Scoring | social_media_bot/tools/content_tools.py:772-786 | the early return of 0.0 happens exactly when there are no keywords (keywords that do not occur also score 0.0, which the boolean threshold input covers); a non-string keyword in a list raises `AttributeError`, and a value that cannot be iterated raises `TypeError` |
| ContentTools.Filter | social_media_bot/tools/content_tools.py:815-865 | the filter answers with a dict |
| ContentTools.FilterScored | social_media_bot/tools/content_tools.py:830-852 | a text the filter gets to score succeeds, and passes exactly with a length within the thresholds, good scores and keywords to score |
| ContentTools.NoTextFails | social_media_bot/tools/content_tools.py:824-829 | a missing or empty text fails with "No content provided" |
| ContentTools.LengthGate | social_media_bot/tools/content_tools.py:835-845 | a text passes only with its cleaned length within the thresholds 100 and 5000, and with good scores from keywords that is all it needs; under 100 characters it never passes |
| ContentTools.NoKeywordsNeverPass | social_media_bot/tools/content_tools.py:774-775 | without keywords the call succeeds but no text passes, since the relevance is 0.0 |
| ContentTools.NonStringKeywordFails | social_media_bot/tools/content_tools.py:781 | a keyword that is not a string makes the call fail with the `AttributeError` of its `lower()` |
| DbFields.MissingFields | social_media_bot/database/db_manager.py:113-114 | a field is reported missing exactly when it is required and absent or `None` |
| DbFields.KeepFields | social_media_bot/database/db_manager.py:119-120 | the filtered record holds a key's supplied value exactly when the key is listed, and nothing else |
| DbFields.Prepare | social_media_bot/database/db_manager.py:110-127 | the required check, the filter and the defaults loop compute the prepared record of the specification function |
| DbFields.FillDefaultsLookup | social_media_bot/database/db_manager.py:123-125 | the defaults loop changes only default keys, and fills each exactly where it was absent or `None` |
| DbFields.PreparedRaises | social_media_bot/database/db_manager.py:113-116 | preparation raises exactly when some required field is absent or `None`, and then with `ValueError` |
| DbFields.PreparedFields | social_media_bot/database/db_manager.py:110-127 | a prepared record holds only listed and default keys, supplied non-`None` listed values unchanged, and a default exactly where the field was absent or `None` |
| DbFields.PreparedKeeps | social_media_bot/database/db_manager.py:119-120 | a listed field without a default is carried exactly as supplied |
| DbFields.PreparedDefault | social_media_bot/database/db_manager.py:123-125 | a listed default field holds the supplied value unless absent or `None`, and then the default |
| DbFields.SchemasWellFormed | social_media_bot/database/db_manager.py:17-52 | the defaults of the three schemas have distinct keys |
| Database.FirstLacking | social_media_bot/database/db_manager.py:133-135 | no field is lacking exactly when every required key is present (a `None` value counts as present); a reported one is required and absent |
| Database.SourceFields | social_media_bot/database/db_manager.py:131-145 | the checks and the copy loop of `add_content_source` compute the record of the specification function |
| Database.CopiedLookup | social_media_bot/database/db_manager.py:138-144 | the copy loop carries exactly the listed fields that are supplied (unchanged, `None` included) or else defaulted |
| Database.SourceRowFields | social_media_bot/database/db_manager.py:131-145 | `add_content_source` refuses exactly when `source_type`, `category` or `content_hash` is absent; otherwise supplied values are kept and `created_at`/`source_type` are defaulted |
| Database.PostRow | social_media_bot/database/db_manager.py:164-181 | every refusal of `create_post` is a `ValueError` |
| Database.PostRecord | social_media_bot/database/db_manager.py:164-181 | the checks of `create_post` build the record of the specification function |
| Database.PostRowRefusals | social_media_bot/database/db_manager.py:165-174 | a platform other than `twitter`/`linkedin` in any case is refused first, then an invalid status; a `None` status is refused too |
| Database.PostRowRequired | social_media_bot/database/db_manager.py:176-177 | past the two checks a post is refused exactly when its platform or content is absent or `None` |
| Database.StatusNotNull | social_media_bot/database/db_manager.py:171-174 | an accepted status is never `None` (`str(None).lower()` is `none`) |
| Database.PostSchema | social_media_bot/database/db_manager.py:26-37 | the post schema lists platform, content, hash and status, and defaults only the status and the creation time |
| Database.PostPrepared | social_media_bot/database/db_manager.py:177 | preparation keeps a post's platform, content and supplied hash, and its status or else `pending` |
| Database.PostRowStored | social_media_bot/database/db_manager.py:164-184 | the platform and status are stored as given, not lower-cased; the hash is computed only when none is supplied |
| Database.HashedKeeps | social_media_bot/database/db_manager.py:179-181 | generating the hash changes no other field |
| Database.StatusUpdatedFields | social_media_bot/database/db_manager.py:214-218 | the status is always set, the error message only by a non-empty one, `posted_at` exactly for `posted`; nothing else changes |
| Database.HistoryQuery | social_media_bot/database/db_manager.py:294-308 | a query's platform and status filters are valid ones |
| Database.Selected | social_media_bot/database/db_manager.py:310-337 | the history never reports more posts than the table holds |
| Database.SelectedExactly | social_media_bot/database/db_manager.py:310-337 | every report is of a selected post, and every selected post is reported |
| Database.HistoryFilters | social_media_bot/database/db_manager.py:294-343 | an invalid platform or status filter gives `[]`; with a valid platform filter only records stored with exactly the lower-cased name are selected and reported, so `Twitter` is never found by `twitter` |
| Database.MetricsOf | social_media_bot/database/db_manager.py:412-414 | the metrics record found is one of the post's, and none is found only when the post has none |
| Database.InRangePosts | social_media_bot/database/db_manager.py:398-401 | the posts selected are exactly the table's posts of the platform posted within the range |
| Database.SummedCounts | social_media_bot/database/db_manager.py:411-440 | every selected post is counted, with or without metrics |
| Database.SummedStep | social_media_bot/database/db_manager.py:411-432 | each post is counted; one without metrics adds nothing; one with metrics adds its likes, comments, shares and views, each `or 0` (`True` as 1, `None` as 0), and its entry, carrying its id and each count `or 0` |
| Database.NoMetricsNoEngagement | social_media_bot/database/db_manager.py:403-432 | without metrics records the totals are zero whatever the number of posts |
| Database.MergedLookup | social_media_bot/database/db_manager.py:232 | in `{'post_id': post_id, **metrics_data}` a later key wins |
| Database.MetricsIndex | social_media_bot/database/db_manager.py:236-238 | `.first()` is the first record of the post, and none is found only when the post has none |
| Database.MetricsRecordFields | social_media_bot/database/db_manager.py:231-234 | without its own `post_id` the record is always prepared, with the post's id and each count given or else 0 |
| Database.MetricsRecordPrepared | social_media_bot/database/db_manager.py:231-234 | the merged record passes the required check, keeps the post's id and has distinct keys |
| Database.MetricsRecordCounts | social_media_bot/database/db_manager.py:231-234 | each count of a prepared metrics record is the given value or else 0 |
| Database.MetricsRecordCount | social_media_bot/database/db_manager.py:231-234 | one count of a prepared metrics record is the given value or else 0 |
| Database.MetricsSchemaAt | social_media_bot/database/db_manager.py:39-52 | each count is listed in the metrics schema and defaults to 0 |
| Database.MetricsSchema | social_media_bot/database/db_manager.py:39-52 | the first five defaults are the counts at 0 and `post_id` has no default |
| Database.MergedDefault | social_media_bot/database/db_manager.py:231-234 | a default the base lacks is the given value unless absent or `None`, else the default |
| Database.MetricsCreated | social_media_bot/database/db_manager.py:240-264 | a post without metrics gets the prepared record appended exactly when that record passes the engagement and history steps; nothing else changes |
| Database.MetricsUpdated | social_media_bot/database/db_manager.py:243-264 | updating succeeds exactly when the merged record passes the engagement and history steps, and then assigns every prepared field, so a count not given is reset to 0; other records stay |
| Database.EngagementError | social_media_bot/database/db_manager.py:249-264 | no exception exactly when likes, comments, shares and views are each falsy, an int or a bool and `metrics_history` is falsy or a list; a count that cannot be added raises `TypeError` (`0 + 'many'`, `n / 'x'`), and otherwise a bad history raises the `AttributeError` of `append` |
| Database.TextCountRejected | social_media_bot/database/db_manager.py:249-272 | `update_metrics(1, {'likes': 'many'})` for a post without metrics raises the `TypeError` of `0 + 'many'`, so it returns `False` and stores nothing |
| Database.HistoryNotListRejected | social_media_bot/database/db_manager.py:258-272 | for a new post, a given `metrics_history` that is truthy and not a list raises the `AttributeError` of `append` |
| Database.HistoryRecord | social_media_bot/database/db_manager.py:229-234 | data without counts or `post_id` is prepared with every count at 0 and the data's own `metrics_history` |
| Database.MetricsAfterSummable | social_media_bot/database/db_manager.py:249-256 | every table `update_metrics` stores keeps all counts addable, so the analytics totals never meet a `TypeError` |
| Database.MergedUnique | social_media_bot/database/db_manager.py:232 | merging into a dict keeps its keys distinct |
| Database.UniqueFilled | social_media_bot/database/db_manager.py:110-127 | a prepared record has distinct keys when its input had |
| Database.KeepUnique | social_media_bot/database/db_manager.py:120 | filtering keeps keys distinct |
| Database.FillUnique | social_media_bot/database/db_manager.py:123-125 | the defaults loop keeps keys distinct |
| Database.AssignUnique | social_media_bot/database/db_manager.py:124-125 | one default keeps keys distinct |
| Database.AssignKeepsUnique | social_media_bot/database/db_manager.py:125 | a dict assignment keeps keys distinct |
| Database.NumberedAppend | social_media_bot/database/db_manager.py:150-152 | adding a row with the next autoincrement id keeps every id equal to its position plus one |
| Database.NumberedUpdate | social_media_bot/database/db_manager.py:214-220 | changing a row but not its id keeps the numbering |
| Database.DatabaseManager.constructor | social_media_bot/database/db_manager.py:66-89 | the manager starts with empty tables |
| Database.DatabaseManager.AddContentSource | social_media_bot/database/db_manager.py:129-160 | the new source's id and a table one record longer, or `None` and an unchanged table when a field is missing or the commit fails |
| Database.DatabaseManager.CreatePost | social_media_bot/database/db_manager.py:162-205 | the stored record with the next id, or `None` and an unchanged table when it is refused or the commit fails |
| Database.DatabaseManager.UpdatePostStatus | social_media_bot/database/db_manager.py:207-225 | true exactly for an existing id and a successful commit, and then only that record changes |
| Database.DatabaseManager.UpdateMetrics | social_media_bot/database/db_manager.py:227-272 | true exactly when the preparation, the engagement sum and division, the history `append` and the commit all succeed, and then the metrics table is the specified one; otherwise `False` and nothing changes, so a truthy non-numeric count returns `False` |
| Database.DatabaseManager.GetPostHistory | social_media_bot/database/db_manager.py:286-343 | the reports of the selected posts, in table order |
| Database.DatabaseManager.PlatformAnalytics | social_media_bot/database/db_manager.py:393-444 | the post count, the totals and the `posts` entries of the platform's posts in the range, as the specification function sums them; the class invariant keeps every stored count addable |
| PlatformConfig.FromValue | social_media_bot/config/platforms.py:4-9 | a member found from a value has that value |
| PlatformConfig.ValuesDistinct | social_media_bot/config/platforms.py:4-9 | every member is found again from its value, so the five values are distinct |
| PlatformConfig.GetEnabledPlatforms | social_media_bot/config/platforms.py:15-25 | the checks build the enabled list of the specification function |
| PlatformConfig.EnabledExactly | social_media_bot/config/platforms.py:15-30 | Dev.to is enabled by its API key, Mastodon by its token, Threads by both Instagram variables; Twitter and LinkedIn never |
| PlatformConfig.EnabledOrdered | social_media_bot/config/platforms.py:15-25 | the enabled list follows the order Dev.to, Mastodon, Threads and has no duplicates |
| Manager.AdapterFor | social_media_bot/platforms/manager.py:17-22 | exactly Dev.to, Mastodon and Threads have an adapter, Threads the Graph API one |
| Manager.PlatformManager.constructor | social_media_bot/platforms/manager.py:11-12 | a manager starts without adapters |
| Manager.PlatformManager.InitializePlatforms | social_media_bot/platforms/manager.py:15-28 | an adapter for each enabled platform the table knows, in the enabled order; a bad Threads rate-limit variable raises `ValueError` |
| Manager.PlatformManager.AddAdapters | social_media_bot/platforms/manager.py:26-28 | the loop adds the known platforms in order and stops with the Threads adapter's exception |
| Manager.PlatformManager.FanOut | social_media_bot/platforms/manager.py:30-35 | one call per adapter in insertion order, computing the specified map and call list |
| Manager.PlatformManager.PostToPlatform | social_media_bot/platforms/manager.py:37-42 | "not initialized" without a call for a platform without adapter, else that adapter's answer |
| Manager.PlatformManager.CheckPlatformStatus | social_media_bot/platforms/manager.py:51-55 | false without a call for a platform without adapter, else that adapter's status |
| Manager.BuildableSubset | social_media_bot/platforms/manager.py:26-28 | the adapters built are exactly the enabled platforms the table knows |
| Manager.BuildableStep | social_media_bot/platforms/manager.py:26-28 | one iteration adds the platform exactly when the table knows it |
| Manager.BuildablePrefix | social_media_bot/platforms/manager.py:26-28 | the adapters built by an interrupted loop are among those of a full one |
| Manager.BuildableDistinct | social_media_bot/platforms/manager.py:26-28 | no adapter is built twice |
| Manager.BuiltAdapters | social_media_bot/platforms/manager.py:15-28 | after construction the adapters are the enabled Dev.to, Mastodon and Threads, never Twitter or LinkedIn |
| Manager.CollectStaysRaised | social_media_bot/platforms/manager.py:30-49 | once a call has raised, the fan-out makes no further call |
| Manager.CollectAll | social_media_bot/platforms/manager.py:30-49 | without exceptions every platform is called once, in order |
| Manager.CollectAllAnswers | social_media_bot/platforms/manager.py:30-49 | without exceptions the map holds exactly each platform's answer, failures included |
| Manager.CollectAborts | social_media_bot/platforms/manager.py:30-49 | the first exception propagates and the platforms after it are not called |
| Manager.FanOutKeys | social_media_bot/platforms/manager.py:57-61 | a fan-out without exceptions answers for exactly the platforms that have an adapter |
| DevToPlatform.AuthSpec | social_media_bot/platforms/devto.py:15-36 | with a key the flag becomes the answer |
| DevToPlatform.Answer | social_media_bot/platforms/devto.py:79-93 | success exactly on 200 or 201 with a dict body |
| DevToPlatform.PostSpec | social_media_bot/platforms/devto.py:38-100 | `post_content` always answers with a dict |
| DevToPlatform.DevTo.constructor | social_media_bot/platforms/devto.py:10-13 | the key is `DEVTO_API_KEY` and the adapter starts logged out |
| DevToPlatform.DevTo.Authenticate | social_media_bot/platforms/devto.py:15-36 | the answer and the new flag are the specified ones |
| DevToPlatform.DevTo.PostContent | social_media_bot/platforms/devto.py:38-100 | the result and the new flag are the specified ones |
| DevToPlatform.DevTo.CheckStatus | social_media_bot/platforms/devto.py:102-108 | up exactly when `/articles` answers 200; a failed request is down |
| DevToPlatform.NoKeyNoRequest | social_media_bot/platforms/devto.py:18-20 | without a key nothing is asked: false whatever the server, flag untouched |
| DevToPlatform.PostGuards | social_media_bot/platforms/devto.py:41-47 | a failed login answers "Authentication failed" and a missing title "Title is required…", whatever the article endpoint would answer |
| DevToPlatform.AnswerIsNotGuard | social_media_bot/platforms/devto.py:79-100 | no answer of the article endpoint reads like a guard failure |
| DevToPlatform.ArticleShape | social_media_bot/platforms/devto.py:50-57 | the article carries the content unchanged as its markdown body, is published, and is tagged `technology` unless tags are given |
| DevToPlatform.PostSucceeds | social_media_bot/platforms/devto.py:70-93 | past the guards a post succeeds exactly on 200/201 with a dict, and its `url` defaults to `''` |
| MastodonPlatform.AuthSpec | social_media_bot/platforms/mastodon.py:16-32 | with a token the flag becomes the answer, and success needs a client |
| MastodonPlatform.Answer | social_media_bot/platforms/mastodon.py:45-62 | the result is a dict |
| MastodonPlatform.PostSpec | social_media_bot/platforms/mastodon.py:34-68 | `post_content` always answers with a dict |
| MastodonPlatform.Mastodon.constructor | social_media_bot/platforms/mastodon.py:10-14 | server defaults to `https://mastodon.social`, token from the environment, no client, logged out |
| MastodonPlatform.Mastodon.Authenticate | social_media_bot/platforms/mastodon.py:16-32 | the answer and the new state are the specified ones |
| MastodonPlatform.Mastodon.PostContent | social_media_bot/platforms/mastodon.py:34-68 | the result and the new state are the specified ones |
| MastodonPlatform.Mastodon.CheckStatus | social_media_bot/platforms/mastodon.py:70-78 | the answer and the new state are the specified ones |
| MastodonPlatform.NoTokenNoClient | social_media_bot/platforms/mastodon.py:19-20 | without a token no client is built and the state is untouched, whatever the library does |
| MastodonPlatform.FailedVerification | social_media_bot/platforms/mastodon.py:22-32 | a failed verification answers false and leaves a built client logged out |
| MastodonPlatform.PostBehaviour | social_media_bot/platforms/mastodon.py:37-56 | a post that cannot log in fails without posting; otherwise `public` and `None` are passed unless given, and it succeeds exactly when `status_post` returns a dict |
| MastodonPlatform.PostUrl | social_media_bot/platforms/mastodon.py:52-56 | a successful post's `url` is the status's, defaulting to `''` |
| MastodonPlatform.StatusWithoutClient | social_media_bot/platforms/mastodon.py:73-74 | without a client the status check is a login, and succeeds only by building one |
| LinkedIn.Decoded | social_media_bot/tools/linkedin_tools.py:24-37 | the decoding step raises only the `AttributeError` of `.get` on parsed JSON that is not an object |
| LinkedIn.Extracted | social_media_bot/tools/linkedin_tools.py:42-55 | an extracted value is a dict with `text`; a dict without `text`, `content` or `message` is a `ValueError` |
| LinkedIn.TextOnly | social_media_bot/tools/linkedin_tools.py:37 | `{'text': t}` holds exactly `t` as its text |
| LinkedIn.ValidateContent | social_media_bot/tools/linkedin_tools.py:22-55 | whatever the validator accepts is a dict with `text`; it rejects with `ValueError` or lets an `AttributeError` escape |
| LinkedIn.NotJsonWrapped | social_media_bot/tools/linkedin_tools.py:35-37 | a string that is not JSON becomes its own `text` |
| LinkedIn.TextKept | social_media_bot/tools/linkedin_tools.py:39-55 | a dict with `text` passes unchanged |
| LinkedIn.NestedJsonLifted | social_media_bot/tools/linkedin_tools.py:27-45 | a JSON string whose `content` is a JSON object with `text` gives that text, the two decodings composed |
| LinkedIn.ExtractionCases | social_media_bot/tools/linkedin_tools.py:43-53 | without `text`: a nested `content.text` is lifted, else `content` or `message` becomes the text, else `ValueError` |
| LinkedIn.OtherInputRejected | social_media_bot/tools/linkedin_tools.py:39-40 | a value that is neither a dict nor a string is rejected with the source's message |
| LinkedIn.CookieHeaderSplits | social_media_bot/tools/linkedin_tools.py:92-93 | the `cookie` header splits back on `"; "` into the quoted `JSESSIONID` and then `li_at` |
| LinkedIn.FirstWith | social_media_bot/tools/linkedin_tools.py:113 | `next(...)` finds a piece holding the key, and none only when no piece holds it |
| LinkedIn.Parsed | social_media_bot/tools/linkedin_tools.py:112-116 | a parsed cookie value has no double quote, and a header not mentioning `key=` yields none |
| LinkedIn.UpdateOne | social_media_bot/tools/linkedin_tools.py:112-120 | one key changes, and only to a non-empty parsed value; the flag says whether it changed; other cookies stay |
| LinkedIn.UpdateAll | social_media_bot/tools/linkedin_tools.py:111-120 | the loop changes only the listed cookies, each to its non-empty parsed value, and without the flag nothing changes |
| LinkedIn.UpdateAllStep | social_media_bot/tools/linkedin_tools.py:111-120 | one turn of the loop over the key list |
| LinkedIn.UpdateCookies | social_media_bot/tools/linkedin_tools.py:109-120 | the loop over `JSESSIONID` and `li_at` computes the cookies and flag of the specification function |
| LinkedIn.Session | social_media_bot/tools/linkedin_tools.py:101-129 | `_check_session` keeps the cookie names, and without an update leaves the cookies as they were |
| LinkedIn.SessionChanges | social_media_bot/tools/linkedin_tools.py:107-120 | a cookie changes only when the header mentions `li_at=`, and then to its non-empty parsed value; a differing parsed value always replaces it |
| LinkedIn.ParsedLeading | social_media_bot/tools/linkedin_tools.py:108-116 | a header starting `key=v;` yields `v` for `key` |
| LinkedIn.ParsedLiAt | social_media_bot/tools/linkedin_tools.py:107-116 | `li_at=v; Path=/` yields `v` as the new `li_at` |
| LinkedIn.Len | social_media_bot/tools/linkedin_tools.py:153 | `len()` is the length of a string and is defined for strings, lists and dicts; anything else raises `TypeError` |
| LinkedIn.Guard | social_media_bot/tools/linkedin_tools.py:136-154 | a text that reaches the database is non-empty and at most 3000 characters |
| LinkedIn.RunSpec | social_media_bot/tools/linkedin_tools.py:131-234 | `_run` answers with a dict, and the session is checked only after a POST that was followed by the creation and the `posted` update |
| LinkedIn.LinkedInPoster.constructor | social_media_bot/tools/linkedin_tools.py:71-97 | the cookies come from the environment, stripped, with every double quote removed from `JSESSIONID`, and the headers are built from them |
| LinkedIn.LinkedInPoster.CheckSession | social_media_bot/tools/linkedin_tools.py:99-129 | the cookies become those of the specified update, and the headers change only when a cookie did |
| LinkedIn.LinkedInPoster.ApplySetCookie | social_media_bot/tools/linkedin_tools.py:107-126 | the cookie loop and the header refresh it triggers |
| LinkedIn.LinkedInPoster.Run | social_media_bot/tools/linkedin_tools.py:131-234 | the result and database calls of the specification; the session changes only after a successful POST |
| LinkedIn.OtherPlatformSkipped | social_media_bot/tools/linkedin_tools.py:136-142 | a post for another platform is skipped with no database call and no request |
| LinkedIn.GuardsBeforeWrites | social_media_bot/tools/linkedin_tools.py:150-154 | empty and over-long texts fail before any database call or request, whatever the services do; the second with "LinkedIn post character limit reached" |
| LinkedIn.LengthGuard | social_media_bot/tools/linkedin_tools.py:153-154 | a non-empty text reaches the database exactly when it has at most 3000 characters |
| LinkedIn.PostSucceeds | social_media_bot/tools/linkedin_tools.py:169-204 | a post succeeds exactly when the record was created with an id and the POST went through, and the calls are the creation and the `posted` update |
| LinkedIn.RequestFailureMarkedTwice | social_media_bot/tools/linkedin_tools.py:206-234 | a request failure marks the record failed twice, the catch-all message last |
| Retry.BackoffDoubles | social_media_bot/platforms/threads.py:196 | the sleep after the first failed attempt is `retry_delay`, and each later sleep is twice the one before |
| Retry.RetryOperation | social_media_bot/platforms/threads.py:188-198 | the loop makes the attempts, sleeps and final result of the specification function |
| Retry.RetryFromShape | social_media_bot/platforms/threads.py:188-198 | between one and `max_retries` attempts; every attempt but the last raised a retryable error; the run ends with the last attempt's outcome, retryable only when every attempt was made; sleep `k` is `retry_delay * 2^k` |
| Retry.NoRetriesAllowed | social_media_bot/platforms/threads.py:190 | with `max_retries` 0 nothing is called and `None` is returned |
| Retry.AlwaysRetryable | social_media_bot/platforms/threads.py:190-198 | an operation that always raises a retryable error runs exactly `max_retries` times and its last error propagates |
| Retry.FirstFinalOutcome | social_media_bot/platforms/threads.py:191-193 | a first attempt that returns, or raises another kind of error, ends the run at once |
| Retry.RetryCounts | social_media_bot/platforms/threads.py:190-198 | what each attempt adds to a counter, times the number of attempts, bounds what a run adds |
| Retry.RetryCountsExactly | social_media_bot/platforms/threads.py:190-198 | an attempt adding exactly `c` makes a run add `c` per attempt |
| Retry.AlwaysRetryableCounts | social_media_bot/platforms/threads.py:190-198 | an always-failing operation adding `c` adds `c * max_retries` in all |
| Retry.RetryPreserves | social_media_bot/platforms/threads.py:190-198 | a state property every attempt keeps holds after the run |
| Retry.RetryOutcomesFrom | social_media_bot/platforms/threads.py:190-198 | a property of every outcome holds of every recorded one and of the final one |
| Retry.RetryLength | social_media_bot/platforms/threads.py:190-198 | with an attempt left a run makes between one and the remaining attempts and ends with the last one's outcome |
| Retry.NestedStep | social_media_bot/platforms/threads.py:291-350 | one call of `_do_post` runs its inner step between once and `max_retries` times |
| Retry.NestedCounts | social_media_bot/platforms/threads.py:280 | retrying `_do_post`, itself retried, runs the inner step between once and `max_retries²` times |
| Retry.NestedExhaustedStep | social_media_bot/platforms/threads.py:291-350 | inner steps that all fail make `_do_post` fail retryably after `max_retries` of them |
| Retry.NestedExhausted | social_media_bot/platforms/threads.py:280 | when every inner step fails retryably a call runs exactly `max_retries²` of them and ends retryably |
| Retry.NestedPreservesStep | social_media_bot/platforms/threads.py:291-350 | a property every inner step keeps is kept by `_do_post` |
| Retry.NestedPreserves | social_media_bot/platforms/threads.py:280 | a property every inner step keeps holds after the nested run |
| Retry.NestedOutcomesStep | social_media_bot/platforms/threads.py:291-350 | a property of every inner outcome holds of `_do_post`'s outcome |
| Retry.NestedOutcomes | social_media_bot/platforms/threads.py:280 | a nested run ends with an outcome that has the inner steps' property |
| Retry.NestedOutcomesIfFinished | social_media_bot/platforms/threads.py:280 | whatever `max_retries`, a nested run that ends with an outcome ends with one having the property |
| ThreadsBrowser.ThreadsRateLimits | social_media_bot/platforms/threads.py:85-90 | the readings raise only `ValueError`, and the cooldown is always 3600 |
| ThreadsBrowser.RateLimitsRaise | social_media_bot/platforms/threads.py:86-88 | the constructor raises exactly when one of the three variables is set to a value that is not an integer literal |
| ThreadsBrowser.ParseDefault | social_media_bot/platforms/threads.py:86-88 | `int()` of a number's decimal form gives the number back |
| ThreadsBrowser.DefaultLiterals | social_media_bot/platforms/threads.py:86-88 | the default strings are the decimal forms of 5, 20 and 300 |
| ThreadsBrowser.DefaultRateLimits | social_media_bot/platforms/threads.py:85-90 | without the variables the limits are 5, 20, 300 and 3600, the configured rate limits |
| ThreadsBrowser.ContainsBanned | social_media_bot/platforms/threads.py:212-217 | the loop finds a banned word exactly when one occurs |
| ThreadsBrowser.ValidateContent | social_media_bot/platforms/threads.py:200-219 | content is accepted exactly when it is not blank, at most 500 characters, and its lower-case form holds no banned word |
| ThreadsBrowser.ValidateMediaFindsNoRules | social_media_bot/platforms/threads.py:221-239 | as written, every existing file raises `KeyError('content_rules')`, because `get_config()` has no such key |
| ThreadsBrowser.ValidateMediaExample | social_media_bot/platforms/threads.py:221-239 | as written an existing 1 KiB PNG raises exactly `KeyError('content_rules')`, while the corrected check accepts it |
| ThreadsBrowser.StrsMember | social_media_bot/config/threads_config.py:51-62 | a value is in the allowed-types list exactly when it is one of its strings |
| ThreadsBrowser.RulesLookups | social_media_bot/config/threads_config.py:51-62 | the content rules hold the allowed media types and the 10 MiB maximum size |
| ThreadsBrowser.ValidateMedia | social_media_bot/platforms/threads.py:221-239 | corrected: a file passes exactly when it exists, its guessed type is image/jpeg, image/png or video/mp4, and it is at most 10 MiB |
| ThreadsBrowser.ValidateMediaIntended | social_media_bot/platforms/threads.py:221-239 | the written check gives the corrected answer once the table holds `content_rules` |
| ThreadsBrowser.ValidateMediaMissing | social_media_bot/platforms/threads.py:223-225 | both checks reject a missing file without raising |
| ThreadsBrowser.AuthOutcome | social_media_bot/platforms/threads.py:110-186 | true exactly with credentials and a completed login; a browser error raises `ThreadsAuthenticationError` |
| ThreadsBrowser.LoginStep | social_media_bot/platforms/threads.py:294-296 | the login step sets the flag exactly when `authenticate()` returns true, and not when already logged in |
| ThreadsBrowser.AfterPosting | social_media_bot/platforms/threads.py:280-289 | a post is recorded only for a returned result, and an exception propagates without a record |
| ThreadsBrowser.Posted | social_media_bot/platforms/threads.py:280-286 | the success test leaves the retries' session, records only a returned outcome, and passes a raised one on |
| ThreadsBrowser.PostPastGuards | social_media_bot/platforms/threads.py:276-289 | once the guards (with the media step of the adapter's own table) pass, the rest of the call computes the specified posting |
| ThreadsBrowser.PostSpecRuns | social_media_bot/platforms/threads.py:263-289 | when the guards pass, `post_content` is the retried posting with the formatted text and the optimised media path |
| ThreadsBrowser.RunPosting | social_media_bot/platforms/threads.py:280-286 | the nested retries and the success test compute the specified posting |
| ThreadsBrowser.PostRunOf | social_media_bot/platforms/threads.py:280-286 | the posting is the success test on the nested retried run |
| ThreadsBrowser.CheckSuccess | social_media_bot/platforms/threads.py:281-286 | the success test computes the specified outcome and record |
| ThreadsBrowser.MediaError | social_media_bot/platforms/threads.py:221-239 | the media step is skipped without a path, rejects a missing file with `ThreadsMediaError`, and otherwise fails only with `KeyError`, `TypeError` or `ThreadsMediaError` |
| ThreadsBrowser.MediaErrorAsWritten | social_media_bot/platforms/threads.py:229 | with the adapter's table from `get_config()`, every existing file makes the media step raise `KeyError('content_rules')` |
| ThreadsBrowser.MediaErrorIntended | social_media_bot/platforms/threads.py:221-239 | with the content rules in the table, the media step fails exactly for the files the corrected check rejects, always with `ThreadsMediaError` |
| ThreadsBrowser.CheckPostGuards | social_media_bot/platforms/threads.py:266-275 | the checks, the media one reading the given table and letting its exception propagate, give the specified first failing guard |
| ThreadsBrowser.CheckStatus | social_media_bot/platforms/threads.py:372-378 | up exactly when the status page answers 200 |
| ThreadsBrowser.Threads.constructor | social_media_bot/platforms/threads.py:75-91 | credentials from the environment, the parsed rate limits, `get_config()` as the table, 3 retries 2 seconds apart, logged out, nothing recorded |
| ThreadsBrowser.Threads.Authenticate | social_media_bot/platforms/threads.py:110-186 | the specified outcome; the flag is set exactly by a successful login |
| ThreadsBrowser.Threads.PostContent | social_media_bot/platforms/threads.py:263-350 | the outcome and session of the specification over the adapter's own table; the rate limiter's count grows exactly when a post is recorded |
| ThreadsBrowser.Threads.ReplyToThread | social_media_bot/platforms/threads.py:401-472 | the outcome and session of the specification over the adapter's own table; nothing is recorded |
| ThreadsBrowser.PostGuardOrder | social_media_bot/platforms/threads.py:266-275 | rate limit, content, then the media step, each with its own exception (the media step's propagating as raised); a failing guard stops the call before any attempt, login or record |
| ThreadsBrowser.InnerPostCounts | social_media_bot/platforms/threads.py:293-348 | each inner posting step counts one attempt |
| ThreadsBrowser.PostAttemptsBound | social_media_bot/platforms/threads.py:280 | one call runs the inner step at most `max_retries²` times (9 as configured), and at least once past the guards |
| ThreadsBrowser.PostAttemptsAtMost | social_media_bot/platforms/threads.py:280 | at most `max_retries²` inner attempts |
| ThreadsBrowser.PostAttemptsAtLeast | social_media_bot/platforms/threads.py:280 | at least one inner attempt past the guards |
| ThreadsBrowser.RunAttemptsAtMost | social_media_bot/platforms/threads.py:280 | the nested retries of a step counting one attempt run it at most `max_retries²` times |
| ThreadsBrowser.RunAttemptsAtLeast | social_media_bot/platforms/threads.py:280 | and, with a retry allowed, at least once |
| ThreadsBrowser.FailingBrowserRetryable | social_media_bot/platforms/threads.py:343-344 | a failing browser session makes every inner attempt raise a retryable error |
| ThreadsBrowser.PostAttemptsReachBound | social_media_bot/platforms/threads.py:280-289 | with a browser that always fails, a call whose guards pass runs exactly `max_retries²` inner attempts, raises the last error and records nothing |
| ThreadsBrowser.InnerPostSends | social_media_bot/platforms/threads.py:298-327 | the inner step hands the browser only the text it formatted |
| ThreadsBrowser.PostSendsFormatted | social_media_bot/platforms/threads.py:298-327 | every text handed to the browser is the formatter's output, so at most 500 characters |
| ThreadsBrowser.InnerPostResults | social_media_bot/platforms/threads.py:336-344 | an inner attempt either raises or returns the fixed success result |
| ThreadsBrowser.PostedRecords | social_media_bot/platforms/threads.py:280-286 | a run ending in an error or the success result records exactly when it returns |
| ThreadsBrowser.PostedNoAttempts | social_media_bot/platforms/threads.py:281 | no attempt leaves `None`, whose subscript raises `TypeError`; nothing is recorded |
| ThreadsBrowser.PostResultRecorded | social_media_bot/platforms/threads.py:281-286 | the success result is recorded and returned as it is; an error is neither |
| ThreadsBrowser.PostRecordsOnSuccess | social_media_bot/platforms/threads.py:263-289 | a post is recorded exactly when the call returns, and it returns only the fixed success result |
| ThreadsBrowser.PostRunRecords | social_media_bot/platforms/threads.py:280-286 | the same for any inner step that raises or returns the success result |
| ThreadsBrowser.PostMediaErrorNotRetried | social_media_bot/platforms/threads.py:273-275 | a failed media step, a rejection or an exception of the check, ends the call before any attempt with that exception, which is not retried, and nothing is recorded |
| ThreadsBrowser.PostAsWrittenMediaKeyError | social_media_bot/platforms/threads.py:263-275 | as written, a post with any existing media file raises `KeyError('content_rules')` before any attempt and records nothing |
| ThreadsBrowser.PostGuardIntended | social_media_bot/platforms/threads.py:266-275 | with the content rules in the table, the guards pass exactly for an allowed rate, valid content and no media or a valid file, and an invalid file gives `ThreadsMediaError` |
| ThreadsBrowser.ReplyGuardOrder | social_media_bot/platforms/threads.py:403-407 | a reply checks the rate limit and then the content first |
| ThreadsBrowser.ReplyMediaStep | social_media_bot/platforms/threads.py:426-428 | inside the reply session a failed media step, rejection or exception, becomes the retryable `Failed to post reply: ` error with that message |
| ThreadsBrowser.ReplyRetriesMediaError | social_media_bot/platforms/threads.py:409-472 | a reply whose media step fails is re-raised as a posting error and retried: all `max_retries` attempts fail on it |
| ThreadsBrowser.ReplyAsWrittenMediaFails | social_media_bot/platforms/threads.py:401-472 | as written, a reply with an existing media file that reaches the media step fails every attempt with `Failed to post reply: 'content_rules'` and spends all `max_retries` |
| ThreadsApi.InitialState | social_media_bot/platforms/threads_api.py:32-53 | the adapter starts logged in exactly when an access token is set and non-empty |
| ThreadsApi.ParseTime | social_media_bot/platforms/threads_api.py:59 | `float()` of something other than a number's text raises `ValueError` |
| ThreadsApi.AddSeconds | social_media_bot/platforms/threads_api.py:136 | `time.time() + expires_in` adds a number and raises `TypeError` for anything that is not a number or a boolean |
| ThreadsApi.SaveSpec | social_media_bot/platforms/threads_api.py:131-136 | saving never touches the login flag, and a response that is not a dict raises before any change |
| ThreadsApi.UploadOne | social_media_bot/platforms/threads_api.py:221-254 | a path adds at most one id, only for an existing file, and only a truthy one |
| ThreadsApi.UploadedBound | social_media_bot/platforms/threads_api.py:217-256 | every uploaded id is truthy, and there are no more of them than existing files, hence than paths |
| ThreadsApi.OnDiskExist | social_media_bot/platforms/threads_api.py:221-224 | an upload is attempted only for an existing file among the paths |
| ThreadsApi.StringsAppend | social_media_bot/platforms/threads_api.py:178 | the strings of joined lists are the joined strings, and each is the value it came from |
| ThreadsApi.FirstNonString | social_media_bot/platforms/threads_api.py:178 | the position of the first item `','.join` rejects |
| ThreadsApi.MediaShaping | social_media_bot/platforms/threads_api.py:169-178 | no media field without ids, `media_id` for exactly one, and for several string ids a comma-joined `carousel_media_ids` that splits back into the ids |
| ThreadsApi.SuccessData | social_media_bot/platforms/threads_api.py:191-330 | the success result of a post or a reply, whose `media_count` is the number of paths asked for |
| ThreadsApi.FailureData | social_media_bot/platforms/threads_api.py:204-344 | a post or reply answered with any other status reports failure |
| ThreadsApi.ThreadsAPI.constructor | social_media_bot/platforms/threads_api.py:32-53 | the client settings and tokens from the environment, the parsed rate limits, nothing recorded |
| ThreadsApi.ThreadsAPI.SaveTokens | social_media_bot/platforms/threads_api.py:131-136 | the tokens and expiry of the specification; nothing recorded |
| ThreadsApi.ThreadsAPI.RefreshToken | social_media_bot/platforms/threads_api.py:104-129 | the answer and tokens of the specification; nothing recorded |
| ThreadsApi.ThreadsAPI.Authenticate | social_media_bot/platforms/threads_api.py:55-102 | the outcome and state of the specification; nothing recorded |
| ThreadsApi.ThreadsAPI.UploadMedia | social_media_bot/platforms/threads_api.py:217-256 | the ids collected in upload order, and an upload attempted for exactly the existing paths |
| ThreadsApi.ThreadsAPI.Send | social_media_bot/platforms/threads_api.py:158-215 | the request block's outcome and whether it records a post |
| ThreadsApi.ThreadsAPI.PublishContent | social_media_bot/platforms/threads_api.py:148-348 | `post_content` and `reply_to_thread` (the same steps on the replies URL): the specified outcome and state; the rate limiter's count grows exactly when a post is recorded |
| ThreadsApi.ThreadsAPI.CheckStatus | social_media_bot/platforms/threads_api.py:371-377 | up exactly when the status endpoint answers 200 |
| ThreadsApi.ExpiredTokenTrusted | social_media_bot/platforms/threads_api.py:52-59 | any non-empty access token logs the adapter in at construction, even an expired one that `authenticate` would not reuse |
| ThreadsApi.ReuseNeedsNoRequest | social_media_bot/platforms/threads_api.py:59-62 | a token that has not expired is reused without a token request, whatever the endpoint would answer |
| ThreadsApi.RefreshPath | social_media_bot/platforms/threads_api.py:65-67 | with a refresh token `authenticate` returns the refresh's answer and does not set the login flag |
| ThreadsApi.RefreshOutcome | social_media_bot/platforms/threads_api.py:104-129 | a refresh succeeds exactly on 200 with a dict whose `expires_in` is absent or a number; the flag never changes |
| ThreadsApi.ManualPath | social_media_bot/platforms/threads_api.py:69-98 | otherwise `authenticate` is the code exchange, logging in exactly when it returns true, which needs a 200 |
| ThreadsApi.SavedTokens | social_media_bot/platforms/threads_api.py:133-136 | saving overwrites both tokens and, without `expires_in`, sets the expiry an hour ahead |
| ThreadsApi.SavedTokenReused | social_media_bot/platforms/threads_api.py:59-136 | a saved token is reused exactly while the clock is before the save time plus `expires_in` |
| ThreadsApi.PublishGuardOrder | social_media_bot/platforms/threads_api.py:150-286 | for a post and a reply alike, the rate limiter first, raising before any login or request; then a failed login raises `ThreadsAPIAuthError`; neither records |
| ThreadsApi.PublishRecords | social_media_bot/platforms/threads_api.py:181-318 | for a post and a reply alike, `record_post` is called exactly when the request answered 200 with a dict body, and the result then succeeds with `media_count` the number of paths |
| ThreadsApi.PublishSpecRecords | social_media_bot/platforms/threads_api.py:148-215 | a post records only when the rate limiter admitted it and its request block recorded |
| ThreadsApi.RefreshedPostStaysLoggedOut | social_media_bot/platforms/threads_api.py:65-67 | a post that logs in by a successful refresh goes ahead yet leaves the adapter logged out |
| ThreadsApi.MediaCountCountsPaths | social_media_bot/platforms/threads_api.py:197 | a post with one missing file is recorded with `media_count` 1 although nothing was uploaded |
| ThreadsFormat.KeepLine | social_media_bot/platforms/threads_api.py:264-267 | a line contributes at most itself, stripped |
| ThreadsFormat.Kept | social_media_bot/platforms/threads_api.py:261-267 | no more lines are kept than there are |
| ThreadsFormat.Cap | social_media_bot/platforms/threads_api.py:273-274 | at most 500 characters; a short text unchanged; a long one keeps its first 497 characters and ends in "..." |
| ThreadsFormat.FormatContent | social_media_bot/platforms/threads_api.py:258-276 | the loop, join and cap compute the formatted text, at most 500 characters |
| ThreadsFormat.KeptAppend | social_media_bot/platforms/threads_api.py:264-267 | keeping lines one at a time builds the same list |
| ThreadsFormat.KeptStep | social_media_bot/platforms/threads_api.py:264-267 | one turn of the line loop |
| ThreadsFormat.KeptStripped | social_media_bot/platforms/threads_api.py:264-267 | every kept line is stripped and non-blank |
| ThreadsFormat.KeptLackBreak | social_media_bot/platforms/threads_api.py:261-267 | kept lines hold no line break when no input line does |
| ThreadsFormat.KeptOfContent | social_media_bot/platforms/threads_api.py:261-267 | the kept lines of any text are stripped, non-blank and without line breaks |
| ThreadsFormat.SplitLeadingBreak | social_media_bot/platforms/threads_api.py:261 | a leading line break splits off an empty line |
| ThreadsFormat.JoinedPieces | social_media_bot/platforms/threads_api.py:270 | a joined text splits on line breaks into its first line, an empty line and the rest |
| ThreadsFormat.KeptOfJoined | social_media_bot/platforms/threads_api.py:261-270 | re-splitting joined kept lines and keeping the non-blank ones gives them back |
| ThreadsFormat.FormattedParagraphs | social_media_bot/platforms/threads_api.py:270 | an uncut formatted text splits on blank lines back into its kept lines |
| ThreadsFormat.FormatIdempotent | social_media_bot/platforms/threads_api.py:258-276 | formatting an uncut text again changes nothing |
| ThreadsFormat.BlankFormatsEmpty | social_media_bot/platforms/threads_api.py:258-276 | a text of blanks formats to the empty string |
| ThreadsConfig.Strs | social_media_bot/config/threads_config.py:56-59 | a list of strings keeps its length |
| ThreadsConfig.GetConfig | social_media_bot/config/threads_config.py:8-20 | the adapter table is a dict without a `content_rules` key |
| ThreadsConfig.CredentialsEnableThreads | social_media_bot/config/threads_config.py:23-28 | the credential check is exactly the condition that enables Threads |
| ThreadsConfig.GetContentRules | social_media_bot/config/threads_config.py:51-61 | the content rules are a dict |
| ThreadsConfig.GetRateLimits | social_media_bot/config/threads_config.py:64-71 | the rate limits are a dict |
| ThreadsConfig.GetMediaConfig | social_media_bot/config/threads_config.py:74-81 | the media configuration is a dict |
| ThreadsConfig.ConfigValues | social_media_bot/config/threads_config.py:10-14 | 500 characters, 3 retries, 2 seconds apart, 30 seconds timeout |
| ThreadsConfig.RulesMaxLength | social_media_bot/config/threads_config.py:54 | the rules' length limit is 500 |
| ThreadsConfig.RulesBannedWords | social_media_bot/config/threads_config.py:56 | the banned words are spam, advertise and promotion |
| ThreadsConfig.RulesMediaTypes | social_media_bot/config/threads_config.py:59 | the allowed types are image/jpeg, image/png and video/mp4 |
| ThreadsConfig.RulesMediaSize | social_media_bot/config/threads_config.py:60 | the size limit is 10 MiB |
| ThreadsConfig.ContentRulesValues | social_media_bot/config/threads_config.py:51-61 | the rules agree with the adapter: its length limit, its banned words, its media types, 10 MiB |
| ThreadsConfig.RateLimitValues | social_media_bot/config/threads_config.py:64-71 | 5 an hour, 20 a day, 300 seconds apart, 3600 seconds cooldown |
| ThreadsConfig.MediaConfigValues | social_media_bot/config/threads_config.py:80 | the media size limit is the content rules' one |
| Web.Failure | social_media_bot/platforms/devto.py:43 | the failure shape has `success` false and the message as `error` |
| Py.Subscript | social_media_bot/platforms/threads.py:229 | indexing a dict without the key raises `KeyError` with the key's repr; indexing raises only `KeyError` or `TypeError` |
| Py.ParseInt | social_media_bot/platforms/threads.py:86-88 | `int()` of a string returns exactly for a stripped, signed, underscore-grouped decimal literal, and otherwise raises `ValueError` |
| Py.ParseIntRoundTrip | social_media_bot/platforms/threads.py:86-88 | `int()` of a number's decimal form, surrounded by whitespace or not, gives it back |
| Py.ParseIntGrouped | social_media_bot/platforms/threads.py:86-88 | `int("1_000")` is 1000 |
| Py.ParseIntMisgrouped | social_media_bot/platforms/threads.py:86-88 | a doubled, leading or trailing underscore raises |
| Text.StripBlank | social_media_bot/platforms/threads.py:202 | `s.strip()` is empty exactly when every character of `s` is whitespace |
| Text.StripShape | social_media_bot/platforms/threads_api.py:265 | a non-empty stripped string neither starts nor ends with whitespace |
| Text.StripIdempotent | social_media_bot/platforms/threads_api.py:265 | stripping twice is stripping once |
| Text.SplitCount | social_media_bot/platforms/threads_api.py:261 | `split` yields more than one piece exactly when the separator occurs |
| Text.SplitJoin | social_media_bot/platforms/threads_api.py:261-270 | joining the pieces of a split with the same separator gives the text back |
| Text.JoinSplit | social_media_bot/platforms/threads_api.py:261-270 | splitting a join of pieces that do not hold the separator's first character gives the pieces back |
| Text.LowerConcat | social_media_bot/tools/content_tools.py:606 | `lower()` works character by character: lowering a concatenation concatenates the lowered parts |
| Text.LowerIdempotent | social_media_bot/tools/content_tools.py:606 | a lowered string has no capital letters, and lowering it again changes nothing |

## Left out

- The browser automation itself (Selenium, the page elements and the waits): the browser adapter sees each login and each browser session only as its outcome.
- `get_selenium_options` in `config/threads_config.py`: a list of browser flags that no modelled logic reads.
- `_optimize_image` (PIL resizing): a parameter from a path to the path that is uploaded.
- The `RateLimiter` class: its source is not shown, so it is its admission answer `canPost` and a count of `record_post` calls.
- `ThreadsAPI.get_profile` and `_track_metrics`: a plain GET and a log line, with no decision in them.
- The clock: times are whole seconds given as arguments; `datetime.isoformat` strings are not rendered, so a timestamp is stored as its number.
- ThreadsApi.ParseTime: `float()` is modelled only on the decimal integer literals the model's clock writes; fractional and exponent forms raise `ValueError` in the model.
- Floating point: sentiment and relevance scores are plain booleans (pass or fail); `engagement_rate` and `performance_score` are stored opaque values no operation computes (the rate `update_metrics` divides out is not stored). `update_metrics` checks that `metrics_history` can take `append`, but the entry it appends is not stored.
- `json.loads` is an oracle from a string to a value or nothing (a `JSONDecodeError`); `response.json()` is the body value of a response.
- `hashlib.md5` is a parameter from the content value to its hash string.
- `open()` on a media file: a file that exists is opened; a failure to read it is not modelled.
- Text.Lower: only `A`–`Z` are lower-cased; Python's full Unicode case mapping is not modelled. The whitespace set is that of `str.isspace`.
- ContentTools.IsWordChar: `\w` is ASCII letters, digits and `_`, where Python's `re` also matches Unicode letters and digits; ContentTools.FindHashtags therefore ends a hashtag at the first non-ASCII letter.
- Py.ParseInt: only the ASCII digits `0`–`9` are read; `int()` also accepts other Unicode decimal digits, which the model rejects with `ValueError`.
- ContentTools.Filter: the relevance score is a boolean input that counts only when there are keywords to score; the count of keyword occurrences itself is not modelled.
- Database.DatabaseManager.PlatformAnalytics: each `posts` entry leaves out its `engagement_rate`, and `posted_at` is the stored number instead of its ISO string; `average_engagement_rate` is not computed. The `{}` answer to a count that cannot be added is not modelled: the table only changes through `update_metrics`, which never stores such a count (Database.MetricsAfterSummable).
- `repr` of a string is written with single quotes and without escaping the characters inside.
- HTTP header names are matched exactly as written; `requests` matches them without regard to case.
- `base.py`: the abstract adapter is the set of adapter calls the manager receives as functions, not a class hierarchy.
- The `EngagementPredictor`, `LinkedInAnalytics` and the prompts built for the language model: the completion's outcome is an input.
- `ContentTools._generate_content` and the language model's response shape: the completion is an input that returns a string or raises.
- The content filter's metrics dict, its `content_hash` and `filtered_at` fields, and the hashtag metadata: records of the decision, not part of it.
- The database's SQLAlchemy session, engine and indexes, `_verify_database`, `close`, `add_safety_log` and `get_post_performance`: the tables are sequences of records and a commit's success is an argument.
- Database.DatabaseManager.GetPostHistory: the rows are selected by the filters, but the ordering by `created_at` descending and the `metrics` section of each report are not modelled.
- The `input()` prompt of the Graph API adapter's code exchange: the code the user would type is an argument.
- The logging calls throughout, which have no effect on results.

## Findings

| source | as written | input that shows it | evidently intended | confidence | as-written member | corrected member |
|---|---|---|---|---|---|---|
| social_media_bot/platforms/threads.py:221-239 | `_validate_media` reads `self.config['content_rules']`, but the adapter's table comes from `get_config()`, which has no such key, so every existing file raises `KeyError('content_rules')` | an existing 1 KiB file `photo.png` of type image/png | check the file against `get_content_rules()`: an allowed type and at most 10 MiB | not executed | ThreadsBrowser.ValidateMediaFindsNoRules | ThreadsBrowser.ValidateMedia |
| social_media_bot/tools/content_tools.py:545-566 | `add_content_source` returns the new source's `int` id, and the code reads `source.id` from it, which raises `AttributeError`; the handler then reports the post with no ids and never creates the post record | a completion "A post" with the database creating source 1 and post 2 | use the returned id as the source id, so both ids are reported | not executed | ContentTools.AsWrittenNeverStores | ContentTools.GenerateStores |
