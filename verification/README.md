# Verified models of the relay's core logic

This project models the parts of the relay (an Anthropic-to-Kiro gateway) whose correctness rests on
their own logic rather than on I/O, and proves what those parts promise. `dafny verify dfyconfig.toml`
checks all of it.

Code that works on fields or in loops is modelled by classes and methods, each proved against a
specification function or relation; the promises themselves are lemmas about those specifications, over
every input, every run or every interleaving. Every file holds one module of the same name.

- **Prompt-cache simulator** (`CacheSplit`, `JsonText`, `JsonLex`, `CacheTable`, `CacheSegments`, `CacheCosts`,
  `CacheChain`, `CacheContent`, `CacheIsolation`, `CachePlan`, `CacheTraffic`): the split of a real token total, the
  canonical JSON text, the bounded cache with TTL and eviction, the prefix chain of a request, what its tokens count
  and what its keys tell apart, and what each of many conversations reads back from the cache.
- **Anthropic-to-Kiro conversion** (`Schema`, `ToolMap`, `ToolNames`, `SystemPrologue`, `History`, `Pairing`,
  `Placeholders`, `DeclaredTools`): tool schemas, tool arguments and tool names in both directions, grouping of the
  history, repair of tool calls and tool results, placeholder tools.
- **What of a conversation arrives upstream** (`ClientContent`, `ConvertedContent`, `ConvertedTools`,
  `ConversionSuccess`, `PlainChat`): the converted request in terms of functions that read the client's JSON directly,
  and the exact condition under which there is one.
- **Usage aggregation** (`UsageStats`, `UsageFigures`, `UsageReports`, `UsageEntries`, `UsageRetention`): online
  buckets against an offline reference, what each figure counts, reports over a window, and replaying the log files.
- **Web search** (`WebSearch`, `SearchContent`, `Sse`, `Startup`): the agentic loop, what upstream and client see of
  its rounds, the rendering of its reply as events and the replay a client runs, and the two tasks that start a
  deferred stream.
- **Streaming** (`Streams`, `StreamRuns`): the live and the buffered machine over every schedule.
- **Debugging proxy** (`HttpAccumulator`): the incremental HTTP request accumulator.
- **Admin access** (`RateLimiter`, `AdminAccess`) and **image shrinking** (`Base64`, `ImageShrink`).
- `Basics`, `Wrappers`, `Json`, `Strings`, `Types` hold what several of these share.

The outside world is a parameter: token estimates, the upstream and its replies, search replies, stream
contexts and frame decoders, image codecs, digests of long tool names, lower-casing of tool names, the value
a printed float stands for, and every clock. All statements hold for all values of these parameters.

## Where the code falls short of its documentation

The models follow the code. Where a promise does not hold of it, the exact condition is proved.

- `src/image_resize.rs:427-430` promises output that fits `max_bytes`. The test ignores padding, so the result
  may be up to three bytes longer; it always fits if and only if `max_bytes` is a multiple of four
  (`ImageShrink.FitsIsExactIff`).
- The read, covered and prompt estimates of a plan are ordered if and only if the prompt estimate fits a signed
  32-bit integer (`CachePlan.PlanOrdered`): the casts at `src/anthropic/cache_metering.rs:418-421` wrap. Enough
  image blocks without a source get there (`CachePlan.ManyImagesBreakTheOrder`).
- Placeholder tools are distinct ignoring case if and only if no two answered calls of undeclared tools have
  names that differ in case only (`Placeholders.ConvertedPlaceholdersDistinctIff`); any two such names are both
  added (`Placeholders.PlaceholdersMayRepeat`, for instance `Placeholders.FooMayRepeat`).
- In raw mode tool arguments are renamed on the way back although they were not renamed on the way out
  (`ToolMap.RawModeSurvives`, `ToolMap.RawModeLosesLineRange`).
- An offered tool's calls reach the client under the tool's own name if and only if the tool keeps its name: no
  renamed tool of the request gets that name, and for a long name no other one recorded later is shortened alike
  (`ToolNames.OfferedComesBackIff`, `ToolNames.NamesComeBack`). A client's own `fs_write` before `Write`, or beside
  a call of `Write` in the history, does not (`ToolNames.OwnToolIsLost`, `ToolNames.FsWriteIsLost`).
- Two sessions are isolated from each other in the prompt cache if and only if neither session id begins with the
  other (`CacheIsolation.SessionsShareIff`), and two client keys if and only if the digits of neither begin those
  of the other (`CacheIsolation.KeysShareIff`): nothing separates the parts of the hash input, and roles are free
  text.
- `src/anthropic/cache_metering.rs:736-739` wants different content not to hit the same prefix. Up to one block it
  holds: the keys after it are equal if and only if the blocks say the same (`CacheContent.BlocksDecideKeys`). Nothing
  separates one block from the next, though: two text blocks have the key of one text that contains the second one's
  opening words (`CacheContent.TwoBlocksLookLikeOne`).
- `src/anthropic/converter.rs:940-950` limits a tool's Kiro name to 63 bytes but shortens by characters: a long name
  keeps to the limit if and only if its first 54 characters exist and are ASCII (`ToolNames.NameFitsIff`); others may
  grow (`ToolNames.ShorteningLengthens`).
- With thinking on, `src/anthropic/converter.rs:1489-1532` tells the upstream so if and only if the request has no
  system or its system texts are not all empty (`SystemPrologue.ThinkingIsAnnouncedIff`,
  `SystemPrologue.EmptySystemHidesThinking`).
- Chunking of HTTP bytes is immaterial if and only if no request met ends below zero, which a negative
  `content-length` can bring about (`HttpAccumulator.SplitsIff`, `HttpAccumulator.NegativeLengthExample`).

## Model

| member | source | states |
|---|---|---|
| CacheSplit.SplitIsExclusive | src/anthropic/cache_metering.rs:86-106 | for every usage and total: three non-negative parts that sum to the total, a negative total counting as zero |
| CacheSplit.SplitStep | src/anthropic/cache_metering.rs:86-106 | raising the total by one raises exactly one part by exactly one |
| CacheSplit.SplitMonotone | src/anthropic/cache_metering.rs:86-106 | every part is monotone in the total |
| CacheSplit.SplitNearShare | src/anthropic/cache_metering.rs:86-106 | for ordered estimates each part is within one token of its exact share, the input part within half a token |
| JsonText.SortIgnoresOrder | src/anthropic/cache_metering.rs:770-798 | sorting any listing of an object's keys gives the one ascending listing, so the text ignores key order |
| JsonText.TextUnambiguous | src/anthropic/cache_metering.rs:770-798 | a text followed by anything that may follow a value determines both the value and what follows |
| JsonText.TextInjective | src/anthropic/cache_metering.rs:770-798 | two values with equal canonical text are equal |
| JsonText.PrintedScalars | src/anthropic/cache_metering.rs:770-798 | null, booleans, integers and floats are printed as sections 3 and 6 of RFC 8259 have them |
| JsonText.EscapedForms | src/anthropic/cache_metering.rs:770-798 | the escapes of section 7 of RFC 8259 |
| JsonText.PrintedArray | src/anthropic/cache_metering.rs:788-795 | two items in brackets with a comma between them |
| JsonText.PrintedObject | src/anthropic/cache_metering.rs:772-787 | two fields in braces, the lesser key first |
| JsonLex.BarSplits | src/anthropic/cache_metering.rs:746-757 | whatever stands before it, the bar in front of a canonical JSON text can be found again |
| CacheTable.CacheMeter.constructor | src/anthropic/cache_metering.rs:171-198 | starts from the persisted records that have not expired |
| CacheTable.CacheMeter.Lookup | src/anthropic/cache_metering.rs:200-217 | answers for each segment whether its key is present and unexpired, and touches the hits only |
| CacheTable.CacheMeter.Record | src/anthropic/cache_metering.rs:219-249 | writes the segments with a clamped TTL, then evicts down to the capacity |
| CacheTable.CacheMeter.EvictOverCapacity | src/anthropic/cache_metering.rs:236-248 | at most 4096 entries stay, and none evicted was hit later than one kept |
| CacheTable.CacheMeter.EvictExpired | src/anthropic/cache_metering.rs:296-304 | removes exactly the expired entries and marks the table dirty if there were any |
| CacheTable.CacheMeter.FlushToDisk | src/anthropic/cache_metering.rs:252-279 | a dirty table is persisted as it is, a clean one is left alone |
| CacheTable.OldestFirstEvicts | src/anthropic/cache_metering.rs:236-248 | dropping the first keys of a listing ordered by last hit is a proper eviction |
| CacheTable.StepKeepsInvariant | src/anthropic/cache_metering.rs:171-304 | every operation keeps: hits agree with the history of records, memory with disk, sizes within capacity |
| CacheTable.LookupMatchesHistory | src/anthropic/cache_metering.rs:171-304 | over every run, a lookup hits exactly when the latest record of the key is younger than its TTL and was not evicted |
| CacheTable.FreshRecordsEvictedLast | src/anthropic/cache_metering.rs:219-249 | a segment is evicted by its own record only if everything kept was hit at the same instant |
| CacheSegments.DetectMaxTtl | src/anthropic/cache_metering.rs:686-717 | an hour if any cache control of tools, system or message blocks wants it, else five minutes |
| CacheSegments.ExtractSegments | src/anthropic/cache_metering.rs:442-648 | the segments are those of feeding tools, cached system part and messages, in order, with a mark after each unit |
| CacheSegments.FeedTools | src/anthropic/cache_metering.rs:526-538 | feeding the tools one by one is running their operations |
| CacheSegments.FeedSystems | src/anthropic/cache_metering.rs:550-575 | system texts before the first cache control cost tokens but are not hashed |
| CacheSegments.FeedMessage | src/anthropic/cache_metering.rs:584-644 | a message feeds its role, then text or blocks, with a mark after each block and after the message |
| CacheSegments.FeedBlocks | src/anthropic/cache_metering.rs:605-638 | feeding blocks one by one is running their operations |
| CacheSegments.FeedConversation | src/anthropic/cache_metering.rs:582-645 | feeding messages one by one is running the conversation's operations |
| CacheChain.SegmentsIncrease | src/anthropic/cache_metering.rs:442-648 | along a chain keys are proper extensions of each other and tokens grow strictly, bounded by the prompt |
| CacheChain.ChainIsMarks | src/anthropic/cache_metering.rs:442-648 | a prefix is in the chain exactly when a mark ends it and it costs tokens; its key is all text fed before |
| CacheChain.SystemAlike | src/anthropic/cache_metering.rs:550-575 | the uncached system part changes prompt tokens but neither keys nor segment tokens |
| CacheChain.SameBlockSameOps | src/anthropic/cache_metering.rs:740-758 | tool ids enter neither the digest nor the token count |
| CacheContent.BlocksDecideKeys | src/anthropic/cache_metering.rs:605-758 | two requests that agree up to a marked block have equal keys after it if and only if the blocks say the same: text, thinking, redacted data, name and input, flag and content, media type and data |
| CacheContent.StringsDecideKeys | src/anthropic/cache_metering.rs:582-645 | the same of a message with a string: the keys at its end are equal if and only if the strings are |
| CacheContent.ToolsDecideKeys | src/anthropic/cache_metering.rs:721-726 | the same of the last tool: name, description and schema |
| CacheContent.SystemsDecideKeys | src/anthropic/cache_metering.rs:550-575 | the same of the last cached system text |
| CacheContent.EndKeyIsKept | src/anthropic/cache_metering.rs:442-648 | the key after a marked block is among the keys of the whole request |
| CacheContent.OtherBlockIsNotRead | src/anthropic/cache_metering.rs:370-648 | after a commit of one of them only, a request whose block says something else reads what both share and not that block |
| CacheContent.TwoBlocksLookLikeOne | src/anthropic/cache_metering.rs:605-758 | two text blocks have the key of one text block that contains the second one's opening words |
| CacheCosts.PromptIsSum | src/anthropic/cache_metering.rs:442-832 | the prompt estimate is the sum of what tools, system texts and messages cost, read off the request, capped at 32 bits |
| CacheCosts.TurnLives | src/anthropic/cache_metering.rs:219-234 | a committed turn lives for an hour if a cache control of tools, system or blocks asks for it, else for five minutes |
| CacheChain.ChainGrows | src/anthropic/cache_metering.rs:442-648 | a turn's chain is a prefix of the chain of every turn that continues it |
| CacheChain.DisabledHasNoSegments | src/anthropic/cache_metering.rs:658-674 | without a session and with the master key nothing is cached |
| CacheIsolation.KeysAreIsolated | src/anthropic/cache_metering.rs:658-674 | requests of two client keys without a session share no prefix, unless the digits of one key begin those of the other and its request starts with a digit |
| CacheIsolation.KeysShareIff | src/anthropic/cache_metering.rs:442-674 | some requests of two client keys without a session share a prefix if and only if the digits of one begin those of the other |
| CacheIsolation.SeedsApartShareNothing | src/anthropic/cache_metering.rs:658-674 | whatever two requests say, they share no prefix if neither isolation seed begins with the other |
| CacheIsolation.SessionsAndKeysAreIsolated | src/anthropic/cache_metering.rs:658-674 | a request with a session and one scoped by a client key share no prefix |
| CacheIsolation.SharingSessionsBeginAlike | src/anthropic/cache_metering.rs:658-674 | two requests whose sessions share a prefix have session ids of which one begins with the other |
| CacheIsolation.SessionsShareIff | src/anthropic/cache_metering.rs:442-674 | some requests of two sessions share a prefix if and only if one session id begins with the other |
| CachePlan.DeepestHitMeaning | src/anthropic/cache_metering.rs:409-416 | the last segment that hits, and none beyond it does |
| CachePlan.ComputeCacheUsage | src/anthropic/cache_metering.rs:370-429 | plans read, covered and prompt estimates from the deepest hit and writes no new segment |
| CachePlan.CommitSuccess | src/anthropic/cache_metering.rs:134-138 | only a commit records the planned segments |
| CachePlan.PlanOrdered | src/anthropic/cache_metering.rs:409-423 | read, covered and prompt are ordered and non-negative if and only if the prompt estimate fits 31 bits |
| CachePlan.ManyImagesBreakTheOrder | src/anthropic/cache_metering.rs:409-428 | any number of unreadable images that costs more than 31 bits hold gives a plan out of order |
| CachePlan.SegmentHits | src/anthropic/cache_metering.rs:370-429 | in a followed conversation a segment hits exactly when the last committed turn has it and has not expired |
| CachePlan.TurnReadsLastCommit | src/anthropic/cache_metering.rs:370-648 | in a followed conversation, at every instant, a turn reads exactly what the last committed turn covered until that expires, and then nothing; failed turns change nothing |
| CacheTraffic.EachReadsItsOwn | src/anthropic/cache_metering.rs:171-648 | in every run of any number of conversations kept apart from one another, each turn reads what the last committed turn of its own conversation covered, until that expires |
| CacheTraffic.SmallRunsReadTheirOwn | src/anthropic/cache_metering.rs:171-648 | the same without any premise on eviction while no more segments were recorded than the table holds |
| CacheTraffic.SmallRunsEvictNothing | src/anthropic/cache_metering.rs:219-304 | a run evicts nothing, restarts included, while it recorded no more segments than the table holds |
| UsageStats.UpsertBucket | src/admin/usage_stats.rs:553-587 | adds a record to its bucket or inserts a sorted one, then drops the oldest over the maximum |
| UsageStats.UpsertAggregates | src/admin/usage_stats.rs:553-587 | an upsert keeps the list the newest buckets of all records, with full sums |
| UsageStats.UpsertIsOffline | src/admin/usage_stats.rs:553-587 | the bucket list after any records equals the offline group-and-keep-newest computation |
| UsageStats.OfflineAggregates | src/admin/usage_stats.rs:553-587 | the offline list is strictly sorted and holds the newest times with the full sums of all their records |
| UsageStats.AggregatesUnique | src/admin/usage_stats.rs:553-587 | that description determines the list |
| UsageStats.OfflineIgnoresOrder | src/admin/usage_stats.rs:553-587 | any arrival order of the same records gives the same list |
| UsageStats.BucketConserves | src/admin/usage_stats.rs:553-587 | per bucket, models sum to the overall statistics, credentials to the part whose credential id is not 0 |
| UsageFigures.TotalShows | src/admin/usage_stats.rs:195-215 | the statistics of a group are, figure by figure, the sums of the records' own fields, the number of records, and the number of those without success |
| UsageFigures.EachBucketShows | src/admin/usage_stats.rs:553-587 | every bucket shows these figures of its records: overall, for each model and for each credential |
| UsageFigures.OfflineShows | src/admin/usage_stats.rs:553-587 | the same of the offline list, and so of the list kept online |
| UsageReports.UsageAggregator.constructor | src/admin/usage_stats.rs:308-316 | an aggregator that has seen nothing |
| UsageReports.UsageAggregator.Ingest | src/admin/usage_stats.rs:369-392 | hour and day buckets stay the offline aggregates of everything ingested |
| UsageReports.UsageAggregator.RebuildFromLogs | src/admin/usage_stats.rs:318-366 | replaying ingests all records of the files within the retention, in the order listed |
| UsageReports.RebuildIgnoresFileOrder | src/admin/usage_stats.rs:318-366 | the same files listed in any order rebuild the same hour and day buckets |
| UsageRetention.EarlyRecordsDoNotShow | src/admin/usage_stats.rs:427-440 | records from before a cutoff leave the window after it unchanged, eviction included |
| UsageRetention.RestartShowsTheSame | src/admin/usage_stats.rs:318-366 | for every cutoff within the retention, the window after a restart is that of an aggregator that saw all records |
| UsageReports.UsageAggregator.QueryByModel | src/admin/usage_stats.rs:427-459 | each model once with the calls and tokens of the buckets since the cutoff, the most called first |
| UsageReports.UsageAggregator.QueryByCredential | src/admin/usage_stats.rs:462-496 | each credential once with calls, tokens and errors of the buckets since the cutoff, the most called first |
| UsageReports.ModelDistributionConserves | src/admin/usage_stats.rs:427-459 | the model report of a window adds up to the window's overall calls and tokens |
| UsageReports.CredentialDistributionConserves | src/admin/usage_stats.rs:462-496 | the credential report of a window adds up to the window's records that name a credential |
| UsageEntries.ModelEntriesAre | src/admin/usage_stats.rs:427-459 | a model has an entry if and only if it has a record in the window; it shows calls, input as input and output as output, summed over exactly those records' own fields |
| UsageEntries.CredentialEntriesAre | src/admin/usage_stats.rs:462-496 | the same of credentials, with errors as the number of records without success; records without a credential have no entry |
| Schema.NormalizePropertySchema | src/anthropic/converter.rs:146-196 | the loop form computes the keyword-by-keyword normal form |
| Schema.PropertySchemaWf | src/anthropic/converter.rs:146-196 | the output is well-formed along the whole `properties` and `items` spine |
| Schema.PropertySchemaFixed | src/anthropic/converter.rs:146-196 | well-formed schemas are left as they are |
| Schema.NormalisationWeakens | src/anthropic/converter.rs:146-196 | whatever value the original schema accepts, the normalised one accepts |
| Schema.MeaningPreserved | src/anthropic/converter.rs:146-196 | where no numeric bound is dropped, original and normalised schema accept the same values |
| Schema.StripTopLevelCombinators | src/anthropic/converter.rs:36-62 | the loops compute the specified removal and borrowing |
| Schema.StripOneSpec | src/anthropic/converter.rs:36-62 | a removed combinator lends exactly four keywords, only to a schema without `properties`, only from its first object variant, and never over a keyword that is there |
| Schema.ToolSchemaKeeps | src/anthropic/converter.rs:65-143 | other keywords stay as they are; `additionalProperties` stays if it is a boolean or an object and is true otherwise |
| Schema.NormalizeJsonSchema | src/anthropic/converter.rs:65-143 | the imperative form computes the tool schema's normal form |
| Schema.ToolSchemaIsWf | src/anthropic/converter.rs:65-143 | every output is a well-formed object schema without top-level combinators |
| Schema.ToolSchemaFixed | src/anthropic/converter.rs:65-143 | exactly the well-formed schemas are left as they are, so normalising is idempotent |
| ToolMap.LineRangeComesBack | src/anthropic/converter.rs:1029-1225 | offset and limit survive the way over start and end lines, for every limit from one on |
| ToolMap.ArgumentsAreRenamed | src/anthropic/converter.rs:1029-1225 | every carried argument of every built-in goes out under Kiro's name for it and comes back under the client's |
| ToolMap.ExplanationIsGiven | src/anthropic/converter.rs:1029-1140 | the explanation is the client's if it gave one, and reading, globbing and listing always have one |
| ToolMap.CanonicalComesBack | src/anthropic/converter.rs:1029-1225 | in Claude Code mode built-in arguments come back unchanged if and only if they are canonical |
| ToolMap.RawModeSurvives | src/anthropic/converter.rs:1143-1225 | in raw mode they come back if and only if no Kiro name and nothing dropped is among them |
| ToolMap.RawModeLosesLineRange | src/anthropic/converter.rs:1143-1146 | a raw-mode read whose offset is lost |
| ToolNames.MapName | src/anthropic/converter.rs:959-1000 | the Kiro name of a tool, and the map with a renamed tool recorded |
| ToolNames.NameFitsIff | src/anthropic/converter.rs:940-1000 | the Kiro name keeps within 63 bytes if and only if the name needs no shortening or its first 54 characters exist and are ASCII |
| ToolNames.ShorteningLengthens | src/anthropic/converter.rs:944-966 | a name of 66 bytes becomes one of 75 |
| ToolNames.ConvertTools | src/anthropic/converter.rs:1358-1430 | the loop with its set of seen names offers the specified tools and records every visible one |
| ToolNames.OfferedSpec | src/anthropic/converter.rs:1366-1380 | exactly the first visible tool of each Kiro name, ignoring case, is offered, and no name goes missing |
| ToolNames.NameComesBackIff | src/anthropic/converter.rs:944-1239 | a name the request mentions is restored if and only if it keeps its name |
| ToolNames.OfferedComesBackIff | src/anthropic/converter.rs:1228-1430 | calls of an offered tool reach the client under its own name if and only if it keeps its name among the tools and history calls of the request |
| ToolNames.NamesComeBack | src/anthropic/converter.rs:1228-1430 | unless two long names are shortened alike, every offered tool is restored if and only if no other, renamed name of the request has its Kiro name |
| ToolNames.OwnToolIsLost | src/anthropic/converter.rs:984-1380 | an offered own tool named like a Kiro built-in comes back as the built-in as soon as the request mentions it |
| ToolNames.FsWriteIsLost | src/anthropic/converter.rs:984-1380 | of `fs_write` and `Write` only `fs_write` is offered, and its calls come back as `Write` |
| ToolNames.WriteFirstComesBack | src/anthropic/converter.rs:984-1380 | of `Write` and `fs_write` only `Write` is offered, and its calls come back as `Write` |
| ToolNames.ToolUseComesBack | src/anthropic/converter.rs:1228-1239 | name and arguments of a tool call come back if and only if the tool keeps its name and the arguments are canonical |
| History.ProcessMessageContent | src/anthropic/converter.rs:668-730 | the loop over blocks collects texts, images and results as specified, stopping at the first error |
| History.RecordCalls | src/anthropic/converter.rs:1627-1680 | converting a message records the names of its calls in order |
| History.BuildHistory | src/anthropic/converter.rs:1480-1585 | the loop with two pending runs computes the specified grouping or its first error, and records the names of all calls in order |
| History.PrologueShape | src/anthropic/converter.rs:1495-1532 | the system prologue is nothing or a user and an assistant message |
| History.HistoryShape | src/anthropic/converter.rs:1480-1585 | the history ends in an assistant, has no two adjacent user messages, and alternates strictly under an exact condition |
| History.HistoryIsComplete | src/anthropic/converter.rs:1480-1731 | flattened, it holds the client's tool calls and tool-result ids in order, none lost, none duplicated |
| History.PrologueHasNoTools | src/anthropic/converter.rs:1495-1532 | the prologue brings no tool calls or results of its own |
| SystemPrologue.PrologueSays | src/anthropic/converter.rs:1495-1532 | all system texts, then the policy, and before them the thinking tags unless the texts bring some |
| SystemPrologue.ThinkingIsAnnouncedIff | src/anthropic/converter.rs:1489-1532 | thinking tags reach the upstream if and only if there is no system or its texts are not all empty |
| SystemPrologue.EmptySystemHidesThinking | src/anthropic/converter.rs:1496-1532 | a system of one empty text takes the thinking tags away |
| Pairing.ValidateToolPairing | src/anthropic/converter.rs:831-902 | the loop computes the kept results and the orphaned calls |
| Pairing.FilterSpec | src/anthropic/converter.rs:864-891 | kept results have distinct ids and answer exactly the open calls that are answered at all |
| Pairing.FilterKeepsFirst | src/anthropic/converter.rs:864-891 | of several results for an open call exactly the first is kept |
| Pairing.RemoveOrphanedToolUses | src/anthropic/converter.rs:912-938 | in place, every message loses exactly its orphaned calls |
| Pairing.RemovedSpec | src/anthropic/converter.rs:912-938 | the other calls keep their order, results, roles and texts stay |
| Pairing.RepairedIsPaired | src/anthropic/converter.rs:831-938 | every call left is answered in history or by a kept result, and each kept result answers an open call |
| Pairing.RepairIsIdempotent | src/anthropic/converter.rs:831-938 | running both steps again changes nothing |
| Pairing.UsedNamesSpec | src/anthropic/converter.rs:469-486 | the names used in history, each once |
| Pairing.AddPlaceholders | src/anthropic/converter.rs:569-591 | the loop adds a placeholder for each name the request's tools lack |
| Pairing.PlaceholdersDeclareAll | src/anthropic/converter.rs:569-591 | afterwards every name in history is declared, ignoring case, and the given tools stay in front |
| Placeholders.PlaceholdersDistinctIff | src/anthropic/converter.rs:581-591 | the given tools stay in front, and the placeholders are distinct ignoring case if and only if no two undeclared names agree ignoring case |
| Placeholders.ConvertedPlaceholdersDistinctIff | src/anthropic/converter.rs:512-650 | the same for every converted request, in terms of the client's answered calls |
| Placeholders.PlaceholdersMayRepeat | src/anthropic/converter.rs:512-650 | a request that calls two undeclared names differing in case only gets both as placeholders |
| Pairing.UpToLastUser | src/anthropic/converter.rs:525-537 | the longest beginning of the list that ends in a user message, or nothing |
| Pairing.ConvertRequest | src/anthropic/converter.rs:512-650 | the steps in order compute the specified conversion or its first error, and the map that leads from Kiro names back to the client's |
| DeclaredTools.CallsNamedAfter | src/anthropic/converter.rs:1627-1680 | the calls of the history have the Kiro names of the names recorded |
| DeclaredTools.DeclaredNamesComeBack | src/anthropic/converter.rs:512-1239 | for every converted request, whatever declared tool the upstream calls, the client gets a name of its own request that has the Kiro name called |
| Pairing.ConversionIsSound | src/anthropic/converter.rs:512-650 | every converted request: shape of history, every call answered, results distinct and answering, every tool declared |
| Pairing.ConversionKeepsAnsweredCalls | src/anthropic/converter.rs:512-650 | end to end, the history's calls are the client's calls in order without those that no message answers |
| ClientContent.ContentIsRead | src/anthropic/converter.rs:668-830 | texts, images, placeholders and tool results of a user message are those its JSON says, in order, with a placeholder exactly where an image is met again |
| ConvertedContent.RunsSpec | src/anthropic/converter.rs:1545-1585 | the runs the history is built of are the messages in order, each run of one role and not empty, neighbours of different roles |
| ConvertedContent.HistoryReads | src/anthropic/converter.rs:1480-1585 | one entry for each run, with the texts, images, results and calls its JSON says, and the automatic answer after a trailing user run |
| ConvertedContent.ConversionReads | src/anthropic/converter.rs:512-650 | the upstream gets text, images and results of the current message and all that was said before it; only calls nobody answers and results that answer no open call are missing |
| ConvertedTools.ToolsArrive | src/anthropic/converter.rs:512-938 | flattened, the history has all earlier tool results with content and flag, and all answered calls; the current results are the first for each open call |
| ConversionSuccess.ConvertsIff | src/anthropic/converter.rs:512-1740 | a request is converted if and only if it has a user message, the images are accepted where they are met first, and the arguments of all calls before the last user message can be mapped |
| PlainChat.PlainImageIsRead | src/anthropic/converter.rs:690-705 | an image block as clients write it is an image of that type and data |
| PlainChat.PlainResultIsRead | src/anthropic/converter.rs:706-722 | a tool result as clients write it has its id, its content and its flag |
| PlainChat.PlainCallIsRead | src/anthropic/converter.rs:1627-1680 | a tool call as clients write it is a call with its id, name and input |
| PlainChat.ChatArrives | src/anthropic/converter.rs:512-1740 | any number of questions and answers in plain text blocks are converted, and arrive in order and in full |
| WebSearch.LastRoundStops | src/anthropic/websearch_loop.rs:190-193 | the last round never searches |
| WebSearch.RunRound | src/anthropic/websearch_loop.rs:306-429 | a failed round books one error and one conclusion, a good one nothing |
| WebSearch.SearchAll | src/anthropic/websearch_loop.rs:571-597 | the searches run in order and stop at the first failure |
| WebSearch.RunPass | src/anthropic/websearch_loop.rs:549-672 | a pass that stops does its bookkeeping, one that goes on does none |
| WebSearch.RunWebSearchLoop | src/anthropic/websearch_loop.rs:528-698 | on every exit one usage record and one conclusion, a commit on success only, at most 6 calls and 5 search rounds, the code after the loop not reached |
| WebSearch.LoopIsBounded | src/anthropic/websearch_loop.rs:528-698 | from any round on: bounds on calls and searches; reply, status and record go together |
| WebSearch.LoopExtends | src/anthropic/websearch_loop.rs:528-698 | the list only grows at its end, by two messages per search round, and then ends in a user turn |
| WebSearch.SearchRoundIsPaired | src/anthropic/websearch_loop.rs:432-492 | the list ends in the round's calls and a user turn whose results answer them one to one, in order |
| WebSearch.SearchRoundBalances | src/anthropic/websearch_loop.rs:432-492 | a search round adds the same ids to calls and results |
| WebSearch.LoopBalances | src/anthropic/websearch_loop.rs:528-698 | over the whole loop, what the list gains in calls it gains in results |
| WebSearch.SearchRoundSurvivesConversion | src/anthropic/websearch_loop.rs:432-492 | with fresh ids the converter keeps every result of the round and orphans none of its calls |
| WebSearch.LoopSurvivesConversion | src/anthropic/websearch_loop.rs:528-698 | after the whole loop the converter keeps every call the loop gained, in order at the end, each one answered |
| SearchContent.EveryRoundIsSeen | src/anthropic/websearch_loop.rs:432-492 | after any number of search rounds the converted request has every round's results, each with id and summary, in order, those of the last round as the current ones if their ids are fresh, and every round's calls with names and inputs |
| SearchContent.LoopIsRounds | src/anthropic/websearch_loop.rs:528-698 | the loop is its search rounds, each with the replies of its own searches; the reply shows all of them before the last answer, and the books sum the credits of all |
| SearchContent.LoopIsSeen | src/anthropic/websearch_loop.rs:528-698 | both together for every loop that searched |
| SearchContent.QueriesAndResultsAreShown | src/anthropic/websearch_loop.rs:475-487 | the blocks shown for a round carry each call's query and after it the results found for it |
| SearchContent.AnswerIsShown | src/anthropic/websearch_loop.rs:443-458 | the blocks of an answer carry its thinking if that is on, and its text |
| SearchContent.AnswerCallsAreShown | src/anthropic/websearch_loop.rs:459-464 | the last blocks of an answer are its calls in order, each with id, name and input |
| Sse.BuildSseEvents | src/anthropic/websearch_loop.rs:860-1032 | the loop renders the specified events |
| Sse.RenderBlock | src/anthropic/websearch_loop.rs:894-1012 | start, deltas and stop of one block, nothing for an unknown type |
| Sse.BlockReceived | src/anthropic/websearch_loop.rs:894-1012 | a strict client that receives one rendered block ends with that block |
| Sse.BodyReceived | src/anthropic/websearch_loop.rs:860-1032 | known blocks all arrive at indices 0 to n-1; from an unknown one on, the client ends short |
| Sse.ReplayRestoresContent | src/anthropic/websearch_loop.rs:860-1032 | replay rebuilds content, stop reason and usage if and only if every block is streamable |
| Sse.AssistantBlocksStreamable | src/anthropic/websearch_loop.rs:620-642 | the blocks of a round's answer are streamable |
| Sse.PresentationStreamable | src/anthropic/websearch_loop.rs:467-487 | the blocks shown for searches are streamable |
| Sse.LoopReplyIsStreamable | src/anthropic/websearch_loop.rs:528-698 | whatever the loop replies is streamable |
| Sse.LoopReplyReplays | src/anthropic/websearch_loop.rs:528-1032 | the loop's reply, streamed and replayed, is the loop's reply |
| Startup.StreamFirstByteMarker.constructor | src/anthropic/websearch_loop.rs:56-62 | a marker that has sent nothing |
| Startup.StreamFirstByteMarker.MarkFirstUpstreamChunk | src/anthropic/websearch_loop.rs:64-73 | a ping and the verdict the first time, nothing after |
| Startup.StreamFirstByteMarker.MarkStartedBeforeFinalFlush | src/anthropic/websearch_loop.rs:75-83 | the verdict if there was none, no ping |
| Startup.StreamFirstByteMarker.FailBeforeStart | src/anthropic/websearch_loop.rs:85-94 | refuses if and only if nothing has started |
| Startup.RunTask | src/anthropic/websearch_loop.rs:759-802 | the loop task alone: one verdict, and the log of ping, events or error event |
| Startup.StepKeeps | src/anthropic/websearch_loop.rs:748-829 | every step of task, handler and client keeps the invariant |
| Startup.EveryRunIsSafe | src/anthropic/websearch_loop.rs:748-829 | every interleaving: at most one verdict, at most one item in the channel before it, no 502, the client has a beginning of the log |
| Startup.SomeStepIsEnabled | src/anthropic/websearch_loop.rs:748-829 | no deadlock on the bounded channel |
| Startup.EveryRunEnds | src/anthropic/websearch_loop.rs:748-829 | every interleaving ends within a bound, with the one verdict, and a client that stays has been refused or has the whole log |
| Streams.LiveStream.Step | src/anthropic/handlers.rs:936-1059 | one wake-up of the live machine does what the step function says |
| Streams.LiveStream.TakeChunk | src/anthropic/handlers.rs:973-1005 | pending events first, then the events of the chunk, in order |
| Streams.BufferedStream.Step | src/anthropic/handlers.rs:1834-1954 | one wake-up of the buffered machine does what the step function says |
| Streams.BufferedStream.TakeChunk | src/anthropic/stream.rs:1750-1764 | the initial operation once before the first event, everything buffered in order |
| Streams.BufferedStream.Finish | src/anthropic/stream.rs:1772-1801 | all events at once with the final usage in the start message, the buffer emptied |
| Streams.StartTellsFinalUsage | src/anthropic/stream.rs:1772-1801 | the start message tells the final figures, each under its name, and all else as before |
| StreamRuns.LiveStateIs | src/anthropic/handlers.rs:936-1059 | the live state is a function of the chunks and the ending: ticks do not matter |
| StreamRuns.LiveOutputIs | src/anthropic/handlers.rs:936-1059 | nothing before the first chunk or ending, initial events first and once, all events of the context in order |
| StreamRuns.BufferedStateIs | src/anthropic/handlers.rs:1834-1954 | the buffered state is a function of the chunks and the ending |
| StreamRuns.BufferedOutputIs | src/anthropic/handlers.rs:1834-1954 | only pings before the end, none before the first chunk, then all events once |
| StreamRuns.ConcludedOnce | src/anthropic/handlers.rs:1007-1046 | one record with the final usage and one conclusion per finished run; both a success, with a commit, exactly on a clean end without malformed tool arguments; an interruption concluded with the bytes sent |
| StreamRuns.NothingAfterwards | src/anthropic/handlers.rs:962-966 | after the ending nothing changes and nothing is sent |
| StreamRuns.MachinesAgree | src/anthropic/handlers.rs:1834-1954 | on the same chunks and ending both machines book the same, and the buffered events are the live ones with usage corrected |
| HttpAccumulator.HttpRequestAccumulator.Feed | tools/mitm_http_proxy.py:95-132 | a feed drains the buffer as specified, or is found to loop forever |
| HttpAccumulator.HttpRequestAccumulator.TakeFirst | tools/mitm_http_proxy.py:98-132 | record and rest of the first complete request, if there is one |
| HttpAccumulator.HttpRequestAccumulator.ReadHeaders | tools/mitm_http_proxy.py:106-110 | stripped keys and values, the last of several lines for a key |
| HttpAccumulator.StuckIff | tools/mitm_http_proxy.py:97-122 | an iteration gets nowhere exactly when the request ends at zero or before the buffer begins |
| HttpAccumulator.DrainEndsIff | tools/mitm_http_proxy.py:97-122 | a feed ends if and only if no request met ends at zero or before the buffer begins |
| HttpAccumulator.DrainEnds | tools/mitm_http_proxy.py:97-122 | with no negative content length every feed ends |
| HttpAccumulator.SplitsIff | tools/mitm_http_proxy.py:95-132 | feeding twice is feeding at once, for all later data, if and only if no request met ends below zero |
| HttpAccumulator.ChunkingDoesNotMatter | tools/mitm_http_proxy.py:95-132 | any chunking of such bytes leaves the same buffer and log |
| HttpAccumulator.PrintedFirst | tools/mitm_http_proxy.py:98-132 | a printed request is taken off the buffer whole, whatever follows |
| HttpAccumulator.PrintedRequestsComeBack | tools/mitm_http_proxy.py:95-132 | printed requests, chunked in any way, are logged one by one and nothing stays |
| HttpAccumulator.FeedsShowNoSecrets | tools/mitm_http_proxy.py:79-132 | over every run of feeds of any bytes, no record logged shows a secret header's value |
| HttpAccumulator.OnlySecretsChange | tools/mitm_http_proxy.py:79-132 | of printed requests fed in any chunks, every header is logged, all but the two secret ones as sent |
| HttpAccumulator.NegativeLengthExample | tools/mitm_http_proxy.py:112-122 | a header for which chunking does matter |
| RateLimiter.Limiter.RateLimited | src/admin/middleware.rs:137-151 | counts the call in its window, saturating, and tells whether the count is over the limit |
| RateLimiter.Limiter.IsExceeded | src/admin/middleware.rs:153-166 | reopens an expired window, never counts, leaves an unknown key alone |
| RateLimiter.WindowBoundIff | src/admin/middleware.rs:137-151 | for every list of calls at most `limit` per window, if and only if the limit is below saturation |
| RateLimiter.AtMostTwiceTheLimit | src/admin/middleware.rs:137-166 | at most twice the limit in any half-open sixty seconds, checks and other limits interleaved |
| RateLimiter.TwiceTheLimitIsReached | src/admin/middleware.rs:137-166 | that bound is attained for every positive limit, by calls in clock order |
| RateLimiter.AdminAuth | src/admin/middleware.rs:76-112 | a right key is admitted and a wrong one refused exactly while the gates are open; the failures of a key rise by one exactly when it is refused |
| RateLimiter.AttemptIsCalls | src/admin/middleware.rs:92-112 | an attempt is a check and, if its key was wrong, a call that the limiter lets through |
| RateLimiter.SequentialFailuresAreBounded | src/admin/middleware.rs:92-112 | one request at a time: at most 20 failed comparisons since the current window began and 40 in any sixty seconds |
| RateLimiter.FailuresInFlight | src/admin/middleware.rs:92-112 | with at most `k` requests in flight, in every interleaving, at most `limit + k - 1` comparisons fail per window |
| RateLimiter.FailuresInFlightIsTight | src/admin/middleware.rs:92-112 | that bound is attained for every limit and every `k` |
| AdminAccess.ExactlyTheFirstPass | src/admin/middleware.rs:137-151 | of the calls in one window exactly the first ones pass, as many as the limit leaves |
| AdminAccess.FirstTwentyWrongKeys | src/admin/middleware.rs:76-112 | in one window, as long as fewer than twenty wrong keys came before, exactly the right keys are admitted and the wrong ones refused; afterwards everyone has to wait |
| AdminAccess.ExactlyTwentyRefused | src/admin/middleware.rs:76-112 | of the wrong keys in a new window exactly the first twenty are refused as such |
| Base64.DecodesIff | src/image_resize.rs:393-395 | the strict decoder accepts exactly what the encoder writes, and gives back what was encoded |
| Base64.TestVectors | src/image_resize.rs:393-395 | test vectors of section 10 of RFC 4648 |
| Base64.EstimateIsExact | src/image_resize.rs:507-510 | on everything the decoder accepts, the estimated length is exact |
| ImageShrink.LowerQuality | src/image_resize.rs:447-458 | the inner loop searches the qualities of one long side, and ends |
| ImageShrink.SearchSizes | src/image_resize.rs:435-464 | the nested loops search the candidates in order, and end |
| ImageShrink.SearchFindsFirst | src/image_resize.rs:435-464 | the first candidate that fits, else the last; failure exactly when encoding fails on the way |
| ImageShrink.CandidatesShape | src/image_resize.rs:424-464 | candidates descend strictly by long side and quality and end at 256 and 35 |
| ImageShrink.CandidateSteps | src/image_resize.rs:435-464 | every step is ten points of quality down, or at the lowest quality four fifths of the long side, neither below its floor |
| ImageShrink.StartsAtItsOwnSize | src/image_resize.rs:422-425 | the search starts at the picture's own long side, or at the limit if a side exceeds it |
| ImageShrink.FitsWithinThree | src/image_resize.rs:453-460 | the padded length of a picture taken to fit exceeds the budget by three at most |
| ImageShrink.FitsIsExactIff | src/image_resize.rs:453-460 | all pictures taken to fit are within the budget if and only if it is a multiple of four |
| ImageShrink.DecodedCheckIsRedundant | src/image_resize.rs:396-402 | after the limit check the second check of the decoded size never fires |
| ImageShrink.ShrinkStaticImage | src/image_resize.rs:385-487 | gates, search and encoding in order |
| ImageShrink.MaybeShrinkImage | src/image_resize.rs:167-232 | accepted images obey the hard limits; passed-through ones are small, large ones shrunk, GIFs of any size never |
| ImageShrink.ShrunkFitsOrIsAtFloor | src/image_resize.rs:385-487 | a shrunk image is within the budget up to padding, or the smallest candidate at the floor; it is smaller than the first candidate only if that one was too large |

## Left out

- CacheSplit.SplitNearShare: rounding of 64-bit floats is not modelled; ratios are exact rationals.
- CacheIsolation.SessionsShareIff: needs an estimator that charges for a short text.
- CacheIsolation.KeysShareIff: needs an estimator that charges for a short text.
- CacheContent.BlocksDecideKeys: compares blocks whose types and media types contain no bar, which the hash input uses
  as a separator.
- CacheContent.ToolsDecideKeys: compares tools whose names contain no bar; descriptions and schemas are free.
- CachePlan.TurnReadsLastCommit: digests are the hashed text itself, so hash collisions are not modelled.
- CacheCosts.PromptIsSum: the estimators of texts and images are arbitrary functions.
- CacheTable.CacheMeter.FlushToDisk: a meter without a path, a failed write or an unreadable file is not modelled.
- UsageReports.UsageAggregator.Ingest: counters are unbounded and credits exact; time stamps of buckets are inputs.
- UsageReports.UsageAggregator.RebuildFromLogs: unreadable files and lines are not modelled.
- UsageReports.UsageAggregator.QueryByModel: `query_timeseries` and `overview` are left out; they only present the
  same buckets.
- Schema.NormalisationWeakens: keywords other than numeric bounds, `properties` and `items` are one arbitrary
  predicate on the rest of the schema.
- ToolMap.CanonicalComesBack: does not claim more of line ranges than two's-complement arithmetic gives.
- ToolNames.NamesComeBack: the digest of long names is an arbitrary function.
- History.ProcessMessageContent: image shrinking is an arbitrary function that may fail; a digest of an image is
  the image; blocks in the array form of the serialisation library are not modelled.
- History.BuildHistory: the thinking prefix and the chunking policy are texts given from outside.
- CacheTraffic.EachReadsItsOwn: conversations of one client key without a session, which do share prefixes, are not
  covered.
- Pairing.ConvertRequest: the mapping of models, conversation ids and the request envelope (`map_model`,
  `build_additional_model_request_fields`) are left out; of tool definitions only the names are modelled here, their
  schemas in `Schema`.
- WebSearch.RunRound: the fallback token figure of its records is left out.
- WebSearch.RunWebSearchLoop: decoding of the upstream's stream (`decode_round`) is a given outcome per round;
  token figures of the records other than credits are left out.
- Sse.BuildSseEvents: message ids are left out; of the usage only the figures a client sees are kept.
- Startup.EveryRunEnds: a panic of the loop task is not modelled; the loop's result is given.
- Streams.LiveStream.Step: `StreamContext`, `EventStreamDecoder` and `ToolJsonAccumulator` are arbitrary functions
  of what was done to them before; a failing first call to the upstream is left out.
- Streams.BufferedStream.Finish: a start message whose usage is neither an object nor null, at which the
  program would panic, is left as it is.
- HttpAccumulator.HttpRequestAccumulator.Feed: the log keeps the bytes of a body instead of their lossy UTF-8
  text, and headers without their order; Python's limit on the digits of an integer is not modelled.
- RateLimiter.AtMostTwiceTheLimit: assumes that the calls on a key see a clock that does not go back;
  `RateLimiter.WindowBoundIff` and `RateLimiter.FailuresInFlight` do not.
- RateLimiter.AdminAuth: comparison in constant time and extraction of keys from headers are left out.
- ImageShrink.SearchSizes: the factor 0.8 is exact, not a 32-bit float; image codecs are arbitrary functions.
- ImageShrink.MaybeShrinkImage: error texts, sizes for logs, and the token estimate of an image are left out.
- Servers, TLS, the CONNECT tunnel, persistence formats, the trace database, the token manager, client keys and
  the admin service: I/O or single-step rules without a property that spans operations.
