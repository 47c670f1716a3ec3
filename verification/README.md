# redis_exporter: key metrics, key groups and INFO, verified

redis_exporter connects to a Redis server, runs commands and turns the replies
into Prometheus samples.  This project models the parts of it that are state
machines rather than plumbing, and proves what they promise:

* **Key metrics** (`exporter/keys.go`): `db=key` arguments, the SCAN loop, the
  one-command-at-a-time path, and the pipelined path over a connection with an
  output buffer and a queue of unread replies.
* **Streams, key counts and the slow log**, which share that connection, and the
  whole sequence of key collectors in a scrape.
* **Key groups** (`exporter/key_groups.go`): the Lua script that groups a SCAN
  batch, the merge across batches, the sort, the cut and the overflow group.
* **INFO** (`exporter/info.go`): the line-driven pass with its sections, master
  labels, database table and per-command maps.
* **The description table** (`exporter/metrics.go`), which lives as long as the
  exporter, and its most irregular user, CLIENT LIST (`exporter/clients.go`).
* **Command latency totals** (`exporter/latency.go`).

`dafny verify dfyconfig.toml` checks everything.

## How the model is built

Code that updates things step by step is a method over a class: `Redis.Conn`
(selected database, buffered commands, unread replies), `Metrics.Channel` (the log
of samples), `Registry.Exporter` (descriptions and samples sent) and `Info.Pass`
(the maps of one pass over INFO).  Every such method equates the new state with a
function of the old one.  Those functions describe any run, also one that has gone
wrong; the theorems about them are lemmas in modules of their own
(`PipelineProofs`, `GroupProofs`, `InfoProofs`, `ClientProofs`).  `GroupSamples`,
`KeyDelivery` and `InfoDelivery` carry them on to the samples sent, and `Isolation`
shows when databases do not leak into each other.  The modules whose names end in
`Texts` or `Replies` say the same in the words of Redis and of the user: given this
argument, this line or these replies, exactly these keys, samples and labels.  They
spell out every command, field, metric and label where the specification leaves these
to functions of its own.

A server is three fixed functions: what SELECT answers for a database, what SLOWLOG
answers, and what any other command answers in a database.  `Conn.Receive` requires
an unread reply, so that a verified caller never waits for a reply that nobody owes.
Map iteration picks elements arbitrarily; results that depend on it take the order as
a parameter and hold for all orders.

| file | contents |
|---|---|
| `Wrappers`, `GoInts`, `GoStrings` | options, int64 wrap-around, the parts of Go's `strings` and `strconv` used |
| `KeyArgs`, `ArgTexts` | `parseKeyArg`, its grammar and its printer, and what every way of writing a piece means |
| `Redis`, `Metrics` | connection and sample log |
| `KeyMetrics` | what is exported about one key, and the one-at-a-time path |
| `PipelinedKeys`, `PipelineProofs`, `PipelineFailures` | the pipelined path, when and why it agrees, and what happens otherwise |
| `Cursors`, `Scanning`, `Collectors`, `Streams`, `SlowLog` | loops over cursors, SCAN, key and count collectors, streams, the slow log |
| `KeyReplies`, `StreamReplies` | which reply becomes which sample |
| `Scrape` | these and the key groups in a row |
| `Isolation`, `KeyDelivery` | when a sample depends on its own database only, and that it arrives |
| `GroupTotals`, `Ranking`, `GroupScript`, `KeyGroups`, `GroupProofs`, `GroupSamples`, `GroupReplies` | key groups |
| `Registry`, `Clients`, `ClientProofs`, `ClientTexts` | descriptions and clients |
| `InfoFields`, `Info`, `InfoProofs`, `InfoDelivery`, `InfoTexts`, `ReplicationTexts`, `Latency` | INFO |
| `KnownFailures`, `KeyFailures` | with `PipelineFailures`: inputs for the failures named below |

## Where the code does not keep what it seems to promise

The code was followed in every case.

* The comment at `exporter/keys.go:112-115` asks for both paths to stay equivalent.
  They emit the same samples and leave the connection in sync exactly when every
  SELECT works and every TYPE is answered by a string (`PipelineProofs.PathsAgree`).
  Otherwise replies are taken for those of other keys
  (`PipelineFailures.TypeErrorMisreportsSize`) and of other databases: after a failed
  SELECT the memory of a key in the database selected before goes out under the next
  database and one of its keys (`PipelineFailures.SampleFromAnotherDatabase`), or that
  database is silent (`PipelineFailures.SelectErrorSilencesNextGroup`).  The samples can
  still happen to agree (`PipelineFailures.UncleanRunsCanAgree`) as well as not
  (`PipelineFailures.UncleanRunsCanDisagree`).
* An error reply left unread by the pipelined path is reported by the next `Do`, whose
  own reply is lost (`Redis.StaleErrorWins`).  In a scrape that costs one count, one
  stream, the expansion of the stream patterns, or the length of the slow log, whichever
  comes first, and nothing after it (`Scrape.ScrapeKeys`): the SLOWLOG queries at
  `exporter/exporter.go:877` drain the connection before the key groups.  Through this
  error a sample can depend on another database than its own
  (`KeyFailures.StaleErrorCrossesDatabases`), and in no other way once the keys are
  checked (`Isolation.LaterSamplesAgree`).
* The Lua script does not reset `usage` (`exporter/key_groups.go:176-179`): a key
  whose MEMORY USAGE is no number is booked with its predecessor's memory
  (`GroupProofs.DatabaseConservesExactly`, `KnownFailures.ExpiredKeyIsOverbooked`).
* A class that is itself called `overflow` collides with the overflow series exactly
  if the classes do not fit and fewer than limit of them come before it
  (`GroupProofs.ExportIsBounded`, `KnownFailures.OverflowLabelCollides`).
* A Latencystats piece with an empty name, such as `=1`, panics on the slice at
  `exporter/info.go:60` (`InfoProofs.CrashingLines`, `KnownFailures.EmptyPercentileCrashes`).
* The patterns at `exporter/info.go:24-29` are not anchored at their end, so a field
  such as `slave_repl_offset_old` asks for a description nobody made and panics
  (`InfoProofs.InfoPanicsExactly`, `KnownFailures.InexactFieldPanics`).
* The loop over an XINFO STREAM reply takes values for names as well.  A reply whose
  last value is the text `first-entry` or `last-entry` is followed by nothing, and the
  index at `exporter/streams.go:78` panics; a list of odd length is rejected before that
  (`Streams.PanicsExactly`, `KeyFailures.MarkerValuePanics`).
* The count and sum of a command come from its last Commandstats line even if that
  line does not parse, and lines that do not parse share maps with the command they
  name, or with the empty name (`InfoProofs.SummariesAreTheJoin`,
  `KnownFailures.BrokenLineErasesStats`).
* `extractTotalUsecForCommand` compares names by prefix: `get` also collects the
  time of `getex` (`Latency.TotalIsOwnExactly`, `KnownFailures.GetIncludesGetex`).
* The first client ever listed fixes the labels of `connected_client_info`.  Later
  clients with another number of labels are dropped, and a client with `resp` but
  no `user` can be exported under the label `user` (`ClientProofs.MislabelledExactly`,
  `KnownFailures.VersionIsSentAsUser`).

## Model

| member | source | states |
|---|---|---|
| KeyArgs.ParseKeyArg | exporter/keys.go:440-481 | the loop returns the parse of the argument, partial list beside an error included |
| KeyArgs.UnescapeEscape | exporter/keys_test.go:29 | percent-encoding with plus for space (section 2.1 of RFC 3986) is undone for every byte string |
| KeyArgs.ParseComposes | exporter/keys.go:440-481 | for all a and b, `a,b` gives a's pairs then b's; if a fails, a's failing result, partial list included |
| KeyArgs.ParsedPairsAreValid | exporter/keys.go:466-478 | every pair ever returned has a non-empty key and a database that parses to a non-negative int |
| KeyArgs.PrintedPairParses | exporter/keys.go:446-478 | one printed piece `db<n>=<escaped key>` is read back as the pair it was printed from |
| KeyArgs.RoundTrip | exporter/keys.go:440-481 | parsing the printed form of any list of valid pairs returns the list, in order, without error |
| KeyArgs.NumberedRoundTrip | exporter/keys_test.go:29 | the same for any list of (database number, non-empty key) printed as the tests do |
| KeyArgs.ParseableListsAreTheValidOnes | exporter/keys.go:440-481 | a list is the successful result of some argument if and only if all its pairs are valid |
| ArgTexts.MixedRoundTrip | exporter/keys.go:449-478 | any list of pieces written as a bare key, as `db3=key` or as `3=key`, with or without blanks around either side, is read as those keys in order, a bare one as a key of database 0 |
| ArgTexts.BareKey | exporter/keys.go:453-455 | a key alone is one of database 0, for every non-empty byte string |
| ArgTexts.NoDatabase | exporter/keys.go:468-471 | a piece with nothing but blanks before its `=` is skipped |
| ArgTexts.NoKey | exporter/keys.go:468-471 | so is one with nothing but blanks after it |
| ArgTexts.SecondEquals | exporter/keys.go:459-461 | a second `=` is an error that names the piece |
| ArgTexts.NoIndex | exporter/keys.go:473-476 | a database that is no number, or a negative one, is an error that names it |
| ArgTexts.OpenEscape | exporter/keys.go:462-464 | a `%` without its digits is an error that names the piece |
| GoStrings.TrimBlanks | exporter/keys.go:455-458 | blanks on both sides of a text are taken off, and nothing else |
| GoStrings.ParseIntItoa | exporter/keys.go:473 | a printed non-negative int64 parses back to itself |
| GoStrings.ParseIntSigned | exporter/clients.go:82-101 | a signed number parses to itself, one beyond int64 to the nearest int64 beside the error |
| GoStrings.ItoaInjective | exporter/info.go:164 | different database indexes have different names |
| Redis.Conn.Send | exporter/keys.go:150-170 | a command joins the buffer and nothing else changes |
| Redis.Conn.Flush | exporter/keys.go:173-177 | the buffered commands are answered in order, SELECT taking effect in between, and their replies queue behind the unread ones |
| Redis.Conn.Receive | exporter/keys.go:179-197 | takes the oldest unread reply; requires that there is one |
| Redis.Conn.Do | exporter/redis.go:142-150 | a round trip ships what is buffered, drains all outstanding replies and reports the first error among them, else its own reply; on any connection |
| Redis.Conn.Drain | exporter/redis.go:142-150 | takes all unread replies and reports the first error, else the last one |
| Redis.StaleErrorWins | exporter/redis.go:142-150 | a round trip fails if and only if a stale error is unread or its own reply is one; otherwise stale replies are harmless |
| Redis.RepliesWithoutSelect | exporter/keys.go:160-177 | a batch without SELECT is answered in one database, command by command |
| Redis.CursorRoundTrip | exporter/keys.go:503 | a cursor that fits an int survives its decimal form |
| Redis.Conversions | exporter/keys.go:180-203 | a number may come as such or in decimal, text as simple or bulk string, and nothing else converts |
| KeyMetrics.EmitValue | exporter/keys.go:74-83 | the value of a string: a number, a label, or nothing |
| KeyMetrics.GetStringInfo | exporter/keys.go:20-38 | GET, PFCOUNT, STRLEN in that order; HyperLogLogs have a size and no value |
| KeyMetrics.GetKeyInfo | exporter/keys.go:40-84 | adds exactly the size and value samples specified for the key and its type |
| KeyMetrics.GatherKey | exporter/keys.go:357-370 | adds exactly what is specified for one key, TYPE and MEMORY USAGE failures included |
| KeyMetrics.ExtractNotPipelined | exporter/keys.go:351-372 | adds the specification of all keys, every one of them labelled db0 |
| PipelinedKeys.GroupByDb | exporter/keys.go:135-145 | the map holds exactly the databases of the list, each with the order-preserving subsequence of its keys |
| PipelinedKeys.SendTypes | exporter/keys.go:160-171 | buffers TYPE and MEMORY USAGE for every key in order |
| PipelinedKeys.ReceiveTypes | exporter/keys.go:189-208 | on any queue of replies: the types read, the memory samples emitted, the replies left |
| PipelinedKeys.SendSize | exporter/keys.go:219-281 | the commands a type calls for: three for a string, one for a container, none otherwise |
| PipelinedKeys.SendSizes | exporter/keys.go:218-281 | the commands of all keys in order |
| PipelinedKeys.ReceiveSize | exporter/keys.go:289-347 | takes exactly as many replies as the sending switch sent commands, and emits what they say |
| PipelinedKeys.ReceiveSizes | exporter/keys.go:289-348 | the same for all keys, on any queue of replies that is long enough |
| PipelinedKeys.GetKeyInfoPipelined | exporter/keys.go:218-349 | never waits in vain; the queue and the samples afterwards, whatever was unread before |
| PipelinedKeys.ExtractGroup | exporter/keys.go:147-215 | the state after one database, whatever was unread before, including the early exit when SELECT is no string |
| PipelinedKeys.ExtractPipelined | exporter/keys.go:124-216 | visits every database of the list once, in some order, and leaves the state that order determines |
| PipelinedKeys.RunGroupsAppend | exporter/keys.go:147-215 | visiting one more database last continues the run of the others |
| PipelineProofs.AlignedAtKey | exporter/keys.go:190-208 | when the receive loop reaches key i, the unread replies are exactly those owed to keys i onward, in order, if and only if no TYPE before i failed; otherwise there are too many |
| PipelineProofs.ReadTypesQueue | exporter/keys.go:190-208 | the receive loop follows the queue of the alignment theorem on any replies |
| PipelineProofs.TypesAligned | exporter/keys.go:189-208 | from any key onward in alignment: the first loop learns every type, emits every memory sample and leaves the other replies alone |
| PipelineProofs.SizeAligned | exporter/keys.go:219-281 | per key, sending and receiving switch agree on the number of replies, and the samples are those of the one-at-a-time path |
| PipelineProofs.SizesFrom | exporter/keys.go:289-348 | from any key i onward: if the unread replies are those owed to keys i onward, the loop emits the specified samples and leaves nothing of them |
| PipelineProofs.SizesAligned | exporter/keys.go:218-348 | the same for all keys of a group, for any mix of types |
| PipelineProofs.CleanGroup | exporter/keys.go:147-215 | a group started in sync with working SELECT and TYPEs emits its specification and ends in sync in its own database |
| PipelineProofs.UncleanGroup | exporter/keys.go:180-196 | any other group started in sync leaves replies behind |
| PipelineProofs.LeftoversOnlyGrow | exporter/keys.go:147-215 | replies left behind are never caught up with by later groups |
| PipelineProofs.RunInSync | exporter/keys.go:147-215 | a run over all databases ends in sync if and only if every group is clean, and then emits the sum over the groups |
| PipelineProofs.OrderSumIsSpec | exporter/keys.go:131-147 | grouping and any traversal order lose nothing: the groups add up to the specification of the list |
| PipelineProofs.CleanRuns | exporter/keys.go:135-147 | the traversal covers every pair; all groups are clean if and only if every pair is |
| PipelineProofs.PipelineMeetsSpec | exporter/keys.go:112-216 | started in sync, the path ends in sync if and only if every SELECT works and every TYPE is a string, and then emits, for any database order, the union of one per-key specification over all pairs |
| PipelineProofs.PathsAgree | exporter/keys.go:112-121 | for keys of db 0 the pipelined path emits the multiset the one-at-a-time path emits and ends in sync, if and only if every SELECT works and every TYPE is a string |
| KeyReplies.OneCollection | exporter/keys.go:49-84 | a list, set, zset, hash or stream of which LLEN, SCARD, ZCARD, HLEN or XLEN says n: on either path the log gains its memory sample and `key_size` n, and nothing else |
| KeyReplies.OneString | exporter/keys.go:20-84 | a string of which STRLEN says n and GET a text: on either path its memory, `key_size` n, and the text as a number, as a label, or not at all |
| KeyReplies.HyperLogLogSamples | exporter/keys.go:20-38 | a string of which PFCOUNT says n has size n and no value |
| KeyReplies.OtherSamples | exporter/keys.go:46-84 | a key of type none has size 0, one of an unknown type no size |
| KeyReplies.CollectionsAreReported | exporter/keys.go:112-216 | in every clean pipelined run over any list of keys, and in every run one at a time, the members of each listed collection are reported |
| PipelineFailures.TypeErrorMisreportsSize | exporter/keys.go:192-196 | after a failed TYPE the memory of one key is exported as the size of another |
| PipelineFailures.SelectErrorSilencesNextGroup | exporter/keys.go:180-183 | after a failed SELECT the first key of the next database is not reported |
| PipelineFailures.SampleFromAnotherDatabase | exporter/keys.go:180-208 | a failed SELECT for keys k1 and k2, then keys a and b of another database: the memory of k2 in the database selected before is sent under b and its database; if k2 is absent, so is a size 0, and nothing else |
| PipelineFailures.UncleanRunsCanDisagree | exporter/keys.go:192-196 | a failed TYPE makes the paths' samples differ whenever the two misread numbers do |
| PipelineFailures.UncleanRunsCanAgree | exporter/keys.go:192-196 | with one key whose TYPE fails both paths emit nothing, and only the connection shows the difference |
| Cursors.CourseIsUnique | exporter/keys.go:490-506 | a loop that follows cursors until one leads back to 0 or fails has at most one course |
| Cursors.SameEnd | exporter/key_groups.go:204-237 | two servers whose replies send the loop to the same cursors make it end alike, along the same course |
| Scanning.ScanKeys | exporter/keys.go:485-509 | terminates when this scan's cursor chain returns to 0, and returns the pages joined in order, or an error where the code does |
| Scanning.ScanReturnsEveryPage | exporter/keys.go:485-509 | a successful scan returns exactly the items of all pages of the chain, and their total number |
| Scanning.ItemsComplete | exporter/keys.go:500-501 | from any point of the scan: an item is in the result if and only if found before or held by a page still to come |
| KeyReplies.ScanFindsThePages | exporter/keys.go:485-509 | if SCAN answers each cursor with the next one in decimal and a page, the last with 0, the scan ends and finds the pages joined in order |
| KeyReplies.CountIsTheNumberOfItems | exporter/keys.go:374-413 | then `keys_count` is the number of items on all pages, under the database and the pattern |
| KeyReplies.PatternsStandForKeys | exporter/keys.go:415-437 | a key with one of `?*[]^` in it stands for the keys its scan finds, in order, any other key for itself |
| KeyReplies.OddNames | exporter/keys.go:428-433 | a nil among the names counts as the empty one, a number, list or error spoils them all |
| KeyReplies.BrokenPage | exporter/keys.go:494-499 | a reply that is no list of two ends the scan with an error |
| Scanning.ExpandKey | exporter/keys.go:418-433 | a pattern is expanded in its own database, which stays selected; a plain key is kept; only that pattern's scan has to end |
| Scanning.GetKeysFromPatterns | exporter/keys.go:415-437 | the expansion of a list, the early exit at a failing SELECT included; the database selected afterwards is that of the last pattern whose SELECT the server carried out |
| Collectors.ExtractCheckKeyMetrics | exporter/keys.go:86-122 | single keys and expanded patterns go through the path the mode asks for; the pipelined one ends in the state of its run, in sync and with the specified samples if it is clean |
| Collectors.CountOneKey | exporter/keys.go:382-392 | one count, asked in the pair's own database; nothing if a stale error answers its SELECT |
| Collectors.EmitCounts | exporter/keys.go:381-393 | one count per pair; a stale error costs exactly the first |
| Collectors.ExtractCountKeysMetrics | exporter/keys.go:374-394 | the counts of all pairs, or nothing for a malformed argument |
| Streams.ScanStreamGroupConsumers | exporter/streams.go:129-156 | the consumers that decode, in order; an error if they cannot be asked for |
| Streams.ScanStreamGroups | exporter/streams.go:96-127 | the groups that decode with their consumers; a failure of one group's consumers fails all |
| Streams.GetStreamInfo | exporter/streams.go:42-75 | the stream with its first and last entry and its groups, in the selected database, or an error, a list of odd length included, or the panic |
| Streams.FindEntries | exporter/streams.go:54-66 | the entries after the two markers, or the panic when nothing follows one |
| Streams.PanicsExactly | exporter/streams.go:42-94 | a stream makes the exporter panic if and only if its database can be selected and XINFO STREAM answers with a list of even length that decodes and whose last value is the text of a marker |
| StreamReplies.FirstEntryIsFound | exporter/streams.go:54-94 | the id after the last `first-entry` of the reply is the first entry id |
| StreamReplies.LastEntryIsFound | exporter/streams.go:54-94 | the same for `last-entry` |
| StreamReplies.IdNumber | exporter/streams.go:158-172 | an id counts with the number before its dash, a blank one with 0 |
| StreamReplies.StreamsAskedFor | exporter/streams.go:175-193 | single streams come first, and without patterns the other keys follow as they are |
| StreamReplies.StreamSamples | exporter/streams.go:196-217 | the eight samples of a stream, each with the field its name says, before those of its groups |
| StreamReplies.GroupIsFound | exporter/streams.go:96-156 | a group and its consumers as XINFO GROUPS and XINFO CONSUMERS list them |
| StreamReplies.GroupIsReported | exporter/streams.go:219-223 | the five samples of a group, then those of its consumers if wanted, then the other groups |
| StreamReplies.ConsumerIsReported | exporter/streams.go:224-228 | for every consumer what it has pending and its idle time in seconds |
| Streams.ExtractStream | exporter/streams.go:196-230 | one stream's samples, asked in the database of its label, or the panic |
| Streams.AllStreams | exporter/streams.go:175-193 | single streams first, then the expanded patterns |
| Streams.EmitStreams | exporter/streams.go:196-230 | all streams in order up to the first that panics; a stale error costs exactly the first stream |
| Streams.ExtractStreamMetrics | exporter/streams.go:174-231 | the samples of the whole collector from any connection without half-sent commands |
| Scrape.CollectKeys | exporter/exporter.go:865-871 | checks, counts and streams in a row, in every case: the samples, whether a reply panics, and whether a stale error is left for the slow log |
| SlowLog.ExtractSlowLog | exporter/slowlog.go:8-32 | the length and the last entry, zeros without one, or the panic when a number in it is none; a stale error costs exactly the length, and the connection is in sync afterwards |
| SlowLog.EntryIsReported | exporter/slowlog.go:9-31 | of an entry the first number is sent as id and the third, in microseconds, as seconds |
| SlowLog.EmptyLogIsReported | exporter/slowlog.go:18-31 | without an entry both are 0 |
| Scrape.CollectLast | exporter/exporter.go:877-890 | the slow log, then the key groups, which never meet a stale error; a panic in the former ends both |
| Scrape.ScrapeKeys | exporter/exporter.go:853-890 | right database, whole run: started with any database selected, all samples after the checked keys are those the server gives in the database each label names, but for the one count, stream, expansion or slow log length that a stale error costs; never key groups; nothing is lost if the checks run clean |
| Isolation.LaterSamplesAgree | exporter/exporter.go:865-890 | two servers with the same databases that answer alike in one of them give the same samples about it after the checked keys, provided these leave a stale error on both or on neither |
| Isolation.CleanChecks | exporter/exporter.go:865-867 | checks that run clean leave no stale error, and the samples specified for the checked keys |
| Isolation.DatabasesAreIsolated | exporter/exporter.go:853-890 | for scrapes whose checks run clean, the samples about a database, of all collectors, depend on the answers in that database only |
| Isolation.ExpansionsAgree | exporter/keys.go:415-437 | expanding patterns finds the same keys of a database whatever the other databases hold |
| KeyDelivery.RunGroupsFit | exporter/keys.go:124-216 | on any connection, aligned or not, the pipelined path emits samples that fit their descriptions only |
| KeyDelivery.EverySampleArrives | exporter/metrics.go:80-99 | with the exporter's table every sample a scrape logs is sent, in order, without a panic and without a new description |
| GroupScript.ClassifyKey | exporter/key_groups.go:180-190 | a key belongs to g exactly if g is the joined captures of the first pattern that matches, or is `unclassified` and none matches; it is rejected exactly if a malformed pattern comes before any match |
| GroupScript.ClassifiesExactly | exporter/key_groups.go:180-190 | the same of the function the bookings are made with, and that a key belongs to one group at most |
| GroupScript.ConcatAppend | exporter/key_groups.go:184 | captures are joined in their order |
| GroupScript.ConcatTwo | exporter/key_groups.go:184 | with nothing between them: two captures a and b give ab |
| GroupReplies.PageIsBooked | exporter/key_groups.go:160-197 | for a page of names: a run fails exactly if a pattern is malformed on a blank or a key is rejected; otherwise every name is booked once, in order, under the group it belongs to |
| GroupReplies.ConfiguredText | exporter/key_groups.go:82-104 | the configured patterns are the CSV fields without the blanks around them, in order, empty ones left out |
| GroupScript.GroupKeys | exporter/key_groups.go:175-197 | the table the loop builds is the group-by of the bookings, usage carried over as the script does |
| GroupScript.RunScript | exporter/key_groups.go:159-201 | the script's reply is the next cursor and the rows of the group-by in some order |
| GroupTotals.GroupsPartitionTheKeys | exporter/key_groups.go:191-200 | grouping books every key in exactly one group: counts and memory add up |
| GroupTotals.SummaryOfPermutation | exporter/key_groups.go:216-233 | the groups do not depend on the order of the keys |
| KeyGroups.MergeOne | exporter/key_groups.go:217-231 | one row is added to its group, or starts it, in int64 arithmetic |
| KeyGroups.MergeRows | exporter/key_groups.go:214-233 | merging a batch's group-by into that of the earlier keys gives the group-by of all keys so far |
| KeyGroups.GatherKeyGroupMetrics | exporter/key_groups.go:149-239 | the merged map is the group-by of everything the script booked along the cursor chain, or an error where the code returns one |
| KeyGroups.ListGroups | exporter/key_groups.go:117-120 | every group once, in any order |
| KeyGroups.FoldRest | exporter/key_groups.go:130-142 | the overflow sums, in int64 arithmetic |
| KeyGroups.CutGroups | exporter/key_groups.go:116-144 | sort, cut and overflow together give the one series the groups and the limit determine |
| KeyGroups.CutIfNeeded | exporter/key_groups.go:115-144 | all groups, or the top groups and the overflow: either way the series the bookings determine |
| KeyGroups.ConfiguredPatterns | exporter/key_groups.go:82-104 | the trimmed, non-empty patterns; none if blank or no CSV |
| KeyGroups.GatherDatabase | exporter/key_groups.go:105-145 | one database: nothing if SELECT or the script fails, all groups, or top groups with overflow |
| KeyGroups.GatherAllDatabases | exporter/key_groups.go:73-147 | all databases, independently of each other |
| KeyGroups.SeriesPermuted | exporter/key_groups.go:64-66 | the order in which groups are exported does not matter |
| KeyGroups.RegisterGroups | exporter/key_groups.go:58-66 | two samples per group of a list |
| KeyGroups.ExportDatabase | exporter/key_groups.go:38-69 | the samples of one database and its distinct-group gauge |
| KeyGroups.ExportAll | exporter/key_groups.go:38-69 | the samples of all databases |
| KeyGroups.ExtractKeyGroupMetrics | exporter/key_groups.go:33-71 | the samples of all databases and the duration gauge; a stale error costs exactly database 0 |
| Ranking.BeforeTotal | exporter/key_groups.go:121-129 | any two different groups are ordered one way or the other, never both |
| Ranking.BeforeTransitive | exporter/key_groups.go:121-129 | the three-key comparison is transitive |
| Ranking.SortedMeans | exporter/key_groups.go:121-129 | in the sorted order memory goes down, at equal memory counts go up, and at equal counts names do |
| Ranking.NamesInOrder | exporter/key_groups.go:124 | names are compared at the first byte in which they differ, and a prefix comes first |
| Ranking.SortedIsUnique | exporter/key_groups.go:121-129 | two sorted arrangements of the same groups are equal |
| Ranking.SortSlice | exporter/key_groups.go:121-129 | sorts in place: sorted, and a permutation |
| Ranking.EverySortAgrees | exporter/key_groups.go:117-129 | whatever the map order and the (unstable) sort, the result is one and the same sequence |
| Ranking.ListedOnce | exporter/key_groups.go:117-120 | a traversal lists every group of the map once |
| Ranking.TopGroupsDominate | exporter/key_groups.go:131-136 | every retained group uses at least as much memory as every overflowed one |
| Ranking.PlaceInRanking | exporter/key_groups.go:121-129 | a group's place is the number of groups that come before it |
| Ranking.RetainedExactly | exporter/key_groups.go:131-136 | a group is retained if and only if fewer than limit groups come before it |
| Ranking.SeriesAreBounded | exporter/key_groups.go:131-142 | min(groups, limit + 1) series, with distinct labels unless the groups do not fit, one is called overflow and fewer than limit come before it |
| Ranking.CutConserves | exporter/key_groups.go:130-142 | the cut keeps the sums of counts and memory |
| GroupProofs.SeriesConserve | exporter/key_groups.go:38-69 | exported counts add up to the number of bookings and exported memory to the memory booked, in int64 arithmetic, overflow or not |
| GroupProofs.SeriesConserveExactly | exporter/key_groups.go:38-69 | the same without a modulus when the totals fit an int64 |
| GroupProofs.ExportIsBounded | exporter/key_groups.go:116-144 | the same for any bookings, the collision told from the classes' totals before the cut |
| GroupProofs.GatheredIsOnePass | exporter/key_groups.go:175-238 | the per-batch group-by and the merge book what one pass over all returned keys books |
| GroupProofs.GatheredTotals | exporter/key_groups.go:175-238 | per class: the number of its keys, always, and their memory, if all replies are numbers |
| GroupProofs.BatchingDoesNotMatter | exporter/key_groups.go:204-238 | two scans returning the same keys, in any batches and order, give the same counts, and the same groups if all replies are numbers |
| GroupProofs.BatchMemoryIsExact | exporter/key_groups.go:175-199 | a batch is booked at the reported memory plus what is carried over, for any replies; the two are equal if and only if no non-numeric reply follows a number other than 0 |
| GroupProofs.CarriedMemory | exporter/key_groups.go:176-179 | the same from any carried-over usage |
| GroupProofs.NothingCarriedMeansNoGap | exporter/key_groups.go:176-179 | as keys use some memory, nothing is carried exactly if no reply after a number is none |
| GroupProofs.GatheredMemory | exporter/key_groups.go:175-238 | over all batches: the memory booked is the memory reported plus what each batch carries |
| GroupProofs.DatabaseConserves | exporter/key_groups.go:38-239 | end to end, for any replies: exported counts add up to the keys SCAN returned, repeats included, and exported memory to the reported and the carried memory, in int64 arithmetic; equal to the reported exactly if the carried is a multiple of 2^64, and nothing is carried when all replies are numbers |
| GroupProofs.DatabaseConservesExactly | exporter/key_groups.go:38-239 | the same without a modulus when the totals fit: the exported memory is the reported one if and only if no batch carries any |
| GroupSamples.LogValues | exporter/key_groups.go:33-71 | the values of one name about one database in the whole log of the collector add up to those of that database's own samples: no other database adds to them |
| GroupSamples.SamplesConserve | exporter/key_groups.go:33-239 | the `key_group_count` values logged for a gathered database add up to the number of keys SCAN returned there, the memory values to what was reported and carried over, but for multiples of 2^64 |
| GroupSamples.SamplesConserveExactly | exporter/key_groups.go:33-239 | where the totals fit an int64 they add up exactly, and the memory is the reported one if and only if no batch carries any |
| GroupReplies.GroupIsReported | exporter/key_groups.go:38-69 | a group that is not folded is sent with the number of scanned keys that belong to it and, if Redis gives the memory of all keys, with theirs; the number of distinct groups is sent beside it |
| GroupReplies.OverflowIsReported | exporter/key_groups.go:130-142 | what is folded is sent as one group called `overflow` with the summed counts and memory |
| Registry.Exporter.CreateMetricDescription | exporter/metrics.go:130-137 | an existing description is returned unchanged, a missing one is created |
| Registry.Exporter.RegisterConstMetric | exporter/metrics.go:84-99 | creates without labels, looks up with labels, drops a sample with the wrong number of labels; a panic changes nothing |
| Registry.Exporter.RegisterConstSummary | exporter/metrics.go:101-110 | sends, or panics on a missing or differently labelled description and changes nothing |
| Registry.Exporter.Serve | exporter/metrics.go:84-137 | serves a sequence of requests one by one; after a panic the state is that of the requests before it |
| Registry.OneShapeForLife | exporter/metrics.go:84-137 | over any sequence of requests descriptions are never changed or removed and every sample has its description's shape |
| Registry.SameNameSameShape | exporter/metrics.go:84-137 | any two samples ever sent under one name have the same label names and number of values |
| Registry.DescribedNamesNeverPanic | exporter/metrics.go:84-99 | no lookup after the creation fails, and the sample is sent if and only if it has the described number of labels |
| Registry.DescribedAfter | exporter/metrics.go:84-137 | which names are described after a run: those before and those some request created |
| Registry.LookupPanicsExactly | exporter/metrics.go:84-128 | a labelled registration panics if and only if its name was neither described at the start nor created since |
| Registry.SummaryPanicsExactly | exporter/metrics.go:101-110 | after any run a summary is sent exactly if its name is described with as many labels, and panics otherwise |
| Registry.Delivered | exporter/metrics.go:84-110 | requests whose names are described with their number of labels all become samples, once each and in order, and no others of their kind do |
| Registry.GaugesAreDelivered | exporter/metrics.go:80-99 | gauges that fit their descriptions all arrive, in order |
| Clients.ParseClientListString | exporter/clients.go:43-116 | the fields of one line, or nothing where the code gives up |
| Clients.AddressRoundTrip | exporter/clients.go:102-109 | an address is split at its last colon, so IPv6 hosts survive |
| Clients.ParseConnectedClientMetrics | exporter/clients.go:135-251 | the requests of all lines are served in order; after a panic the state is that of the requests before it |
| ClientProofs.ClientsNeverPanic | exporter/clients.go:135-251 | no CLIENT LIST text and no earlier description makes the collector panic |
| ClientProofs.FirstClientFixesTheShape | exporter/clients.go:143-166 | for ever after the first client, a sample is sent if and only if it has as many labels, under the first client's names |
| ClientProofs.MislabelledExactly | exporter/clients.go:143-166 | when a sample is sent under wrong label names: exactly user-only against resp-only |
| ClientTexts.ClientText | exporter/clients.go:43-116 | a line that begins with a numeric id and an address is a client exactly if its ages are numbers and its address has a colon; every field is the last one of its name, ages are turned into times, and the address is cut at its last colon |
| ClientTexts.NoClient | exporter/clients.go:44-46 | a line that does not begin with a numeric id is no client |
| ClientTexts.LabelsGoTogether | exporter/clients.go:143-160 | each label of connected_client_info has the value of the field it names |
| ClientTexts.RequestsOfAClient | exporter/clients.go:143-248 | which number of a client is sent under which name, and which two are left out where the server does not send them |
| InfoFields.ParseMetricsLatencyStats | exporter/info.go:463-512 | the percentile table, rejection, or the crash |
| InfoFields.ParseConnectedSlaveString | exporter/info.go:292-329 | a replica's fields, lag missing or malformed included |
| InfoFields.ParseSentinelMasterString | exporter/sentinels.go:193-224 | a sentinel master's fields, unreadable pieces skipped |
| Info.HandleReplication | exporter/info.go:331-372 | the request of a replication field, or that it is none |
| Info.Pass.Skip | exporter/info.go:83-91 | a header or a non-field leaves the maps saying what the text determines |
| Info.Pass.Remember | exporter/info.go:93-105 | the last value of every key and the current master |
| Info.Pass.HandleCommandStats | exporter/info.go:117-121 | the requests, and the count and sum maps, which always share their domain |
| Info.Pass.HandleLatencyStats | exporter/info.go:123-125 | the latency map, or the crash |
| Info.Pass.HandleKeyspace | exporter/info.go:131-155 | the requests and the handled databases; unparsed lines fall through to the generic ones |
| Info.Pass.PlainRequests | exporter/info.go:109-155 | the requests of a field in a section without maps |
| Info.Pass.HandlePlain | exporter/info.go:109-155 | the sections that only register metrics leave all maps alone |
| Info.Pass.Handle | exporter/info.go:89-156 | one field: the maps keep saying what the text up to this line determines |
| Info.Pass.Read | exporter/info.go:80-156 | one line of any kind |
| Info.ReadLines | exporter/info.go:80-156 | the whole loop, stopping at the first crashing line with the requests of the lines before it |
| Info.Summarise | exporter/info.go:210-216 | the summary of one command, if both maps have it |
| Info.GenerateSummaries | exporter/info.go:209-218 | the summaries, in some order of the commands |
| Info.EmptyDatabases | exporter/info.go:162-170 | zero samples for numbered databases that were not handled |
| Info.Closing | exporter/info.go:172-204 | instance_info with its optional labels, and slave_info for replicas |
| Info.Finish | exporter/info.go:158-206 | the role and all requests, in the code's order |
| Info.CollectRequests | exporter/info.go:69-207 | the role and all requests are those the text determines, for any text; without a role exactly if a line crashes, with the requests of the lines before it |
| Info.ExtractInfoMetrics | exporter/info.go:69-207 | what the registry holds afterwards, for any text and any registry, up to the first panic of a line or a lookup |
| InfoTexts.HeaderText | exporter/info.go:80-87 | a line `# name` is a header, blanks around it left aside |
| InfoTexts.FieldText | exporter/info.go:89-95 | any other line is cut at its first colon |
| InfoTexts.LinesOfText | exporter/info.go:77-80 | the lines of a text are the pieces between line breaks |
| InfoTexts.HeaderHolds | exporter/info.go:84-88 | a header holds for all lines up to the next one |
| InfoTexts.KeyspaceText | exporter/info.go:131-145 | of `a=x,b=y` x goes out as db_keys and y as db_keys_expiring, of `c=t` a thousandth of t as db_avg_ttl_seconds, of `d=u` u as db_keys_cached |
| InfoTexts.BadKeyspaceText | exporter/info.go:243-286 | with too few or too many pieces, or one that is no number, the line is no database |
| InfoTexts.DatabaseIsReported | exporter/info.go:131-145 | from a line below `# Keyspace` to the samples sent: the two counts under the name of the database |
| InfoTexts.EmptyDatabase | exporter/info.go:162-170 | a numbered database without a line is sent with two zeros if empty databases are wanted |
| InfoTexts.CommandText | exporter/info.go:394-461 | the first number of a cmdstat line goes out as calls, the second as microseconds turned into seconds, the fourth as rejected and the fifth as failed calls, or nothing if one of them is none |
| InfoTexts.StatsText | exporter/info.go:117-121 | the first two are the count and the sum of the command |
| InfoTexts.LatencyText | exporter/info.go:463-512 | every percentile named in a line is in the table with the last value given for it, and no other |
| InfoTexts.ErrorText | exporter/info.go:514-570 | the count of an errorstat line under the error it names |
| ReplicationTexts.HostAndPortNames | exporter/info.go:24-25 | `master_host` and `master_3_host` name the host and not the port, and the other way round |
| ReplicationTexts.LinkText | exporter/info.go:333-340 | the link is 1 if up and 0 otherwise, under host and port |
| ReplicationTexts.LastIoText | exporter/info.go:342-351 | the seconds since the last I/O with any master |
| ReplicationTexts.SyncText | exporter/info.go:342-351 | whether a sync with any master is in progress |
| ReplicationTexts.OffsetText | exporter/info.go:342-351 | the replication offset |
| ReplicationTexts.ReplicaText | exporter/info.go:292-371 | offset and lag of a replica under its ip, port and state, in whatever order they are written, without a lag if none is |
| ReplicationTexts.SentinelText | exporter/sentinels.go:13-36 | status, replicas and sentinels of a watched master under its name and address |
| ReplicationTexts.Unnumbered | exporter/info.go:37 | without a number after its name a field is neither a replica nor a watched master |
| ReplicationTexts.UptimeText | exporter/info.go:374-379 | the start time is now less the uptime |
| ReplicationTexts.HertzText | exporter/info.go:381-391 | hz and configured_hz as they are |
| ReplicationTexts.ListedField | exporter/metrics.go:35-78 | a field listed as gauge or counter under its listed name and kind, the words for true and false as 1 and 0 |
| ReplicationTexts.PrefixedField | exporter/metrics.go:23-26 | any other field of a database, a command or the cluster is sent under its own name |
| ReplicationTexts.SanitizedName | exporter/metrics.go:15-17 | letters and digits stay in a name, everything else becomes an underscore |
| ReplicationTexts.UnlistedField | exporter/metrics.go:23-33 | a field listed nowhere is not sent |
| ReplicationTexts.InstanceText | exporter/info.go:172-204 | instance_info has every label with the last value of the field it names, and slave_info is sent for replicas only |
| ReplicationTexts.LastValue | exporter/info.go:97 | the value of a field is that of its last line |
| InfoProofs.MasterLabelsFollowTheText | exporter/info.go:99-112 | every link, last-io, sync and offset sample carries the last host and port lines before it |
| InfoProofs.BlockNamesItsMaster | exporter/info.go:17-23 | with multi-master blocks that list host and port first, each sample names its own master |
| InfoProofs.SafeMeansNoCrash | exporter/info.go:123-125 | the pass survives if and only if no line crashes |
| InfoProofs.CrashingLines | exporter/info.go:55-66 | a latency line crashes if and only if some piece splits at `=` into an empty name and a value, and every earlier piece has not two fields, or a name and two numbers that parse |
| InfoProofs.FieldIsSafe | exporter/info.go:107-155 | with the exporter's table no other field can ask for a missing description |
| InfoProofs.LinesPanic | exporter/info.go:80-156 | the loop panics if and only if the lookup of an inexact replication field fails at its line |
| InfoProofs.LookupsFailByText | exporter/info.go:342-350 | which of these lookups fail, told from the text and the table alone |
| InfoProofs.InfoPanicsExactly | exporter/info.go:331-351 | a scrape dies on a missing description if and only if some inexact replication field has a name neither in the table nor created by an earlier line |
| InfoProofs.LinesRequestDbKeys | exporter/info.go:131-145 | the loop requests db_keys once per parsed keyspace line and handles exactly those databases |
| InfoProofs.DbKeysRequested | exporter/info.go:131-170 | how often db_keys is requested for any database: once per parsed line, once for a numbered database without |
| InfoDelivery.EveryDatabaseSentOnce | exporter/info.go:131-170 | with distinct keyspace lines exactly one db_keys sample is sent for each listed or numbered database, and none for another |
| InfoProofs.EveryDatabaseOnce | exporter/info.go:131-170 | with distinct keyspace lines: exactly once for each listed or numbered database, never for another |
| InfoProofs.ZeroOnlyIfUnlisted | exporter/info.go:162-170 | zero is reported only for numbered databases without a parsed line |
| InfoProofs.SummariesAreTheJoin | exporter/info.go:209-218 | a summary for exactly the commands with a readable Latencystats and a Commandstats line, from the last of each |
| InfoProofs.OneSummaryPerCommand | exporter/info.go:209-218 | no command is summarised twice |
| InfoDelivery.JoinIsSent | exporter/info.go:209-218 | one summary, the join, is sent for every command with both lines, and none for another |
| InfoProofs.BlockOrderDoesNotMatter | exporter/info.go:107-160 | any reordering of whole section blocks leaves the summaries as they are, when no command appears in two blocks for the same purpose |
| Latency.ExtractTotalUsecForCommand | exporter/latency.go:92-111 | the uint64 sum over the matching lines |
| Latency.UsecTotalsAreAdditive | exporter/latency.go:92-111 | the total of texts joined at a line break is the sum of the totals modulo 2^64 |
| Latency.AddMatch | exporter/latency.go:97-107 | one match: another name or a number beyond 64 bits adds nothing, and sums wrap around |
| Latency.LineText | exporter/latency.go:18 | of `cmdstat_NAME:...usec=N...` the name up to the colon and the last such N are read |
| Latency.SumIsOwnExactly | exporter/latency.go:97-99 | the unbounded sum is the command's own if and only if every longer command with that prefix has used no time |
| Latency.TotalIsOwnExactly | exporter/latency.go:92-111 | the returned total is the command's own modulo 2^64 if and only if what the longer commands add is a multiple of 2^64 |
| KnownFailures.EmptyPercentileCrashes | exporter/info.go:60 | the piece `=1` crashes the pass |
| KnownFailures.InexactFieldPanics | exporter/info.go:342-350 | the field slave_repl_offset_old panics |
| KnownFailures.BrokenLineErasesStats | exporter/info.go:117-121 | a Commandstats line that does not parse, after one that does: the command is summarised with no calls and no time |
| KnownFailures.GetIncludesGetex | exporter/latency.go:97-99 | 5 microseconds of get and 7 of getex are reported as 12 of get |
| KnownFailures.ExpiredKeyIsOverbooked | exporter/key_groups.go:176-179 | with one pattern that matches nothing, a batch of which the server reported 100 bytes is booked with 200 |
| KnownFailures.OverflowLabelCollides | exporter/key_groups.go:135-142 | two classes, limit 1: two series called overflow |
| KnownFailures.VersionIsSentAsUser | exporter/clients.go:143-166 | a client's protocol version is sent under the label user |
| KeyFailures.StaleErrorCrossesDatabases | exporter/exporter.go:865-871 | two servers alike in database 0; errors about the checked key of database 1 cost the first one its count in database 0 |
| KeyFailures.MarkerValuePanics | exporter/streams.go:54-94 | the reply `name`, `first-entry` panics; `first-entry` alone does not |

## Left out

- Floating point: float64 values are reals, so NaN, infinities and rounding are not part of this model; `strconv.ParseFloat` is a parameter.
- Send, Flush and Receive failures, timeouts and broken connections: the connection is alive throughout.
- Libraries as parameters: `redis.ScanStruct`, `encoding/csv`, Lua's `string.find`; the regular expressions are written out as predicates.
- The clock and the measured duration are parameters.
- Scanning.ScanKeys: requires that the server's cursor chain comes back to 0; where it does not, the code loops for ever. The same holds for `KeyGroups.GatherKeyGroupMetrics`, and for the methods above them as to the scans that their own arguments name.
- KeyGroups.CutGroups: the limit is a natural number; with a negative `MaxDistinctKeyGroups` the slices at `exporter/key_groups.go:131-136` panic.
- KeyGroups.GatherKeyGroupMetrics: the server answers a script call with what the modelled script replies, or with an error.
- Metrics.Channel.Gauge: a log without descriptions; that the registry sends all of it, and drops or panics on none, is `KeyDelivery.EverySampleArrives`.
- PipelineProofs.PathsAgree: characterises agreement together with a connection in sync; when a SELECT or TYPE fails the samples alone can agree or not, as `PipelineFailures` shows both ways.
- PipelineProofs.OrderSumIsSpec: about the samples as a multiset; their order depends on the map iteration.
- GroupScript.RunScript: Lua numbers are integers here; above 2^53 Lua's own doubles would round.
- Info.ExtractInfoMetrics: collects its requests and then serves them, where the code serves each at once; the result is the same, as nothing in the pass reads the descriptions.
- Scrape.ScrapeKeys: outside cluster mode, where all collectors share one connection, and with the key checks not skipped for the instance's role.
- Isolation.DatabasesAreIsolated: for scrapes that no stream or slow log reply makes panic; a panic in one database ends the samples of all. The same holds for LaterSamplesAgree.
- GroupSamples.SamplesConserve: about the log of a collector that was started without a stale error, as `Scrape.ScrapeKeys` always starts it.
- InfoDelivery.EveryDatabaseSentOnce: for a scrape without panic, as is JoinIsSent beside it; when there is one is InfoPanicsExactly and CrashingLines.
- Prometheus's own checks beyond the number of labels, such as invalid UTF-8 in label values.
- Names with bytes beyond ASCII: the sanitiser is applied byte by byte, where Go replaces a whole rune.
- The rest of `exporter/latency.go` (LATENCY LATEST and HISTOGRAM), `exporter/modules.go`, `exporter/nodes.go`, `exporter/tile38.go`, `exporter/search_indexes.go`, `exporter/lua.go` and most of `exporter/sentinels.go`: they copy fields.
- HTTP, TLS, authentication, flags, cluster connection setup and the lock around a scrape.
- `contrib/`: sample scripts and dashboards.
