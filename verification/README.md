# Hive verification

A Dafny model of the stateful cores of Hive, a multi-protocol honeypot, with proofs of what each core
promises over every input, every run and every interleaving. `dafny verify dfyconfig.toml` checks all of it.

## What is modelled

**Sliding-window detection** (`DetectorHistory`, `Detector`, `DetectorLaws`). The rules T1110 and T1046 are
stated on the full event history. The detector, a class that keeps only pruned timestamps and last-seen
times per address and deletes what has expired, is proved to give exactly the answers of the history. The
documentation promises "five attempts in five minutes" and "three services in sixty seconds". The attempts
counted are those of the last five minutes if and only if the newest attempt is also the latest by timestamp
(`CountedAreRecentExactly`). The services counted never exceed those contacted in the last sixty seconds, and
they are the same if and only if no such service's last connect has been outrun (`ScanExactly`). Events that
workers hand over out of order break both promises (`OutOfOrderMissesBruteForce`, `OutOfOrderMissesScan`).
An address with any attempt never leaves the table (`AttemptsKeepRecordForever`).

**Event bus and worker pool** (`BusProtocol`, `BusSafety`, `BusDelivery`, `BusHistory`, `EventBus`,
`WorkerPool`, `PoolShutdown`). The bus is a transition system in which every send of a Publish, and every close of a
Shutdown, is a step of its own, so all interleavings that the read-write lock allows are behaviours. What a
subscriber gets is stated against the sequence of calls alone. The class of `EventBus` is proved to take
exactly the steps of the protocol. A Subscribe after Shutdown still hands out an open channel; nothing is
ever offered on it (`NothingOfferedAfterShutdown`). N workers drain one channel of this bus.
A Shutdown stops them all, with every accepted event processed unless the context was cancelled
(`ShutdownStopsThePool`). The shipped server cancels first and shuts the bus down only after the workers have
returned, so that they may leave through the cancelled context; then the events still in the buffer are lost,
and exactly those (`CancelLosesEvents`, `ProcessedExactly`).

**Per-address rate limiting** (`RateLimit`, `RateLimitLaws`, `RateLimitExact`, `IPLimiter`). The evicting limiter
is compared with one that never forgets. `Allow` reads the clock twice, once for `lastSeen` and once in the
library; the model keeps both readings, at most `gap` apart, and the distance matters: an entry counts as
idle from the first reading, its bucket from the second. At one token per interval the two limiters answer
alike in every run if and only if the burst is empty, or a drained bucket refills within the horizon and one
tick less the distance (or less one interval, if that is shorter), and one token comes back within the horizon
and one tick less the distance (`EvictionInvisibleExactly`). The shipped defaults meet this up to readings 599
seconds apart (`DefaultsExactly`). The documentation speaks of ten events a second per address; what holds is
burst plus rate times the length of the window, which for the defaults is ten plus one a second.

**MySQL wire format** (`MySqlWire`, `MySqlClient`, `MySqlServer`, `MySqlSession`). A reference client is written
from the MySQL Client/Server Protocol documentation ("MySQL Packets", "Protocol::LengthEncodedInteger",
"Protocol::LengthEncodedString", "Text Resultset", "Command Phase", "OK_Packet"), and proved to invert the
server's bytes, packet by packet and for a whole session. A packet arrives intact exactly below 2^24 - 1 bytes: a client takes a length of
2^24 - 1 as the announcement of a continuation that the server never sends.

**Paths** (`Paths`, `FtpSession`, `FtpLaws`, `FtpWords`, `FtpHandler`, `FakeFs`, `Shell`). A path means a walk in a tree;
the stack loop of both cleaners computes the canonical path of the place. On top of it stand the FTP control
connection as a state machine (working directory, data listener, replies), its laws over the command words a
client types, and the shell's working directory. `resolvePath` skips cleaning for relative paths at `/`, so that `cd etc/` fails there although `cd ../etc/`
works from `/root`; the model says exactly when this happens (`ResolveExactly`, `CdExactly`). A PASV whose
`net.Listen` fails keeps the old, closed listener, and the next transfer is promised with 150 before it is
refused (`FailedPasvStillPromises`).

**Indicators and stored aggregates** (`Indicators`, `Store`, `StoreOrder`, `StoreBulk`, `Pipeline`). Bulk extraction
gives one summary for each indicator, whatever the order of events. The stored attacker rows count the processed
events in whatever order the workers' upserts arrive, and, after an uncancelled pool has drained its feed, what the
bus offered less what it dropped. But `last_seen` is overwritten by the last upsert, so that it covers an address's
events in every order only if they all carry one timestamp (`LastSeenIsLatestExactly`); and `tool_family` and `tags`
are reset by every event, because the processor sends '' where COALESCE waits for NULL. No processed event ever
leaves a stored indicator: `ipIOC` leaves the tags nil, `UpsertIOC` sends them as NULL, and the column is NOT NULL
(migrations/009_iocs.sql:14), so the database refuses the row (`NoIndicatorIsStored`). The stored indicators would
count the events, and agree with bulk extraction, if and only if nil tags were sent as an empty array, as
`UpsertAttacker` does (`IndicatorsCountExactly`, `BulkAgreesExactly`).

**Session tracker** (`SessionLife`, `Tracker`). A session's record is compared with what the schedule of
critical sections says about it, over every schedule.

## Assumptions

- `golang.org/x/time/rate` behaves as the standard token bucket: it starts full, refills lazily up to the
  burst, and a denied request takes nothing. Tokens are real numbers instead of floats.
- A Go channel is a FIFO buffer with a set of parked receivers; a send that finds one hands over to any of them.
- PostgreSQL executes each upsert atomically, and refuses NULL for a NOT NULL column before it looks at
  ON CONFLICT; the pgx driver sends a nil slice as NULL.
- New session identifiers are fresh.
- Clock readings are parameters. Where they must not run back, the lemma says so (`Timed`, `InOrder`).

## Model

| member | source | states |
|---|---|---|
| Detector.Detector.Detect | internal/mitre/detector.go:53-84 | one detection per technique that the full history calls for, in its order, though only the pruned table is kept: session, address, service and evidence of the event, confidence 100, the tactic of the index or none, the event's timestamp or, where that is unset, the clock |
| Detector.Detector.DetectMultiEvent | internal/mitre/detector.go:167-217 | the window techniques found from the table equal those of the whole history, including after expiry and deletion |
| Detector.UpdateRecord | internal/mitre/detector.go:183-210 | the in-place update of one record does what the record step says: append and prune on attempts, overwrite on connects, expire while iterating |
| Detector.ExpireServices | internal/mitre/detector.go:200-207 | deleting while iterating keeps exactly the services seen at most 60 seconds before, whatever the iteration order, and counts them |
| Detector.PruneWindow | internal/mitre/detector.go:338-349 | keeps, in order, exactly the times strictly after now less the window |
| Detector.DedupStrings | internal/mitre/detector.go:351-361 | keeps the first occurrence of each technique |
| Detector.DetectSingleEvent | internal/mitre/detector.go:86-165 | a technique is among the matches exactly when the rule for that technique holds of the event, and none is there twice |
| DetectorHistory.DedupKeepsFirsts | internal/mitre/detector.go:351-361 | deduplication loses no technique and leaves no duplicate |
| DetectorHistory.HitsCountAliveAuths | internal/mitre/detector.go:185-194 | the number of kept timestamps is the number of attempts of the full history that no later attempt has outrun |
| DetectorHistory.KeptAreLiveServices | internal/mitre/detector.go:196-207 | the services kept are exactly those whose last connect in the full history no later event of the address has outrun |
| DetectorHistory.StepAnswersForHistory | internal/mitre/detector.go:167-217 | one step of a table that describes a history gives that history's answer and describes the longer history |
| DetectorLaws.SingleRulesExactly | internal/mitre/detector.go:86-165 | the rules by event type, read technique by technique |
| DetectorLaws.ReportedExactly | internal/mitre/detector.go:53-84 | for every technique, whether it is reported for the newest event of a history, and each is reported once |
| DetectorLaws.ReportedInOrder | internal/mitre/detector.go:86-210 | a report lists its techniques in one fixed order, the window techniques last, and so is known to the letter |
| DetectorLaws.WindowAlertsExactly | internal/mitre/detector.go:53-84 | T1110 and T1046 are reported exactly when the window rules hold, never by a single-event rule, and no technique is reported twice |
| DetectorLaws.CountedAreRecentExactly | internal/mitre/detector.go:185-194 | the attempts counted at an attempt are those of the last five minutes of the full history if and only if it is the latest of its address's attempts by timestamp |
| DetectorLaws.BruteForceWhenLatest | internal/mitre/detector.go:185-194 | at such an attempt T1110 means at least five attempts in the last five minutes of the full history; elsewhere it is not reported |
| DetectorLaws.LiveAreRecentButLost | internal/mitre/detector.go:196-207 | a service is counted exactly when it was contacted in the last sixty seconds and its last connect to arrive has not been outrun |
| DetectorLaws.ScanExactly | internal/mitre/detector.go:196-210 | T1046 never exaggerates, and counts the services of the last sixty seconds if and only if none is lost that way |
| DetectorLaws.ScanInOrder | internal/mitre/detector.go:196-210 | with timestamps in order, T1046 means at least three services contacted in the last sixty seconds of the full history, both ends included |
| DetectorLaws.AlertsInOrder | internal/mitre/detector.go:53-84 | with timestamps in order per address, T1110 and T1046 are reported exactly as documented: five attempts in five minutes at an attempt, three services in sixty seconds |
| DetectorLaws.DocumentedRules | internal/mitre/detector.go:53-84 | the same in plain numbers: at least five logins, failed or not, in 300 seconds, and connects of at least three services in 60 seconds |
| DetectorLaws.OutOfOrderMissesScan | internal/mitre/detector.go:196-210 | an out-of-order history with three services contacted in the window and no T1046, at any start time |
| DetectorLaws.OutOfOrderMissesBruteForce | internal/mitre/detector.go:185-194 | an out-of-order history with five attempts in the window and no T1110, at any start time; when this can happen is CountedAreRecentExactly |
| DetectorLaws.NonInterference | internal/mitre/detector.go:174-181 | the techniques for an event depend only on the events of its own address |
| DetectorLaws.AttemptsKeepRecordForever | internal/mitre/detector.go:185-194 | a record has attempts exactly when its address ever had one |
| DetectorLaws.TableHoldsExactly | internal/mitre/detector.go:212-214 | an address is in the table exactly when it ever had an attempt or has a live service |
| BusSafety.SafeStep | internal/event/bus.go:38-103 | every step keeps the subscriber list distinct and open, the locks consistent and the bus from panicking |
| BusSafety.SafeAlways | internal/event/bus.go:58-103 | over every interleaving no send hits a closed channel and no channel is closed twice |
| BusSafety.ShutdownClosesEverySubscriber | internal/event/bus.go:94-103 | when Shutdown returns every channel that was subscribed is closed |
| BusSafety.NothingOfferedAfterShutdown | internal/event/bus.go:58-64 | once Shutdown has begun no channel is offered anything, not even one subscribed later |
| BusDelivery.SubscriberGets | internal/event/bus.go:58-76 | per publisher a subscriber gets a subsequence, in publication order, of publications on a topic it asked for, or on any if it asked for "all"; each is offered exactly once; delivered plus buffered plus dropped is offered |
| BusHistory.DueArePublications | internal/event/bus.go:38-103 | over every interleaving, what is due on a channel from a publisher is exactly what the sequence of calls alone says: publications begun before any Shutdown, while subscribed, on a topic asked for or on any topic if "all" was asked for |
| BusHistory.DeliveryIsByHistory | internal/event/bus.go:58-76 | received and buffered items are a subsequence of those publications, the buffer has the capacity its Subscribe asked for, and between calls of the publisher whatever is missing was dropped |
| BusHistory.WildcardSeesAll | internal/event/bus.go:67-69 | a channel that asked for "all" is due every publication begun while it was subscribed and before any Shutdown, whatever the topic; any other is due nothing on a topic it did not ask for |
| BusDelivery.DropsOnlyWhenFull | internal/event/bus.go:71-74 | an item is dropped only by a send that finds the buffer full and no receiver parked |
| EventBus.Bus.Subscribe | internal/event/bus.go:38-56 | takes the protocol's subscribe step with a new channel, open even on a closed bus |
| EventBus.Bus.Unsubscribe | internal/event/bus.go:78-92 | closes and removes the first subscriber of the channel, and nothing if there is none |
| EventBus.Bus.Publish | internal/event/bus.go:58-76 | takes one begin, one send step per subscriber in list order, those of "all" included, and one end, or only the begin on a closed bus |
| EventBus.Bus.Shutdown | internal/event/bus.go:94-103 | takes one begin, one close per subscriber in list order, and one end |
| WorkerPool.PoolAlways | internal/event/processor.go:86-111 | over every interleaving of bus and workers, what was received is what was processed or is in flight, and a worker returns only on a drained closed feed or a cancelled context |
| WorkerPool.Conservation | internal/event/processor.go:98-111 | every accepted event is in exactly one place, once: buffered, in flight at one worker, or processed |
| WorkerPool.ClosedFeedDrains | internal/event/processor.go:98-111 | after the feed is closed each worker move uses up work and nothing adds any |
| WorkerPool.ClosedFeedBoundsMoves | internal/event/processor.go:86-111 | from the close of the feed on, whatever closed it, the workers make no more moves than the work then left |
| PoolShutdown.ShutdownClosesFeed | internal/event/bus.go:94-103 | in a run of pool and bus a Shutdown closes the feed of a pool started on a subscribed channel, even if it was unsubscribed meanwhile |
| PoolShutdown.ShutdownStopsThePool | internal/event/processor.go:86-111 | after Shutdown the worker moves are bounded by the work left, some worker can move until all have returned, and then, if the context was not cancelled, every accepted event was processed exactly once |
| PoolShutdown.ProcessedExactly | internal/event/processor.go:98-111 | when all workers have returned, cancelled or not, every accepted event was processed exactly once if and only if the buffer is empty |
| PoolShutdown.CancelLosesEvents | internal/event/processor.go:101-103 | for any event there is a run in which it is accepted, the context is cancelled and the only worker returns without it |
| Pipeline.DrainedTotals | internal/event/processor.go:86-198 | when all workers have returned with an empty buffer and the attacker upserts of what they processed reached the database, each address has as many stored events and connects as the feed accepted from it |
| Pipeline.TotalsAreOffersLessDrops | internal/event/bus.go:58-76 | for an uncancelled pool the stored total of an address is what the bus offered from it to the feed less what it dropped |
| WorkerPool.ClosedFeedProgress | internal/event/processor.go:98-111 | after the close some worker can always move until all have returned |
| WorkerPool.AllReturnedMeansAllProcessed | internal/event/processor.go:86-96 | when all workers of an uncancelled pool have returned, every accepted event was processed exactly once |
| IPLimiter.IPLimiter.Allow | internal/ratelimit/limiter.go:51-65 | answers and updates as the timed machine does, creating a full bucket for a new address and touching no other |
| IPLimiter.IPLimiter.EvictStale | internal/ratelimit/limiter.go:85-95 | the deleting loop keeps exactly the addresses last seen within the horizon, unchanged |
| RateLimit.RefillIsProduct | internal/ratelimit/limiter.go:60-64 | the refill of the model is the rate times the elapsed time |
| RateLimit.SimulationAlways | internal/ratelimit/limiter.go:51-95 | if every call's spending comes back before its entry can be evicted, the table simulates one eternal bucket per address in every timed run, an absent entry standing for a full one |
| RateLimit.EvictionInvisible | internal/ratelimit/limiter.go:51-95 | then every answer equals that of a limiter that never evicts |
| RateLimit.RefillFitsRestores | internal/ratelimit/limiter.go:51-95 | for any rate it is enough that a full refill fits into the horizon and one tick less the distance of the clock readings |
| RateLimitExact.EvictionInvisibleExactly | internal/ratelimit/limiter.go:51-95 | for every interval per token, burst, horizon and distance of the two clock readings, eviction is invisible in every run if and only if the arithmetic condition holds |
| RateLimitExact.InvisibleAtOneReading | internal/ratelimit/limiter.go:51-95 | for every rate, when the readings of each call coincide, if and only if the burst is at most the refill of the horizon plus one tick |
| RateLimitExact.DrainedExposes | internal/ratelimit/limiter.go:63-64 | a drained bucket, one token spent by a call whose readings lie apart, and an eviction: the run that breaks the first half of the condition |
| RateLimitExact.SlowCallExposes | internal/ratelimit/limiter.go:63-64 | one call whose readings lie too far apart breaks the second half |
| RateLimitExact.ExposureShows | internal/ratelimit/limiter.go:85-95 | after such a run an eviction and a burst at once tell the limiters apart |
| RateLimitLaws.WindowBound | internal/ratelimit/limiter.go:51-65 | where eviction restores, in any window one address is admitted at most burst plus rate times length times, across evictions and re-creations |
| RateLimitExact.WindowBoundInIntervals | internal/ratelimit/limiter.go:51-65 | under the condition on interval, burst, horizon and clock, the calls admitted in a window beyond the burst are at most the whole intervals the window has room for |
| RateLimitLaws.TableTracksLastSeen | internal/ratelimit/limiter.go:51-95 | an entry carries its address's last call; an absent address was never seen or is past the horizon |
| RateLimitLaws.EvictionKeepsExactly | internal/ratelimit/limiter.go:85-95 | right after an eviction exactly the addresses called within the horizon are in the table |
| RateLimitExact.DefaultsExactly | internal/config/constants.go:74-78 | with ten tokens at one a second and a ten-minute horizon eviction is invisible exactly for clock readings at most 599 seconds and a nanosecond apart |
| MySqlClient.PacketArrivesExactly | internal/mysqld/handler.go:40-51 | a packet is read back intact if and only if its payload is below 2^24 - 1 bytes |
| MySqlClient.IntArrivesExactly | internal/mysqld/handler.go:193-209 | a length-encoded integer is read back if and only if it is below 2^24 |
| MySqlWire.LenEncInt | internal/mysqld/handler.go:193-209 | takes the shortest of one, three and four bytes, never begins with the marker of NULL, EOF or ERR, and with zero only for zero |
| MySqlClient.StringRoundTrip | internal/mysqld/handler.go:211-213 | a length-encoded string is read back with what follows it untouched |
| MySqlClient.ColumnRoundTrip | internal/mysqld/handler.go:215-231 | a client reads out of a column definition a text column of that name, not more: catalog, character set 33, 256 bytes, type 0xFD, flag 1 |
| MySqlClient.RowIsARow | internal/mysqld/handler.go:346-360 | a row packet is never taken for an EOF or ERR packet |
| MySqlClient.RowsRoundTrip | internal/mysqld/handler.go:346-362 | a client reads back all rows, checking every sequence number, and stops at the final EOF |
| MySqlClient.ResultSetRoundTrip | internal/mysqld/handler.go:320-363 | a client recovers exactly the columns and rows of any result set that fits the wire and leaves what follows |
| MySqlClient.OkSays | internal/mysqld/handler.go:154-162 | a client reads an OK with nothing affected, nothing inserted, autocommit on and no warnings |
| MySqlClient.EofSays | internal/mysqld/handler.go:189-191 | a client reads an EOF with no warnings and autocommit on |
| MySqlClient.SkipIsModular | internal/mysqld/handler.go:323-362 | the k-th packet of a reply is numbered k further modulo 256 |
| MySqlServer.WritePacket | internal/mysqld/handler.go:40-51 | sends the framed bytes, or as many as the peer takes, and reports which |
| MySqlServer.ReadPacket | internal/mysqld/handler.go:53-82 | reads one frame: the payload, an empty one, a refusal above 2^20, or end of stream |
| MySqlServer.WriteResultSet | internal/mysqld/handler.go:320-363 | the loops with their running sequence number send the whole result set, or a prefix when a write fails |
| MySqlServer.Serve | internal/mysqld/server.go:139-192 | the command loop writes exactly the replies to the requests read, until a quit, an empty or oversize packet, the end of the stream, or cancellation |
| MySqlServer.HandleConnection | internal/mysqld/server.go:96-193 | a connection sends greeting, acceptance and replies in this order, cut where the peer stops taking |
| MySqlServer.ParseAuthUsername | internal/mysqld/handler.go:140-152 | the user name is what follows the 32 fixed bytes up to the first zero |
| MySqlServer.UsernameRoundTrip | internal/mysqld/handler.go:140-152 | the name of any zero-free user in a well-formed handshake response is found |
| MySqlSession.FramingRoundTrip | internal/mysqld/handler.go:40-82 | reading a stream of packets of 1 to 2^20 bytes gives back numbers and payloads and the untouched rest |
| MySqlSession.OversizeIsRefused | internal/mysqld/handler.go:70-72 | a packet above 2^20 and below 2^24 bytes is refused with its true length |
| MySqlSession.ReplyRoundTrip | internal/mysqld/server.go:149-191 | a client that asks by the documented command bytes understands OK for init-db and ping, the columns and rows of the query's result set or else OK, and error 1047, state 08S01, for any other command, numbered from the request's number on |
| MySqlSession.SessionRoundTrip | internal/mysqld/server.go:139-192 | for any requests of a client without a quit, in any order and of at most 2^20 bytes each, the client gets exactly that one reply each and nothing else |
| MySqlSession.SilentEnd | internal/mysqld/server.go:144-156 | a packet that begins with 0x01, an empty one or one above 2^20 bytes ends the loop with nothing more written |
| MySqlSession.QuitEnds | internal/mysqld/server.go:149-156 | so a client's quit ends the session |
| MySqlSession.HandshakeRoundTrip | internal/mysqld/server.go:118-137 | a client reads the greeting under number 0, then an OK under the number after that of its authentication packet, and is in the command loop |
| MySqlSession.HandleQueryEncodable | internal/mysqld/handler.go:238-318 | every canned result set fits the wire, whatever the query |
| MySqlSession.FirstAnswers | internal/mysqld/handler.go:238-258 | a query beginning SELECT @@VERSION, SELECT DATABASE or SELECT USER gets its one value, whatever follows |
| MySqlSession.ListAnswers | internal/mysqld/handler.go:260-283 | SHOW DATABASES and SHOW TABLES get their fixed lists |
| MySqlSession.SchemaAnswer | internal/mysqld/handler.go:285-289 | any other query that names INFORMATION_SCHEMA gets an empty table |
| MySqlSession.LastAnswers | internal/mysqld/handler.go:291-301 | @@DATADIR and @@HOSTNAME get their value, unless the query names INFORMATION_SCHEMA |
| MySqlSession.VariablesAnswer | internal/mysqld/handler.go:303-314 | SHOW VARIABLES gets its four names and values, unless the query names INFORMATION_SCHEMA |
| MySqlSession.NoAnswer | internal/mysqld/handler.go:238-318 | a query that is none of the nine known ones gets a plain OK |
| Paths.CleanPath | internal/sshd/commands.go:443-462 | the push-and-pop loop gives the canonical path of the place the path means |
| Paths.SplitJoin | internal/sshd/commands.go:444-461 | splitting undoes joining |
| Paths.CleanKeepsMeaning | internal/ftpd/handler.go:375-394 | cleaning a path does not change where it leads |
| Paths.CleanDecidesMeaning | internal/ftpd/handler.go:375-394 | two paths clean to the same string if and only if they lead to the same place |
| Paths.CanonicalExactly | internal/ftpd/handler.go:375-394 | the canonical paths are exactly the fixed points of cleaning, which is idempotent |
| Paths.CleanThrough | internal/ftpd/handler.go:375-394 | cleaning a prefix first changes nothing |
| FtpLaws.CwdComposes | internal/ftpd/handler.go:354-362 | "CWD a" then "CWD b" ends where "CWD a/b" ends, for non-empty a and relative b |
| FtpLaws.CwdComposesExactly | internal/ftpd/handler.go:354-362 | the b that compose with every non-empty a from everywhere are exactly the relative ones |
| FtpLaws.EmptyCwdComposesExactly | internal/ftpd/handler.go:354-362 | an empty a composes with every relative b exactly from directories that mean the root |
| FtpLaws.CdupIsCwdUp | internal/ftpd/handler.go:129-131 | CDUP does exactly what CWD ".." does, from any canonical directory |
| FtpLaws.CwdIsAWalk | internal/ftpd/handler.go:124-131 | after any commands the directory is the canonical path of the place reached by walking the CWD arguments and going up at each CDUP |
| FtpLaws.FieldsAreHistory | internal/ftpd/handler.go:91-135 | user name, login state and transfer type are those of the last USER, PASS and TYPE |
| FtpLaws.AlwaysTidy | internal/ftpd/handler.go:198-257 | in every reachable state the directory is canonical and at most one listener is open, the one in dataListen |
| FtpLaws.NothingLeftOpen | internal/ftpd/handler.go:70-74 | after close no listener the session ever opened is open |
| FtpLaws.StepAnswers | internal/ftpd/handler.go:85-304 | each command adds one final reply, 150 only before 226 or 425; exactly when each occurs; and a transfer uses the listener up |
| FtpLaws.OneFinalReplyPerCommand | internal/ftpd/handler.go:85-196 | over a session there are as many final replies as commands |
| FtpLaws.PassiveTextReads | internal/ftpd/handler.go:216-232 | a client reading the 227 text by section 4.1.2 of RFC 959 finds the address and the port |
| FtpLaws.PassivePortIsListening | internal/ftpd/handler.go:198-233 | that port is the one of an open listener |
| FtpLaws.OnlyPasvSays227 | internal/ftpd/handler.go:85-196 | no other command is answered 227 |
| FtpLaws.FailedPasvStillPromises | internal/ftpd/handler.go:199-207 | after a failed PASV over an old listener a transfer is still promised with 150 and then refused |
| FtpLaws.UploadsAreAnswered | internal/ftpd/handler.go:281-304 | an upload is handed on exactly when STOR was answered 226, and is at most the first 2^20 bytes |
| FtpWords.CwdByWords | internal/ftpd/handler.go:124-131 | whatever lines are typed, the directory is the canonical path of the place reached by walking the arguments of CWD and XCWD and going up at each CDUP; every other word stays |
| FtpWords.FieldsByWords | internal/ftpd/handler.go:91-135 | user name, login state and transfer type are those of the last USER, of the last USER or PASS, and of the last TYPE line |
| FtpWords.RepliesByWord | internal/ftpd/handler.go:85-304 | only PASV is answered 227; 150 comes exactly from LIST, NLST and STOR with a listener set, then 226 exactly with a data connection; an upload comes from STOR alone, a password from PASS, the end from QUIT |
| FtpWords.PasvByWord | internal/ftpd/handler.go:198-233 | PASV leaves a listener open on the port it announces, and announces one exactly when it could listen and knows the addresses |
| FtpWords.ListenerByWord | internal/ftpd/handler.go:140-257 | LIST, NLST, STOR and RETR close and forget the listener; PASV closes it and opens another; every other word leaves all listeners alone |
| FtpWords.SessionCodes | internal/ftpd/handler.go:91-191 | the replies to the words about the session |
| FtpWords.PlaceCodes | internal/ftpd/handler.go:118-174 | the replies to the words about directories |
| FtpWords.FileCodes | internal/ftpd/handler.go:143-182 | the replies to the words about files, none of which exists |
| FtpWords.DataCodes | internal/ftpd/handler.go:198-304 | the replies to the words about the data connection |
| FtpWords.UnknownWord | internal/ftpd/handler.go:191-193 | a word that is none of the 27 known ones changes nothing and is answered 502 |
| FtpHandler.FtpConn.Dispatch | internal/ftpd/handler.go:85-196 | the fields change, and the replies grow, as the state machine says; the directory is the argument's for CWD and XCWD, the parent for CDUP and else the old one; QUIT alone ends, PASS alone yields a password; a tidy connection stays tidy, and one final reply is added |
| FtpHandler.ParentFtpPath | internal/ftpd/handler.go:364-373 | the parent of a canonical path is what cleaning path/.. gives |
| FtpHandler.PassiveReply | internal/ftpd/handler.go:215-232 | the 227 text written number by number is one from which a client reads the address and the port |
| FtpHandler.FtpConn.OpenPasv | internal/ftpd/handler.go:198-233 | closes the old listener first, then opens, stores and announces a new one, with its three refusals |
| FtpHandler.FtpConn.AcceptData | internal/ftpd/handler.go:235-257 | takes at most one connection, none from a closed listener, and leaves the listener closed and forgotten |
| FakeFs.DirectoriesAreTree | internal/sshd/filesystem.go:43-62 | every directory key is canonical, and its parent is a directory too |
| FakeFs.DirectoriesExactly | internal/sshd/filesystem.go:43-184 | IsDir holds of exactly the 33 directories: no file overwrites one |
| FakeFs.DirectoriesListed | internal/sshd/filesystem.go:43-62 | path by path, the 33 directories |
| FakeFs.FilesListed | internal/sshd/filesystem.go:64-171 | path by path, the nine files |
| Shell.ResolvePath | internal/sshd/commands.go:417-441 | from a canonical directory the result is the reference path, and canonical, if and only if the path is not one of the uncleaned exceptions |
| Shell.ResolveExactly | internal/sshd/commands.go:417-441 | from a canonical directory the fast paths agree with cleaning cwd/path if and only if the path is not a relative one at the root with an empty, "." or ".." segment; and the result is canonical exactly then |
| Shell.ResolveHome | internal/sshd/commands.go:417-426 | an empty path and a tilde mean /root, a path behind a tilde is read from there |
| Shell.CdExactly | internal/sshd/commands.go:332-347 | cd goes to the directory the path means, and stays put if there is none or the path is one of the exceptions |
| Shell.CdHome | internal/sshd/commands.go:332-336 | cd alone goes to /root, and no other command moves |
| Shell.CwdAlwaysDirectory | internal/sshd/commands.go:332-347 | after any commands the working directory is a directory of the filesystem, hence canonical |
| Shell.CdUp | internal/sshd/commands.go:427-433 | "cd .." always succeeds and goes to the parent |
| Shell.UpsReachRoot | internal/sshd/commands.go:427-433 | as many "cd .." as the directory is deep lead to the root |
| Shell.TrailingSlashAtRoot | internal/sshd/commands.go:437-439 | "cd etc/" at the root goes nowhere, "cd ../etc/" from /root finds /etc |
| Shell.Context.Dispatch | internal/sshd/commands.go:29-104 | only cd changes the working directory, which it leaves silently or with its complaint; pwd prints the directory |
| Indicators.KeyInjective | internal/intel/ioc.go:216 | different indicators never share a key, because no type name has a colon |
| Indicators.ExtractBulk | internal/intel/ioc.go:207-242 | exactly one indicator per type and value sighted, with the count, earliest, latest, highest confidence, union of tags and first source of its sightings |
| Indicators.MergeUnique | internal/intel/ioc.go:244-257 | the union of two tag lists, each tag once, in any order |
| Indicators.SightCountsAddUp | internal/intel/ioc.go:217-233 | the sight counts add up to the number of sightings |
| Indicators.OrderDoesNotMatter | internal/intel/ioc.go:207-242 | permuting the events changes neither the indicators nor their figures, only the source and orders |
| Indicators.SourceSays | internal/intel/ioc.go:50-81 | an address is sighted unless it is empty, no address, loopback or private; as IPv4 or IPv6, at the event's time, graded by the event's type, tagged with its service |
| Indicators.ExploitTag | internal/intel/ioc.go:197-205 | the sighting is tagged as an exploit attempt exactly for an exploit |
| Store.Persist | internal/event/processor.go:192-207 | the two upserts are made independently, a call that fails does not stop the other, and whatever happens no indicator is stored |
| Store.AttackerRow | internal/store/pgx.go:500-506 | after any run of statements a row tallies its address's upserts: how many, how many connects, the first and last times, nothing else |
| Store.AttackerMerges | internal/store/pgx.go:500-506 | whatever rows one address is upserted with: the totals are sums, the score is the highest, the first time is the first row's, the last time and tags are the last row's, the tool family is the last one set |
| Store.NoIndicatorIsStored | internal/store/pgx.go:674-689 | after any statements the indicators table is empty, because every row comes with nil tags |
| Store.GuardedIocRow | internal/store/pgx.go:682-685 | with nil tags sent as an empty array, an address indicator would count its upserts, with confidence 50, the first time and the last |
| Store.IocMerges | internal/store/pgx.go:682-685 | whatever rows with tags one indicator is upserted with: one more sighting for each further row whatever count it carries, the highest confidence, the last row's time, all else the first row's |
| StoreOrder.IndicatorIsLost | internal/store/pgx.go:674-689 | one event from a public address: its attacker is stored, its indicator only with the guard |
| StoreOrder.AttackersInAnyOrder | internal/event/processor.go:192-198 | if the attacker upserts of some events reach the database, in whatever order and whatever becomes of the other calls, an address has as many events and sessions as the list has positions with its events and its connects |
| StoreOrder.IndicatorsCountExactly | internal/event/processor.go:200-207 | if the indicator upserts reach the database, the indicators of all public addresses count their events if and only if nil tags are sent as an empty array or there is no such event |
| StoreOrder.LastSeenIsLatestExactly | internal/store/pgx.go:501 | last_seen covers all events of an address over all runs that workers can make of them if and only if those events carry one timestamp |
| StoreOrder.TakenLast | internal/event/processor.go:192-207 | a single worker can store any of the events last, each attacker before its indicator |
| StoreOrder.InOrderEncloses | internal/store/pgx.go:500-502 | if the upserts of an address are executed in timestamp order, first_seen and last_seen enclose all its events |
| StoreOrder.LastSeenFollowsOrder | internal/store/pgx.go:501 | two events taken by a worker in either order give the same counts but different last_seen |
| StoreBulk.BulkCounts | internal/intel/ioc.go:39-81 | bulk extraction reports a public address if and only if it has events, and counts them all |
| StoreBulk.BulkAgreesExactly | internal/intel/ioc.go:207-242 | bulk extraction and the stored indicators agree on all public addresses if and only if nil tags are sent as an empty array or there is no such event |
| SessionLife.RecordsAreHistory | internal/session/tracker.go:44-161 | over every schedule a session is in the map exactly while it is live, and its record is exactly what was done: service, address and time of its Start, and the increments, logins, techniques and end made while it was live |
| SessionLife.TechniquesAreDistinct | internal/session/tracker.go:142-161 | techniques are those added while live, each once |
| SessionLife.EndedIsFinal | internal/session/tracker.go:79-161 | a session that has ended is never changed again |
| SessionLife.CountBalances | internal/session/tracker.go:163-167 | the count is the number of starts less the number of Ends that succeeded |
| SessionLife.EndsOnce | internal/session/tracker.go:79-98 | however many Ends race, a started session is live or was ended exactly once |
| SessionLife.HookOnce | internal/session/tracker.go:93-95 | the callback is made at most once per session, and only after its End |
| SessionLife.HookForEveryEnd | internal/session/tracker.go:73-98 | with the hook set from the outset every End that succeeded makes its callback |
| Tracker.Tracker.Start | internal/session/tracker.go:44-71 | registers a new session object under its fresh identifier, with the service, address and time given and everything else unset |
| Tracker.Tracker.End | internal/session/tracker.go:79-98 | stamps, removes and returns the session and makes the callback, or does nothing |
| Tracker.Tracker.AddTechnique | internal/session/tracker.go:142-161 | the search loop adds a technique only if the active session lacks it |
| Tracker.Tracker.Active | internal/session/tracker.go:106-115 | lists each active session once |

## Left out

- The SMB and SSH byte decoders, `ListDir` and `cmdLS`: local parsing and formatting; the number that a short
  `ls` prints from the `total` line is therefore not part of this model.
- Substring tables of the command classifier: an event carries their verdicts as parameters.
- `encoding/json`, regular expressions, `net.ParseIP`, GeoIP and UUIDs: their results are parameters.
- Plain inserts (events, detections, credentials) and streaming to Redis.
- The GeoIP columns of an attacker row, and statements cut off by a cancelled context.
- Indicators.ExtractBulk: indicators are values in a map instead of shared references; each is made by Extract
  and held by one key only.
- RateLimitExact.EvictionInvisibleExactly: rates are one token per whole number of nanoseconds, which is how
  the server builds them; for other rates with readings apart there is the sufficient condition only.
- IPLimiter.IPLimiter.Allow: an entry is a value in the map instead of a reference; entries are never shared.
- MySqlServer.Serve: the loop's publishing and its command counter are not modelled here; the bus and the
  tracker have their own models.
- MySqlServer.HandleConnection: the rate-limit check, session tracking and publishing around the connection
  are not modelled here; the text of the greeting is a parameter, and trimming and upper-casing the
  query text are part of the `query` parameter.
- FtpHandler.FtpConn.Dispatch: the command word arrives split off and in upper case; replies are code and
  text, and the listing sent over the data connection is not modelled.
- Store.Persist: the plain inserts before the two upserts are not modelled.
- Tracker.Tracker.Start: the onStart callback, and the sensor and port fields that nothing reads back.
- Shell.Context.Dispatch: the input arrives split into fields, and the output of commands other than cd and
  pwd is a parameter.
- SessionLife.HookForEveryEnd: onStart, which Start calls in the same way, is not modelled.
- BusDelivery.SubscriberGets: parked receivers are served in any order, a superset of the runtime's FIFO order.
- Timing: that a parked worker is eventually scheduled is not modelled; progress is stated as a bound on moves
  together with the existence of a possible one.
