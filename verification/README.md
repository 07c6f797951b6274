# Verified model of the streaming radio bridge

The repository turns a small radio into a Spotify Connect speaker: a modified librespot engine
fetches and decrypts audio and keeps the play queue, and a bounded Ogg HTTP bridge serves the
audio to the radio's own player. This project models the parts whose correctness is hardest to
see from the code and proves, for all inputs, all runs or all interleavings, what they promise.

Each entity that the source updates in place is a class here whose methods are proved against
functions on values; the theorems are about those functions, over whole runs.

| modules | what they model |
|---|---|
| `OggPages`, `VorbisHeaders` | page framing (section 6 of RFC 3533) and the incremental header parser, against a reference that reassembles all packets first (sections 4.2.1 and 4.2.2 and appendix A of the Vorbis I specification) |
| `BridgeLoop`, `BridgeSafety`, `BridgeDelivery`, `BridgeResume`, `BridgePacing`, `BridgeTurn`, `BridgeInput`, `BridgeProcess` | the bridge's main loop as a state machine over environment events, what each client receives, and the loop itself |
| `RangeSets`, `FetchProtocol`, `FetchLoop` | interval sets as finite sets, and the concurrent ranged download (sections 14.2 and 15.3.7 of RFC 9110) as an event protocol |
| `PlayQueue`, `QueueOrder`, `QueueSupply`, `QueueInitial`, `QueueMoves`, `ConnectQueue` | the play queue, the order it plays in, what a refill brings, the order after a shuffle, what each operation shows, and the operations as loops |
| `Shuffling` | the reversible shuffle |
| `SpotifyIds`, `SpotifyUris`, `ApCodec`, `DiffieHellman` | base-62 ids by limbs, URIs, the packet codec, the key exchange |
| `PlayerMachine`, `PlayerReports`, `PlayerProcess`, `AudioReaders` | the player's states, sink and request ids, and the streaming-only reader stack (CTR mode, section 6.5 of NIST SP 800-38A) |
| `HandlerMaps`, `CacheLimiter` | the dealer's routing trie and the cache's size limiter |
| `Prelude`, `Sequences` | shared types, concatenation |

`dafny verify dfyconfig.toml` checks the project.

## What the code does where one might expect otherwise

- Appending to a shuffled vector disables unshuffling; `Shuffling.UnshuffleAfterAppend` has the exact condition.
- A payload above 65535 bytes is sent with a truncated length; `ApCodec.ConnectionRoundTrip` has the exact condition.
- A user, artist or title with a colon, a local duration with a fraction of a second, or an unknown kind does not survive `to_uri`; `SpotifyUris.UriRoundTrip` has the exact condition.
- Repeating an ended track with a failing seek leaves the player Invalid and ends the process (`PlayerMachine.TurnInvalidates`). Any load whose seek fails on a loaded or preloaded track has announced an id that the player then does not hold (`PlayerMachine.HoldsExactly`). Both have the exact condition.
- A load that fails does not count as a command: a track that is to be loaded again paused plays on (`PlayerReports.FailedLoadPlaysOn`; `PlayerReports.LoadIsObeyed` has the exact condition).
- A decoder that fails in mid-track reports the end of the track, but the player stays in `Playing`; `PlayerReports.ListenersKnow` has the exact condition.
- An empty CDN response ends the stream like its regular end, and after a failed read later reads report the end of the file; `AudioReaders.PayloadIsPrefix` has the exact condition.
- The comment on `SizeLimiter::add` explains its order of operations with an overflow; what the order prevents is an underflow.
- A client that connects before the first stream receives an empty body (`BridgeResume.EarlyClientGetsNothing`) and is closed by the first BOS page.
- `mark_unavailable` does not touch the context, so a marked track can be back in the buffer after the same call; `QueueSupply.MarkedStaysAway` has the exact condition.
- The third arm of the fill-up loop looks an index up in the autoplay context again; when it is reached, that lookup has just failed, so it always ends the loop.
- A fetch or a read position beyond the end of the file subtracts below zero in `download_range` and `pre_fetch_more_data`; the model reports `Underflow`, with the exact condition.
- A reset beyond the end of the context subtracts below zero when the current track stays, as a queued track or the initial one of a shuffle (`QueueOrder.ResetUnderflows` has the exact condition). The model reports `Underflow` there; a build without overflow checks would go on with an empty history.
- Every refill counts its passes from zero, so with repeat the initial track of a shuffle stays left out of later passes, unless a single refill runs over the end of a pass (`QueueInitial.LeftOutAgain`, `QueueInitial.BroughtBack`; `QueueSupply.FillAppends` is exact for every refill).

## Model

| member | source | states |
|---|---|---|
| `OggPages.FirstPage` | native/bridge/bridge.rs:18-34 | What is read as a page is a prefix of the input and at most 65307 bytes long. |
| `OggPages.PageSize` | native/bridge/bridge.rs:10 | No page in the format of section 6 of RFC 3533 exceeds 27 + 255 + 255 * 255 bytes. |
| `OggPages.FirstPageOutcome` | native/bridge/bridge.rs:18-34 | Each outcome in terms of the bytes: end of input exactly when nothing is left, a bad capture exactly when 27 bytes are there and the first five are not "OggS" and 0, a page exactly when some beginning of the input is one. |
| `OggPages.SplitIsLossless` | native/bridge/bridge.rs:18-34 | For every input, the pages followed by what is left are the input, byte for byte. |
| `OggPages.SplitInvertsConcat` | native/bridge/bridge.rs:139-146 | Any list of pages written one after the other, with any tail that is no page, is split exactly where it was joined. |
| `OggPages.Producer.NextPage` | native/bridge/bridge.rs:18-34 | The incremental reads give the page at the front of the input, and consume exactly it. |
| `OggPages.Producer.ReadAll` | native/bridge/bridge.rs:139-146 | The producer loop ends on every input and sends the whole split, stopping at the first non-page. |
| `VorbisHeaders.InputDecides` | native/bridge/bridge.rs:46-87 | For every sequence of pages, feeding them one at a time succeeds if and only if a reference that first reassembles all packets from the lacing values accepts: consecutive logical streams, each starting at a BOS page with one serial, three Vorbis headers of types 1, 3, 5, a sample rate in 1..=192000, the setup packet ending its page, header pages of at most 65536 bytes together. The cache is then the concatenation of the last stream's header pages. |
| `VorbisHeaders.ObserveAllDecides` | native/bridge/bridge.rs:46-87 | The same equivalence for one logical stream and any earlier parser state; the fields afterwards describe the reassembled packets. |
| `VorbisHeaders.NextPageDecides` | native/bridge/bridge.rs:46-87 | One more page of an accepted stream is accepted if and only if the longer stream is acceptable to the reference. |
| `VorbisHeaders.ScanTracks` | native/bridge/bridge.rs:59-81 | Scanning segments with a 16-byte prefix succeeds if and only if the packets reassembled in full are valid headers and the setup packet comes last. |
| `VorbisHeaders.OrdinaryStreamIsAccepted` | native/bridge/bridge.rs:46-87 | From any parser state, a BOS page with a literal identification packet followed by a page with literal comment and setup packets is accepted: both pages are cached, with their rate and serial. |
| `VorbisHeaders.CheckPacket` | native/bridge/bridge.rs:68-77 | The checks on the 16-byte prefix hold exactly for a packet of type 1 + 2 * index with the letters of "vorbis" and, for the first, a rate in 1..=192000 in bytes 12 to 15. |
| `VorbisHeaders.PageFields` | native/bridge/bridge.rs:47-48 | The BOS flag is bit 1 of byte 5 and the serial bytes 14 to 17, least significant first. |
| `VorbisHeaders.Headers.ObservePage` | native/bridge/bridge.rs:46-87 | The in-place parser returns the verdict, error and new fields of its specification. |
| `VorbisHeaders.Headers.ScanPage` | native/bridge/bridge.rs:59-81 | The segment loop never indexes outside the page and leaves the fields of the specification's scan. |
| `VorbisHeaders.Headers.ScanSegment` | native/bridge/bridge.rs:62-80 | One segment: prefix capped at 16 bytes, packet checks in their order. |
| `BridgeSafety.ServesOneStream` | native/bridge/bridge.rs:158-276 | In every run of the loop, for every client: the body is a prefix of the header pages of one single logical stream followed by consecutive later pages of it, in order, none skipped or repeated. All pages from the stream's first to the last one sent, the cut one included, have one BOS flag, on the first, and one serial. Pages between headers and audio are left out only if the replayed headers are complete. |
| `BridgeSafety.RunKeeps` | native/bridge/bridge.rs:147-276 | The invariant behind it over every run: the cache describes the current stream, the pending page is its last page, the live client has been sent everything taken since it connected. |
| `BridgeSafety.MarkerKeeps` | native/bridge/bridge.rs:159-171 | A loading marker, new or not, keeps that invariant; the body it cuts off is a faithful one. |
| `BridgeSafety.AcceptKeeps` | native/bridge/bridge.rs:172-188 | A new client starts up to date: the cached headers are those of the current stream, and only audio that others were sent is missing. A replay that is cut leaves a faithful body. |
| `BridgeSafety.BosKeeps` | native/bridge/bridge.rs:203-215 | A BOS page starts a stream of its own, with no client and nothing pending from the old one. |
| `BridgeSafety.WriteKeeps` | native/bridge/bridge.rs:255-269 | Every outcome of a write keeps what the client received in step with the pages taken and the offset. |
| `BridgeTurn.MarkerCutsOff` | native/bridge/bridge.rs:159-171 | In every run, from a new loading marker on: no client that was there before receives another byte, and every later client has streamed nothing, or only pages behind a BOS page taken after the marker. |
| `BridgeTurn.MarkerIsRemembered` | native/bridge/bridge.rs:160-162 | In every run the marker stays the last one until another is read, so that reading it again changes nothing. |
| `BridgeTurn.TurnDiscards` | native/bridge/bridge.rs:159-204 | A turn leaves the loop discarding exactly if it did before or reads a new marker, and takes no BOS page. |
| `BridgeTurn.TurnStops` | native/bridge/bridge.rs:172-237 | A turn ends the loop exactly when the listener fails without a client, the producer ends or fails with nothing pending, or the parser refuses the page that is not passed over. |
| `BridgeTurn.TurnTakes` | native/bridge/bridge.rs:195-204 | A turn takes the page that arrived exactly when nothing is pending. |
| `BridgeTurn.TurnAccepts` | native/bridge/bridge.rs:172-188 | A turn adds a connection exactly when nobody is connected and one is accepted; it is sent the cached headers, as far as the socket takes them, and starts at the waiting page or the next. |
| `BridgeTurn.TurnDrops` | native/bridge/bridge.rs:159-269 | With a page pending, the client is lost in a turn exactly by a new marker or a failed write of a page that is not held back. |
| `BridgeTurn.TurnDropsIdle` | native/bridge/bridge.rs:159-237 | With nothing pending and no page for it, a client is lost only by a new marker. |
| `BridgeTurn.BosCloses` | native/bridge/bridge.rs:205-215 | A BOS page that is taken leaves no client and nothing pending. |
| `BridgeTurn.WritesExactly` | native/bridge/bridge.rs:238-270 | A page is written exactly when it is not held back, by exactly the bytes the socket takes; the page goes when it is complete, or with its client if it was a header page. |
| `BridgeTurn.HeldBackExactly` | native/bridge/bridge.rs:239-254 | A page is held back exactly when it is paced, nothing of it is written and (granule - base) * 1000 / rate, less 3000 ms, is not below the elapsed time. |
| `BridgeTurn.TurnWrites` | native/bridge/bridge.rs:238-270 | A turn with a client, a pending page and no new marker is that write. |
| `BridgeTurn.TurnWritesArrival` | native/bridge/bridge.rs:195-270 | So is a turn in which a page arrives for the client: its first write follows at once. |
| `BridgeLoop.GranuleBytes` | native/bridge/bridge.rs:241 | The granule position is bytes 6 to 13, least significant first. |
| `BridgeInput.TakesInput` | native/bridge/bridge.rs:138-146 | In every run that the producer feeds, what the loop has taken are the first pages of the split input, in order. |
| `BridgeInput.StreamsInput` | native/bridge/bridge.rs:138-276 | End to end, for every input and every run: the headers replayed to a client and what it is streamed are each a contiguous part of standard input. |
| `BridgeResume.EarlyClientGetsNothing` | native/bridge/bridge.rs:172-188 | In every run, a client that connected before there were any headers received an empty body. |
| `BridgeDelivery.LosesNoAudio` | native/bridge/bridge.rs:189-237 | In every run, within one stream and without a loading marker, no page is taken before every earlier audio page was written whole to some client. |
| `BridgeDelivery.PendingPage` | native/bridge/bridge.rs:159-171 | In every run: discarding implies nothing is pending, no client implies offset 0, a pending audio page implies complete headers and a rate in 1..=192000 (so the pacing division is defined), and a pending header page is the last page in the replay cache. |
| `BridgeResume.NoPageSentTwice` | native/bridge/bridge.rs:172-188 | In every run, a later client is sent nothing before the page at which an earlier one stopped, so no page is written whole to two clients. |
| `BridgeResume.EachPageSentOnce` | native/bridge/bridge.rs:189-269 | In every run, within one stream and without a loading marker, each audio page before the pending one was written whole to exactly one client. |
| `BridgeResume.ResumesInterruptedPage` | native/bridge/bridge.rs:262-268 | In every run, when an audio page waits without a client, then after any number of rejected connections and replays cut short, the next client is sent the cached headers and that page from its first byte. |
| `BridgeResume.ResumesAfterBreak` | native/bridge/bridge.rs:255-269 | In every run, after a failed write of an audio page and any number of rejected connections and replays cut short, the next client is sent the cached headers and goes on exactly at the page where the interrupted one stopped, from its first byte. |
| `BridgeResume.PageWaits` | native/bridge/bridge.rs:191-194 | While nobody gets as far as the audio, a waiting page and all else but the list of past clients stay as they are. |
| `BridgePacing.KeepsPace` | native/bridge/bridge.rs:239-254 | In every run each connection keeps one timeline, and every paced page begun on it has (granule - base) * 1000 / rate below elapsed + 3000 ms, the product within 64 bits; epoch and elapsed time are two readings of the clock. |
| `BridgePacing.KeepsOwnTimeline` | native/bridge/bridge.rs:180-243 | In every run, each connection's timeline has the granule of its own first paced page as its base. |
| `BridgePacing.FirstPageStartsAtOnce` | native/bridge/bridge.rs:243-252 | The page that sets a timeline starts in the same iteration exactly when the clock has moved on between the two readings. |
| `BridgePacing.CountsForwarded` | native/bridge/bridge.rs:256-259 | In every run the forwarded counter is the sum of the bytes streamed to all clients. |
| `BridgeProcess.Bridge.HandlePage` | native/bridge/bridge.rs:195-230 | Over the in-place header parser: goes on unless the parser rejects the page, and keeps every invariant of the run theorems. |
| `BridgeProcess.Bridge.Iterate` | native/bridge/bridge.rs:158-275 | One turn, in place, is one step of the state machine, and leaves every client so far served faithfully, paced and counted. |
| `BridgeProcess.Bridge.Serve` | native/bridge/bridge.rs:147-276 | The whole loop, for whatever the environment does, is the run that the theorems are about. |
| `RangeSets.CanonicalIsUnique` | native/librespot/audio/src/range_set.rs:30-32 | Two sorted lists of non-empty, non-touching ranges with the same elements are equal. |
| `RangeSets.TotalLengthIsCardinality` | native/librespot/audio/src/range_set.rs:55-57 | The sum of the lengths is the cardinality of the set. |
| `RangeSets.RunLengthIsUnique` | native/librespot/audio/src/range_set.rs:78-87 | At most one number is the length of the run of elements at a value. |
| `RangeSets.RangeSet.IsEmpty` | native/librespot/audio/src/range_set.rs:51-53 | Empty list if and only if empty set. |
| `RangeSets.RangeSet.Len` | native/librespot/audio/src/range_set.rs:55-57 | The cardinality of the set. |
| `RangeSets.RangeSet.Contains` | native/librespot/audio/src/range_set.rs:67-76 | Membership, both ways. |
| `RangeSets.RangeSet.ContainedLengthFromValue` | native/librespot/audio/src/range_set.rs:78-87 | The longest run of consecutive elements that starts at the value. |
| `RangeSets.RangeSet.ContainsRangeSet` | native/librespot/audio/src/range_set.rs:90-97 | Subset, both ways. |
| `RangeSets.RangeSet.AddRange` | native/librespot/audio/src/range_set.rs:99-133 | Set union with the interval, canonical again; an empty range changes nothing. |
| `RangeSets.RangeSet.MergeAt` | native/librespot/audio/src/range_set.rs:111-128 | Merging all ranges the new one touches keeps the list canonical and adds exactly the interval. |
| `RangeSets.RangeSet.AddRangeSet` | native/librespot/audio/src/range_set.rs:136-140 | Set union. |
| `RangeSets.RangeSet.Union` | native/librespot/audio/src/range_set.rs:143-147 | A new set that is the union; both arguments unchanged. |
| `RangeSets.RangeSet.SubtractRange` | native/librespot/audio/src/range_set.rs:149-195 | Set difference with the interval, canonical again. |
| `RangeSets.RangeSet.RemoveAtFront` | native/librespot/audio/src/range_set.rs:160-175 | Whole ranges and a front overlap are removed exactly. |
| `RangeSets.RangeSet.PunchHole` | native/librespot/audio/src/range_set.rs:176-189 | A range around the interval is split into its two remainders. |
| `RangeSets.RangeSet.TruncateAt` | native/librespot/audio/src/range_set.rs:190-193 | A range that reaches into the interval is cut at its start. |
| `RangeSets.RangeSet.SubtractRangeSet` | native/librespot/audio/src/range_set.rs:197-201 | Set difference. |
| `RangeSets.RangeSet.Minus` | native/librespot/audio/src/range_set.rs:203-207 | A new set that is the difference; both arguments unchanged. |
| `RangeSets.RangeSet.Intersection` | native/librespot/audio/src/range_set.rs:209-242 | The two-index walk yields the canonical set intersection. |
| `FetchProtocol.RequestedIsConserved` | native/librespot/audio/src/fetch/receive.rs:38-152 | For every interleaving of requests, bodies, task ends and channel reads: `requested` is, counted with multiplicity, the disjoint union of downloaded bytes, bytes in the channel and bytes owed by tasks. |
| `FetchProtocol.PendingBytesCounted` | native/librespot/audio/src/fetch/receive.rs:491-502 | In every interleaving, the length of requested minus downloaded is exactly the number of bytes in the channel and in flight. |
| `FetchProtocol.NothingAskedTwice` | native/librespot/audio/src/fetch/receive.rs:194-235 | No request ever covers a byte that is in the channel or in flight. |
| `FetchProtocol.FailedTailIsRequestable` | native/librespot/audio/src/fetch/receive.rs:128-139 | When a task ends early, exactly what it still owed becomes requestable, and can be asked for at once. |
| `FetchProtocol.CompletesExactly` | native/librespot/audio/src/fetch/receive.rs:356-385 | The file is handed over if and only if everything is downloaded, and is then the remote file. |
| `FetchProtocol.ReadsRemoteBytes` | native/librespot/audio/src/fetch/mod.rs:587-635 | Any downloaded interval of the output is the same interval of the remote file. |
| `FetchLoop.AudioFileFetch.constructor` | native/librespot/audio/src/fetch/receive.rs:422-463 | The state right after the first response, as every protocol run starts. |
| `FetchLoop.AudioFileFetch.DownloadRange` | native/librespot/audio/src/fetch/receive.rs:178-235 | Asks for exactly what is neither requested nor downloaded of an interval that starts at the offset and is as long as the largest of the length, the minimum size and the streaming throughput, cut at the end of the file; a refused request leaves the earlier ones asked. Underflows if and only if the offset is beyond the file. A legal step of the protocol that keeps its invariant. |
| `FetchLoop.AudioFileFetch.Request` | native/librespot/audio/src/fetch/receive.rs:211-234 | The request loop adds precisely the ranges before the first refused one, each with its task. |
| `FetchLoop.AudioFileFetch.PreFetchMoreData` | native/librespot/audio/src/fetch/receive.rs:237-274 | Asks for the first missing byte after the read position, or else the first missing byte of the file, and for nothing before it or further on than the bytes wanted, the minimum or the throughput; asks nothing when nothing is missing. Underflows if and only if the read position is beyond the file. |
| `FetchLoop.AudioFileFetch.FirstMissing` | native/librespot/audio/src/fetch/receive.rs:239-273 | Through three range sets: the least missing byte after the read position, or else of the file; none if and only if nothing is missing. |
| `FetchLoop.AudioFileFetch.TaskEnds` | native/librespot/audio/src/fetch/receive.rs:118-139 | Gives back exactly the bytes that were not received, and keeps every requested byte accounted for once. |
| `FetchLoop.AudioFileFetch.HandleFileData` | native/librespot/audio/src/fetch/receive.rs:356-385 | Stores the chunk, and completes if and only if the run of downloaded bytes from 0 reaches the file size. |
| `FetchLoop.AudioFileFetch.BytesPending` | native/librespot/audio/src/fetch/receive.rs:491-502 | The number computed through two range sets is the number of bytes in the channel and in flight. |
| `FetchLoop.AudioFileFetch.Act` | native/librespot/audio/src/fetch/receive.rs:465-516 | Whatever another thread does, closing included, it is a legal run of the protocol and keeps its invariant; a body, the end of a task and a stored chunk are their events; the loop ends when a request cannot be sent. |
| `FetchLoop.AudioFileFetch.HandleFetch` | native/librespot/audio/src/fetch/receive.rs:390-402 | After a fetch command that is not refused, every byte of its range inside the file is requested or downloaded. |
| `FetchLoop.Reach` | native/librespot/audio/src/fetch/receive.rs:179-194 | The length asked for is the largest of length, minimum and throughput, or ends at the end of the file. |
| `FetchLoop.ReadReach` | native/librespot/audio/src/fetch/mod.rs:572-585 | A read reaches over the bytes wanted and the read-ahead, or to the end of the file. |
| `FetchLoop.AudioFileStreaming.Wanted` | native/librespot/audio/src/fetch/mod.rs:587-602 | A read asks for exactly what of its reach is neither downloaded nor requested. |
| `FetchLoop.AudioFileStreaming.Wait` | native/librespot/audio/src/fetch/mod.rs:610-625 | For every behaviour of the other threads, the waiting loop ends, with a legal run of the protocol behind it; it succeeds exactly when the byte was there at its last look, and at once when it was there before; a timeout counts even if the byte arrives during it. |
| `FetchLoop.AudioFileStreaming.Read` | native/librespot/audio/src/fetch/mod.rs:564-635 | For every behaviour of the other threads: it asks for exactly what is neither requested nor downloaded of the bytes wanted and the read-ahead, cut at the end of the file, so that the byte at the position is there or on its way. It returns the remote file's next bytes, as many as wanted or until the first one missing, and moves by them; nothing exactly at the end or for an empty buffer; a closed channel exactly when it must ask and the loop has ended; a timeout only if the byte was not there. |
| `FetchLoop.StreamLoaderController.RangeAvailable` | native/librespot/audio/src/fetch/mod.rs:171-185 | True if and only if every position of the range is downloaded, or inside the file when it is local; underflows if and only if a local range starts beyond the file. |
| `QueueOrder.ResetPlaysInOrder` | native/librespot/connect/src/state.rs:396-434 | After a reset to position i, any number of `next_track` calls plays the leading queued tracks, then the available context tracks after i in order, each once, then autoplay, or with repeat the context round and round. |
| `QueueOrder.PlaysUpcoming` | native/librespot/connect/src/state/tracks.rs:105-163 | Every run of `next_track` plays exactly the reference order, one track per call, and stops only when nothing is left. |
| `QueueOrder.BufferIsWindow` | native/librespot/connect/src/state/tracks.rs:295-364 | At every point of a run, the buffer without its delimiters is exactly the next window of the reference, and is full unless nothing else is left. |
| `QueueOrder.NextTrackPlays` | native/librespot/connect/src/state/tracks.rs:105-163 | One call plays the first upcoming track and leaves the rest as the future; it reports none only if nothing is upcoming. |
| `QueueOrder.FillKeeps` | native/librespot/connect/src/state/tracks.rs:295-364 | Filling the buffer neither loses, repeats nor reorders a track of the future, through repeats and the autoplay hand-over. |
| `QueueOrder.FillStocks` | native/librespot/connect/src/state/tracks.rs:295-364 | Filling ends with 80 entries or with all remaining tracks in the buffer, and never puts two delimiters in a row unless nothing can be played between them. |
| `QueueOrder.FillEnds` | native/librespot/connect/src/state/tracks.rs:295-364 | For every queue at all (empty context, all tracks unavailable, repeat, hand-over), the loop ends, full or with the fill-up context exhausted; entries are only appended. |
| `QueueOrder.CycleIsPeriodic` | native/librespot/connect/src/state/tracks.rs:302-307 | The repeated reference has the period of the context's playable tracks. |
| `QueueOrder.ResetUnderflows` | native/librespot/connect/src/state.rs:396-434 | A reset subtracts below zero if and only if the context exists, the current track stays (it is queued, or the initial track of a shuffle) and the position is beyond the end; it finds no track if and only if the track does not stay and the position is at or beyond the end. |
| `QueueOrder.ResetBeyondEnd` | native/librespot/connect/src/state.rs:412-415 | Inputs where it does: a context of one track, that track playing as initial or queued track, position 2. |
| `QueueMoves.ResetShows` | native/librespot/connect/src/state.rs:396-434 | For every queue and position of a successful reset: the track at the position is the current one, or the one that stays; the position is reported; the history is the at most ten tracks before it, oldest first; the buffer begins with the queued tracks. |
| `QueueMoves.FailedResetShows` | native/librespot/connect/src/state.rs:396-434 | A failed reset reports the position, moves the context's index if there is one, clears the history only if it underflows, and changes no track and no buffer. |
| `QueueMoves.NextTrackShows` | native/librespot/connect/src/state/tracks.rs:105-163 | The first playable entry plays and what is before it goes; the history gets the old track, if it came from a context, and the delimiters passed, and keeps ten; the reported position is the new track's, if it comes from the context; autoplay becomes active with its first track. |
| `QueueMoves.NothingNext` | native/librespot/connect/src/state/tracks.rs:131-134 | With nothing playable buffered, none is reported and no track is current. |
| `QueueMoves.PrevTrackShows` | native/librespot/connect/src/state/tracks.rs:170-222 | The last track of the history behind at most one delimiter plays; the delimiter and the old track, if it came from a context, come first in the buffer, which is cut at 80; the position goes down by one, not below 0; a context track makes the context active. |
| `QueueMoves.NothingBefore` | native/librespot/connect/src/state/tracks.rs:195-199 | Without a track in the history, none is reported and no track is current. |
| `QueueMoves.PrevUndoesNext` | native/librespot/connect/src/state/tracks.rs:105-222 | Between two tracks of a context, with room in the history: going on and back, the track that was playing plays again with the same history, and the buffer begins as before. |
| `QueueMoves.AddToQueueShows` | native/librespot/connect/src/state/tracks.rs:425-449 | The added track lands behind the queued ones at the front and before everything else, marked and named as queued; the rest keeps its order and the buffer is cut at 80. |
| `QueueMoves.DecimalIsInjective` | native/librespot/connect/src/state/tracks.rs:426 | Two added tracks never get the same uid. |
| `QueueMoves.NotQueuedKeeps` | native/librespot/connect/src/state/tracks.rs:274 | Exactly the tracks that are not queued stay, in order. |
| `QueueMoves.ClearQueueShows` | native/librespot/connect/src/state/tracks.rs:273-278 | After clearing the queue the buffer begins with those, and besides the refill nothing changes. |
| `QueueMoves.ClearNextShows` | native/librespot/connect/src/state/tracks.rs:280-293 | Exactly the queued tracks at the front stay. |
| `QueueMoves.WithoutUriKeeps` | native/librespot/connect/src/state/tracks.rs:400-417 | Exactly the entries with another uri stay, in order. |
| `QueueMoves.MarkShows` | native/librespot/connect/src/state/tracks.rs:395-423 | Marking changes the history and the buffer that way before the refill, records the uri, and leaves track and position alone. |
| `QueueMoves.PlayablesKeeps` | native/librespot/connect/src/state/tracks.rs:120-129 | The reference order leaves out exactly delimiters and unavailable tracks. |
| `QueueSupply.FillAppends` | native/librespot/connect/src/state/tracks.rs:295-364 | For every queue, what is appended is exactly the supply of the contexts that there is room for: available, unskipped tracks from the fill position, with a delimiter before each repetition and before autoplay. |
| `QueueSupply.MarkedStaysAway` | native/librespot/connect/src/state/tracks.rs:395-423 | After marking, the track is gone from the history, and gone from the buffer if and only if none of the entries supplied for the refill carries its uri. |
| `QueueSupply.MarkedComesBack` | native/librespot/connect/src/state/tracks.rs:395-423 | The input where it is not: the only track of a context, not buffered yet, is back in the buffer after the same call. |
| `QueueInitial.ShufflePlaysOthers` | native/librespot/connect/src/state/options.rs:84-102 | After a shuffle from a track and a reset, not repeating: any number of `next_track` calls plays the leading queued tracks, then the available tracks after the position in order, the initial track left out, then autoplay. |
| `QueueInitial.MaskNextTrack` | native/librespot/connect/src/state/context.rs:386-397 | Leaving the initial track out is indistinguishable, call by call, from a context in which it is unavailable. |
| `QueueInitial.LeftOutAgain` | native/librespot/connect/src/state/tracks.rs:296-298 | With repeat: a refill that starts at the top of the context leaves the initial track out, in whatever pass. |
| `QueueInitial.BroughtBack` | native/librespot/connect/src/state/tracks.rs:302-307 | With repeat: a refill that runs over the end of a pass brings the initial track back. |
| `ConnectQueue.LimitsHold` | native/librespot/connect/src/state.rs:40-41 | Over every sequence of operations, failed ones included, `next_tracks` stays within 80 and `prev_tracks` within 10, if a queue set from outside does. |
| `ConnectQueue.ConnectState.FillUpNextTracks` | native/librespot/connect/src/state/tracks.rs:295-364 | The loop terminates by a lexicographic measure and leaves the queue of the specification; without a context nothing changes. |
| `ConnectQueue.ConnectState.MoveToNext` | native/librespot/connect/src/state/tracks.rs:105-163 | Reply and queue of the specification, also when it fails half way; the limits of 80 and 10 stay. |
| `ConnectQueue.ConnectState.TakePlayable` | native/librespot/connect/src/state/tracks.rs:120-129 | Takes entries up to the first playable one; delimiters go to the history, unavailable tracks vanish. |
| `ConnectQueue.ConnectState.MoveToPrev` | native/librespot/connect/src/state/tracks.rs:170-222 | Reply and queue of the specification: track back in front, delimiter moved, fill-up, position reduced but not below 0; the limits stay. |
| `ConnectQueue.ConnectState.GoBack` | native/librespot/connect/src/state/tracks.rs:171-198 | The buffer takes back the track and a delimiter and is cut to 80. |
| `ConnectQueue.ConnectState.TrimNext` | native/librespot/connect/src/state/tracks.rs:196-198 | Cuts the tail to 80 entries and keeps the front. |
| `ConnectQueue.ConnectState.ClearNextTracks` | native/librespot/connect/src/state/tracks.rs:280-293 | Keeps exactly the leading queued tracks. |
| `ConnectQueue.ConnectState.RemoveQueued` | native/librespot/connect/src/state/tracks.rs:273-278 | Removes all queued tracks, keeps the others in order, and refills. |
| `ConnectQueue.ConnectState.Enqueue` | native/librespot/connect/src/state/tracks.rs:425-449 | The track goes behind the leading queued ones; the buffer is cut to 80. |
| `ConnectQueue.ConnectState.MarkAsUnavailable` | native/librespot/connect/src/state/tracks.rs:395-423 | Both lists lose every entry with the uri and nothing else, then the buffer is refilled; the uri is in the buffer afterwards if and only if the refill supplies it again. |
| `ConnectQueue.ConnectState.ResetPlayback` | native/librespot/connect/src/state.rs:396-434 | For every position: which track is current, what position and history are shown, the exact condition for the underflow, and what a failed reset has changed. |
| `ConnectQueue.ConnectState.FillPrevTracks` | native/librespot/connect/src/state.rs:412-428 | The history is the at most ten tracks before the position, oldest first. |
| `Shuffling.EveryRun` | native/librespot/connect/src/shuffle_vec.rs:63-109 | After every run of shuffles and unshuffles, with any draws and preferences: a permutation of the original, unshuffling restores it exactly, reshuffling equals shuffling the original. |
| `Shuffling.UnshuffleRestores` | native/librespot/connect/src/shuffle_vec.rs:92-109 | Undoing the recorded swaps in reverse gives the original order. |
| `Shuffling.MatchComesFirst` | native/librespot/connect/src/shuffle_vec.rs:86-89 | If any element matches, a matching one ends up at index 0. |
| `Shuffling.OneTransposition` | native/librespot/connect/src/shuffle_vec.rs:86-89 | The preference changes the shuffle by at most one transposition with index 0. |
| `Shuffling.EveryOrderIsReachable` | native/librespot/connect/src/shuffle_vec.rs:73-83 | For every reordering of the items there are draws that shuffle them into it. |
| `Shuffling.AppendedIsNotUndone` | native/librespot/connect/src/shuffle_vec.rs:103-107 | With elements appended after a shuffle, unshuffling undoes only the move to the front. |
| `Shuffling.UnshuffleAfterAppend` | native/librespot/connect/src/shuffle_vec.rs:103-107 | So the original order comes back if and only if nothing was appended or the swaps had moved nothing. |
| `Shuffling.AppendBreaksUnshuffle` | native/librespot/connect/src/shuffle_vec.rs:103-107 | An input where it does not: 1, 2 shuffled by one swap, then 3 appended, unshuffles to 2, 1, 3. |
| `Shuffling.ShuffleVec.ShuffleWithDraws` | native/librespot/connect/src/shuffle_vec.rs:63-90 | The in-place shuffle leaves the vector of the specification, after unshuffling first; short vectors are untouched. |
| `Shuffling.ShuffleVec.FindFirst` | native/librespot/connect/src/shuffle_vec.rs:86 | A matching position before which nothing matches, or none if nothing matches. |
| `Shuffling.ShuffleVec.UnshuffleItems` | native/librespot/connect/src/shuffle_vec.rs:92-109 | The loop undoes what the specification undoes, stopping at a missing draw. |
| `SpotifyIds.ToBase62` | native/librespot/core/src/spotify_id.rs:100-138 | For every 128-bit id the limb algorithm writes the plain 22-digit base-62 expansion. |
| `SpotifyIds.AddLimb` | native/librespot/core/src/spotify_id.rs:116-130 | One outer turn turns the digits' number N into 2^32 * N + limb, within 22 digits. |
| `SpotifyIds.MultiplyAdd` | native/librespot/core/src/spotify_id.rs:119-123 | The first inner loop multiplies the digits so far by 2^32 and adds the limb, up to a carry below 2^32. |
| `SpotifyIds.CarryFits` | native/librespot/core/src/spotify_id.rs:120-122 | The carry never overflows 64 bits. |
| `SpotifyIds.AppendCarry` | native/librespot/core/src/spotify_id.rs:125-129 | The second inner loop writes the carry as further digits and never passes index 22. |
| `SpotifyIds.FromBase62` | native/librespot/core/src/spotify_id.rs:56-75 | Accepts exactly the 22-digit base-62 strings with a value below 2^128, and returns that value. |
| `SpotifyIds.DecodeEncoded` | native/librespot/core/src/spotify_id.rs:56-75 | Decoding the encoding of any id gives the id. |
| `SpotifyIds.EncodeDecoded` | native/librespot/core/src/spotify_id.rs:100-138 | Encoding what was decoded from any accepted string gives the string. |
| `SpotifyIds.DigitTable` | native/librespot/core/src/spotify_id.rs:30 | The digits are 0 to 9, a to z, A to Z in this order. |
| `SpotifyIds.ExpansionDigit` | native/librespot/core/src/spotify_id.rs:131-135 | The digit of weight 62^j, n / 62^j mod 62, stands j places from the end. |
| `SpotifyUris.UriRoundTrip` | native/librespot/core/src/spotify_uri.rs:121-219 | `from_uri(to_uri(u))` is `u` if and only if no user, artist, album, title or unknown name holds a colon, a local duration has no part below a second and an unknown kind is spelled "unknown". |
| `SpotifyUris.TextForms` | native/librespot/core/src/spotify_uri.rs:206-219 | How the URIs of the six kinds with an id are written, a playlist's with and without its user. |
| `SpotifyUris.ParsesKinds` | native/librespot/core/src/spotify_uri.rs:121-196 | What is read from a kind and a name: for the six known kinds the id or an error exactly when it is none, for others an unknown URI. |
| `SpotifyUris.RootDecides` | native/librespot/core/src/spotify_uri.rs:121-135 | The root is refused exactly when the text is neither "spotify" nor begins with "spotify:". |
| `SpotifyUris.ParsedComponents` | native/librespot/core/src/spotify_uri.rs:121-196 | Whatever is parsed, from any text, has no separator in its components and a duration of whole seconds. |
| `SpotifyUris.UnknownKindIsLost` | native/librespot/core/src/spotify_uri.rs:206-219 | A URI of unknown kind always comes back with the kind "unknown", its name cut at the first colon. |
| `SpotifyUris.HalfSecondIsLost` | native/librespot/core/src/spotify_uri.rs:98-106 | A local file of one and a half seconds comes back as one second. |
| `ApCodec.ConnectionRoundTrip` | native/librespot/core/src/connection/codec.rs:49-110 | For every packet sequence and every chunking of its encoding, decoding yields exactly those packets if and only if every payload has at most 65535 bytes; nothing is left over and both nonces equal the packet count. |
| `ApCodec.ChunksDoNotMatter` | native/librespot/core/src/connection/codec.rs:75-110 | For any bytes, genuine or not, the decoded packets and the verdict do not depend on how the bytes were cut. |
| `ApCodec.StreamDecodes` | native/librespot/core/src/connection/codec.rs:75-110 | Encoded packets decode to themselves with nonces in lock-step, from any starting nonce. |
| `ApCodec.OversizedIsLost` | native/librespot/core/src/connection/codec.rs:55 | A sequence with an oversized payload is never decoded as sent. |
| `ApCodec.MacDecides` | native/librespot/core/src/connection/codec.rs:97-106 | A packet is accepted with its own MAC and rejected with any other four bytes; either way exactly it is consumed. |
| `ApCodec.PacketLayout` | native/librespot/core/src/connection/codec.rs:49-68 | Under its own nonce a packet decrypts to command, big-endian length and payload, followed by the MAC of that state. |
| `ApCodec.NoncesCount` | native/librespot/core/src/connection/codec.rs:60-61 | The k-th packet of a connection is encoded under nonce k. |
| `ApCodec.EncryptOne` | native/librespot/core/src/connection/codec.rs:63 | Encryption and decryption go byte by byte through the cipher. |
| `ApCodec.ShortIsKept` | native/librespot/core/src/connection/codec.rs:77 | Fewer bytes than a header are left alone. |
| `ApCodec.Codec.EncodePacket` | native/librespot/core/src/connection/codec.rs:49-68 | Appends the packet encrypted under the current nonce, and moves the nonce on. |
| `ApCodec.Codec.DecodePacket` | native/librespot/core/src/connection/codec.rs:75-110 | Reply, decoder state and remaining buffer of the specification, over both states of the decoder; a nonce is needed only to read a header. |
| `DiffieHellman.Powm` | native/librespot/core/src/diffie_hellman.rs:21-36 | Square-and-multiply returns b^e mod m for every b and e and every m > 1. |
| `DiffieHellman.BothOrders` | native/librespot/core/src/diffie_hellman.rs:43-66 | Raising to the two private keys, with a reduction in between, gives g^(ab) mod m in either order. |
| `DiffieHellman.ToBytesBe` | native/librespot/core/src/diffie_hellman.rs:55-57 | The shortest non-empty big-endian bytes of the number; reading them back gives it. |
| `DiffieHellman.ByteOrder` | native/librespot/core/src/diffie_hellman.rs:44-66 | A byte in front weighs 256^n on the wire and 1 in the random bytes. |
| `DiffieHellman.NewKeys` | native/librespot/core/src/diffie_hellman.rs:43-53 | The public key is 2^private modulo the prime of section 6.1 of RFC 2409. |
| `DiffieHellman.SharedSecret` | native/librespot/core/src/diffie_hellman.rs:59-66 | The bytes of remote^private modulo the prime, for any remote bytes. |
| `DiffieHellman.Exchange` | native/librespot/core/src/diffie_hellman.rs:43-66 | For any random bytes on both sides, both end with the same secret bytes. |
| `PlayerMachine.SinkAlwaysReleased` | native/librespot/playback/src/player.rs:1651-1795 | In every run of commands and polls, Stopped or Paused implies the sink is Closed. |
| `PlayerMachine.StartsAtMostOnce` | native/librespot/playback/src/player.rs:1609-1641 | In every run each request id starts playback at most once and emits at most one TimeToPreloadNextTrack. |
| `PlayerReports.DoesAsTold` | native/librespot/playback/src/player.rs:1739-1795 | In every run, the player is playing, or will play what it loads, only if the last Play, Pause or successful load asked for it; and if the sink always works, it is paused, or will be, only if that asked for it. |
| `PlayerReports.FailedLoadPlaysOn` | native/librespot/playback/src/player.rs:2073-2078 | A run that shows why only successful loads count: a playing track, loaded again paused, plays on when the seek fails. |
| `PlayerReports.LoadIsObeyed` | native/librespot/playback/src/player.rs:1999-2208 | The exact condition: a load leaves the player playing, or about to play, only as asked if and only if it succeeds, asks to play, or finds nothing playing or about to. |
| `PlayerReports.ListenersKnow` | native/librespot/playback/src/player.rs:1381-1646 | Along a whole run, whoever follows the events knows the state and its request id, every loaded track was announced as started and every suggestion was sent, if and only if no decoder fails in mid-track. |
| `PlayerReports.EndIsMisreported` | native/librespot/playback/src/player.rs:1592-1600 | A run where it is not so: the decoder fails, listeners hear the end, and the player plays on. |
| `PlayerReports.LoadShows` | native/librespot/playback/src/player.rs:1999-2208 | A successful load takes over a loaded or preloaded copy, at the wanted position or where the seek led, playing or paused as asked; otherwise it starts to load; under the announced id and with an empty slot. |
| `PlayerReports.LoadSink` | native/librespot/playback/src/player.rs:2011-2013 | A new load leaves the sink alone in gapless mode, and otherwise closes it, for good unless it will play. |
| `PlayerReports.StopStops` | native/librespot/playback/src/player.rs:1700-1737 | A turn with a Stop that does not end the process leaves the player stopped, with the sink closed if it was not stopped before, and reports it. |
| `PlayerReports.LoaderStarts` | native/librespot/playback/src/player.rs:1418-1429 | A loader that is ready starts its track where it stands, playing or paused as asked. |
| `PlayerReports.LoaderFails` | native/librespot/playback/src/player.rs:1430-1438 | A loader that fails reports its track once and is not asked again. |
| `PlayerReports.PreloadShows` | native/librespot/playback/src/player.rs:2210-2259 | After a preload command the slot is for that track, unless the track is loaded already. |
| `PlayerReports.PreloaderKeeps` | native/librespot/playback/src/player.rs:1446-1478 | A preloader fills or empties the slot and reports which, and leaves state and sink alone. |
| `PlayerReports.PacketShows` | native/librespot/playback/src/player.rs:1490-1607 | A packet moves the position, or pauses the track if it cannot be written; the last one ends the track; a decoder failure reports the end and changes nothing. |
| `PlayerReports.SilentSinkEnds` | native/librespot/playback/src/player.rs:1480-1606 | A playing track whose sink does not start is paused, and the process ends. |
| `PlayerReports.SeekShows` | native/librespot/playback/src/player.rs:2261-2325 | A seek moves a loaded track and nothing else about it. |
| `PlayerReports.SuggestsNearEnd` | native/librespot/playback/src/player.rs:1627-1639 | Near the end of a track a turn leaves a preload suggested. |
| `PlayerMachine.CommandInOrder` | native/librespot/playback/src/player.rs:2327-2446 | No command reuses a request id that has started playback or suggested a preload. |
| `PlayerMachine.HoldsExactly` | native/librespot/playback/src/player.rs:1999-2208 | Along a whole run, the state is never left Invalid and any request id it holds is the last one announced, if and only if no load fails in the seek it needs to reuse a loaded or preloaded track. |
| `PlayerMachine.LoadLosesId` | native/librespot/playback/src/player.rs:2073-2078 | One load loses the announced id exactly when the seek that it needs fails: on the ended or current track, or on a preloaded one while another id is held. |
| `PlayerMachine.TurnHolds` | native/librespot/playback/src/player.rs:1386-1646 | One turn loses it exactly when its command is such a load; nothing else in a turn changes the id held or announced. |
| `PlayerMachine.OldIdStaysHeld` | native/librespot/playback/src/player.rs:2073-2078 | A run in which it is lost: a track is loaded, plays, and is loaded again at another position; when that seek fails the old id is held and the new one was announced. |
| `PlayerMachine.HoldsAnnouncedId` | native/librespot/playback/src/player.rs:1999-2208 | In particular it is so in every run whose decoder seeks succeed. |
| `PlayerMachine.TurnInvalidates` | native/librespot/playback/src/player.rs:2025-2057 | A turn leaves the state Invalid if and only if it repeats an ended track at another position and that seek fails; the process then ends in that turn. |
| `PlayerMachine.RepeatInvalidates` | native/librespot/playback/src/player.rs:2033-2045 | A run that gets there: the track ends, is loaded again at another position, the seek fails, and the process ends. |
| `PlayerMachine.InvalidEndsProcess` | native/librespot/playback/src/player.rs:770-781 | In every run an Invalid state ends the process within the same turn. |
| `PlayerProcess.PlayerInternal.HandleCommandLoad` | native/librespot/playback/src/player.rs:1999-2208 | Succeeds if and only if a loaded or preloaded copy of the track is at the position or can be moved there, or there is none; then the player has the track under the announced id, playing or paused as asked at the position reached, or loads it to do so. |
| `PlayerProcess.PlayerInternal.HandleCommandPreload` | native/librespot/playback/src/player.rs:2210-2259 | Afterwards the slot is empty or holds that track, and it is empty only if the track is loaded already. |
| `PlayerProcess.PlayerInternal.Poll` | native/librespot/playback/src/player.rs:1386-1646 | One turn, in place, keeps a stopped or paused player's sink closed and each request id to one start and one suggestion; the player does as it was told, its events tell its state unless a decoder fails, and it holds the announced id unless a needed seek fails. |
| `PlayerProcess.PlayerInternal.PollAll` | native/librespot/playback/src/player.rs:1381-1648 | Polling through anything that can happen is the run that the theorems are about, and leaves the player doing as it was told. |
| `AudioReaders.StreamAudio` | native/librespot/playback/src/player.rs:2692-2703 | Whatever the CDN answers, whatever its chunk sizes and the buffer sizes: the reads deliver a prefix of the decrypted file without its first 0xa7 bytes. Unless a request failed or came back empty, they deliver exactly as much as the buffers hold, up to all of it. A regular end is never reported after a refused request. |
| `AudioReaders.PayloadIsPrefix` | native/librespot/audio/src/fetch/streaming.rs:48-75 | The channel carries a prefix of the file, the whole file if and only if no request before its end failed or came back empty; an error is the last message. |
| `AudioReaders.ErrorIsSent` | native/librespot/audio/src/fetch/streaming.rs:55-71 | The channel carries an error if and only if a request was refused. |
| `AudioReaders.WholeWithoutError` | native/librespot/audio/src/fetch/streaming.rs:48-75 | A file that is not cut short is sent without an error. |
| `AudioReaders.Produce` | native/librespot/audio/src/fetch/streaming.rs:48-75 | The producer's loop ends for every behaviour of the CDN and sends the messages of the specification. |
| `AudioReaders.SequentialAudio.Read` | native/librespot/audio/src/fetch/streaming.rs:80-99 | The next bytes of the channel's payload, fewer than asked only at its end; after the end or a failure, nothing. |
| `AudioReaders.ApplySlice` | native/librespot/audio/src/decrypt.rs:32-42 | Decrypting a part at its own position gives that part of the decrypted whole. |
| `AudioReaders.AudioDecrypt.Read` | native/librespot/audio/src/decrypt.rs:32-42 | The cipher stays at the reader's position, so every read is the matching part of the decrypted file. |
| `AudioReaders.SkipReader.Read` | native/librespot/playback/src/player.rs:2692-2703 | Successful reads continue each other from byte 0xa7 on; a short one, if none failed, means everything was delivered. |
| `AudioReaders.SkipReader.SkipHeader` | native/librespot/playback/src/player.rs:2694-2700 | The skipping loop ends with nothing left to skip, at the end of the input, or failed; it emits nothing. |
| `AudioReaders.ReadWith` | native/librespot/playback/src/player.rs:2692-2703 | Any consumer with any buffers gets a prefix of the audio; without an error, exactly what its buffers hold or all there is. |
| `HandlerMaps.RunRoutes` | native/librespot/core/src/dealer/maps.rs:34-84 | After any run of registrations and removals, the table is prefix-free and each request goes to the handler of the one registered prefix of its path, or nowhere if there is none. |
| `HandlerMaps.RunRefines` | native/librespot/core/src/dealer/maps.rs:34-84 | After any run the trie denotes the flat map that the same operations give, and has no empty branch below the root. |
| `HandlerMaps.PrefixFree` | native/librespot/core/src/dealer/maps.rs:18-21 | No registered path is a proper prefix of another. |
| `HandlerMaps.GetFindsPrefix` | native/librespot/core/src/dealer/maps.rs:55-63 | `get` answers with the handler of a registered prefix whenever there is one, and only then. |
| `HandlerMaps.InsertDecides` | native/librespot/core/src/dealer/maps.rs:34-53 | A registration succeeds if and only if no registered path is a prefix or an extension of the new one. |
| `HandlerMaps.InsertAdds` | native/librespot/core/src/dealer/maps.rs:34-53 | A rejected registration changes nothing; no registration leaves an empty branch. |
| `HandlerMaps.InsertRegisters` | native/librespot/core/src/dealer/maps.rs:34-53 | An accepted registration adds its path and changes no other. |
| `HandlerMaps.RemoveKeepsCompact` | native/librespot/core/src/dealer/maps.rs:65-84 | `remove` returns what `get` would, changes nothing if that is nothing, and leaves no empty branch. |
| `HandlerMaps.RemoveUnregisters` | native/librespot/core/src/dealer/maps.rs:65-84 | `remove` unregisters exactly the prefix of its path. |
| `HandlerMaps.RemoveUndoesInsert` | native/librespot/core/src/dealer/maps.rs:34-84 | Removing a path that was just accepted restores the very same tree. |
| `HandlerMaps.CompactIsUnique` | native/librespot/core/src/dealer/maps.rs:75-80 | Two trees without empty branches that denote the same registrations are equal. |
| `CacheLimiter.PruneIsExact` | native/librespot/core/src/cache.rs:215-248 | With distinct access times, an entry is evicted if and only if it and all newer entries together exceed the limit; the forward direction also with ties. |
| `CacheLimiter.KeepsNewest` | native/librespot/core/src/cache.rs:76-92 | Pruning never keeps an entry older than one it evicted. |
| `CacheLimiter.SizeLimiter.Prune` | native/librespot/core/src/cache.rs:250-256 | On a limiter that nobody else uses: ends within the limit; every eviction took an oldest entry while over the limit; the error is the last failed deletion. |
| `CacheLimiter.SizeLimiter.PruneShared` | native/librespot/core/src/cache.rs:215-248 | On a shared limiter, with any operations of other threads between two evictions: each eviction takes an oldest entry of its moment and only over the limit, and the loop ends within it. |
| `CacheLimiter.SizeLimiter.Add` | native/librespot/core/src/cache.rs:56-64 | Records size and time; the total stays the sum of all sizes, and the subtraction never underflows. |
| `CacheLimiter.SizeLimiter.Pop` | native/librespot/core/src/cache.rs:76-92 | Evicts a least recently used entry if and only if over the limit; both error branches are unreachable. |
| `CacheLimiter.SizeLimiter.Update` | native/librespot/core/src/cache.rs:95-99 | Changes the time of an existing entry and nothing else; reports whether it exists. |
| `CacheLimiter.SizeLimiter.Remove` | native/librespot/core/src/cache.rs:102-114 | Removes the entry from both maps and its size from the total; reports whether it existed; the error branch is unreachable. |
| `CacheLimiter.FindOldest` | native/librespot/core/src/cache.rs:78 | The queue's pop takes an entry no other is older than. |

## Left out

- Sockets, HTTP requests, marker files, clocks, sleeps and random numbers: their outcomes are parameters or events.
- The bridge's `generation` counter and stream marker file, and the failures of setting a timeout or writing that file, which end the process.
- Widths of counters and positions: `usize` lengths, `u32` indices, `u64` request ids, forwarded bytes and cache totals are unbounded, except where a row speaks of overflow.
- FetchLoop.AudioFileStreaming.Read: the waits end by notification or by running out of them; how long they last, reading fewer bytes than the file has and seeking with its switch of the download mode are not modelled.
- Fetching after the fetch loop has ended, failing writes to the temporary file, and the estimates of throughput, ping time and prefetch size (floating point): they only choose arguments of `DownloadRange` and `PreFetchMoreData`.
- QueueOrder.ResetPlaysInOrder: assumes that no shuffle has set an initial track and that contexts hold no delimiters of their own; `QueueInitial.ShufflePlaysOthers` is for an initial track.
- QueueInitial.ShufflePlaysOthers: is about a context that does not repeat and an autoplay context without the initial track; with repeat the order depends on where refills fall, and each refill is known from `QueueSupply.FillAppends`.
- QueueOrder.BufferIsWindow: is about runs of `next_track`; `prev_track` and `add_to_queue` drop the buffer's tail without moving the context index back, so it is not true of them.
- Resolving, merging and transferring contexts, restrictions, queue revisions, and the uri and uid rewriting of a queue set from outside.
- `shuffle`, `shuffle_new` and `shuffle_restore` around the shuffle and the reset: they add calls to operations that are modelled.
- ApCodec.ConnectionRoundTrip: its nonces are unbounded; the 32-bit counters of the code overflow at the packet with number 2^32.
- ApCodec.Codec.EncodePacket: requires a nonce below 2^32 - 1, beyond which the counter overflows; the Shannon cipher is any stream machine whose decryption inverts its encryption.
- PlayerMachine.HoldsAnnouncedId: assumes that decoder seeks succeed; `PlayerMachine.HoldsExactly` is without that assumption.
- After the player calls for its process to exit, the rest of the handler is still modelled; the sink result speaks of players that have not exited.
- Position events, volume, normalisation, decoding, the explicit-content filter and session events of the player.
- AudioReaders: the server's body never exceeds the requested chunk and lies inside the file; AES is any function of position and byte; seeking, which this path refuses, is not modelled.
- HandlerMaps: the trie is updated as a value; the source updates it in place, under one owner, so aliasing does not arise.
- `HandlerMap::contains` and `SubscriberMap`: easy members, and the latter's `retain` stops at the first level with subscribers.
- CacheLimiter.PruneIsExact: the backward direction needs distinct access times, because among equal ones the queue may pop any.
- The directory scan and file metadata of the cache, its credentials and volume files.
- Base-16 and raw id conversions, protobuf conversions of URIs.
- Spirc, dealer connections, sessions, login, discovery, metadata and other network clients; dither, format conversion and the limiter (floating point).
