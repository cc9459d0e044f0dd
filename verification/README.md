# A model of the code-cord server

The server keeps a live table of running streams, a storage bucket of stream records, a bucket of participant
rosters, and for each live stream a map of participants that wait to be let in, each with a channel of its own.
HTTP handlers and interrupt listeners run concurrently over these tables. This project models three parts of it.

**The join and lifecycle protocol.** `Protocol` is a state machine. Every `JoinParticipant`,
`DecideParticipantJoin`, `StreamParticipants`, `NewStream`, `PatchStream`, `FinishStream`, interrupt listener and
`Stop` is a call with a program counter; one step is one load, store, delete, mint, process action, channel rendezvous
or visit of a map's range of one call, and a run (`Exec`) is any sequence of steps of any number of calls, in any
interleaving, from empty storage. `Growth`, `Invariant` and `Safety` prove an inductive invariant over all runs;
`Admission`, `RosterHistory`, `RecordHistory`, `Lifecycle`, `Agreement`, `Participants`, `Shutdown`, `Auth` and
`Validation` draw the theorems from it. `Requests` ties each call to the request that began it, `Lookups` says which
calls go on and which fail by what they looked up, `Creation` what a NewStream dials, holds and writes, and `Patching`
what a record shows of its patches. Where a property needs calls not to overlap, the theorem is an equivalence
that says exactly when it holds, and `Schedules` has a run that breaks it; `Steps` has the stretches such runs are
made of. `Sequential` says what each operation does when nothing interferes; `Uninterrupted` shows that every run in
which only that call steps has just that effect, and `Server` has the operations as methods of an object, proved
against the same functions.

**The listing.** `Storage` is the key-ordered bucket and its cursor, `Ordering` the byte order and an in-place sort,
`Listing` the filter, the ten comparators and the 64-bit page arithmetic. `Catalogue` and `Paging` are about
listings of reachable storage, and about clients that fetch page after page while the sorts of different calls
choose differently among ties.

**The query codec.** `Decimal` prints and parses numbers, `Query` has the client's writer, the server's `Build` and
`Validate`, and what the two sides make together.

How the source appears:

- Goroutines are calls; shared maps, buckets and minted tokens are fields of `Protocol.State`; history fields
  (`origins`, `entered`, `events`) are never read by a step. UUIDs are fresh, signing is ideal and deterministic,
  time is a monotone clock, process starts, dials and interrupts are chosen by the environment.
- `Protocol.JoinMove`, `DecideMove`, `ExchangeMove`, `ListMove`, `NewMove`, `PatchMove`, `KillMove` and `StopMove` are
  the statements of `server/participant.go:24-143`, `server/stream.go:68-147, 185-257, 376-413, 546-586` and
  `server/server.go:152-156`, in their order. A range over a map is not a snapshot: it visits any key that is there,
  none twice, and ends when no key that was there from its beginning to then is unvisited.
- Strings are byte sequences; Go's `int` is `Integers.Int64` and wraps around where the code computes with it.
- `processes` maps each started stream process to the number of `Stop` calls it has had.

Results about the code that a reader may not expect:

- An admitted participant is lost when two joins overlap in the roster's load-store window (`Schedules.LostJoin`).
- An interrupt that arrives between the record store and the registration leaves a finished stream live
  (`Schedules.EarlyInterrupt`); a patch whose window contains a finish brings the record back to running
  (`Schedules.PatchAroundFinish`).
- A page product beyond 64 bits can be a slice out of bounds although the request is valid
  (`Listing.PageThreeFails`); `Listing.CutExactly` says when.
- `StreamParticipants` lists somebody twice, as pending and as active, when a join that it visits as pending has stored
  into the roster by the time it loads the roster: before the visit, with the deferred delete still to come, or between
  the visit and the load (`Participants.ListedTwiceExactly`, and a run in `Schedules.ListedBoth`).
- A second decision on one join waits for ever on the channel that nobody reads any more, and so does a decision on a
  participant of a stream with another policy (`Admission.SendReturnsExactly`).
- From what a sort promises, pages visit each record once only if no records tied in the sort order stand on two sides
  of a page boundary (`Paging.ListingVisitsEachOnceExactly`): calls whose sorts arranged ties differently would show
  some twice or never. Listings by uuid do not depend on that, and when all calls arrange alike, as a deterministic
  sort of unchanged storage does, the pages make up that arrangement for every field (`Paging.AlikePagesConcatenate`).
- The middleware's 403 answer cannot occur (`Auth.NeverForbidden`).

Where the code and its comments or field names disagree, the model follows the code: `PatchParticipant` "updates
participant info" but stores nothing (`server/participant.go:161-211`); the patch rule named `host.username` looks at
the join code, and dereferences a missing join part (`handler/models/stream.go:212-216`); the host part of a patch is
never forwarded (`handler/patch_stream_info.go:32`).

## Model

| member | source | states |
|---|---|---|
| Safety.Invariance | server/participant.go:24-118 | the protocol invariant (origins of UUIDs, calls, rosters, record versions, tokens, pending entries, live entries, processes) holds after every run of any interleaving |
| Safety.StepKeeps | server/stream.go:68-413 | one step of any call keeps the invariant and undoes nothing that was generated, minted, stored or logged |
| Admission.StoredRostersProper | server/participant.go:59-88 | in every run a stored roster has no duplicates, is all active, and each member was let in by its own join under the policy that join loaded and has its minted token |
| Admission.LoadedRostersProper | server/participant.go:78-84 | the same of every copy a join holds between its load and its store |
| Admission.JoinerIsNew | server/participant.go:84-88 | a join about to store was justified, has its token, and is not already in its copy |
| Admission.DecisionReachedItsJoin | server/participant.go:102-118 | a decision that returned handed its value to exactly one join, that of the participant it named |
| Admission.ReceiverWasDecided | server/participant.go:59-67 | a host_resolve join past its receive got its value from exactly one decision, with equal value |
| Admission.SendReturnsExactly | server/participant.go:102-118 | a decision about to send can return in some continuation of the run if and only if the join whose channel it holds has loaded host_resolve and is not past its receive |
| Lookups.DecisionGoesOnExactly | server/participant.go:104-115 | in every interleaving a decision that made its two lookups had found its stream live at the first; it comes to its send, on the channel of the join that waited, if and only if a join of the participant was waiting at the second, and fails if and only if none was |
| Lookups.DecisionStands | server/participant.go:104-115 | wherever a decision is in a run, that is what its lookups found: at or past its send it found the stream live and that join waiting; failed, it found the stream not live, or live and nobody waiting |
| Lookups.DecideRunsAlone | server/participant.go:102-118 | a decision that runs by itself from its request on comes to its send, with the value asked for, if and only if the stream is live and a join of the participant waits, and fails otherwise, changing no table |
| Requests.CallIsRequested | server/participant.go:24-129 | in every run each call works on what its request named: stream, code, name, participant, verdict, configuration or patch; a killStream comes from a FinishStream, the listener of the stream's NewStream, or a Stop |
| Admission.DeniedStaysOut | server/participant.go:65-67 | a join that received false has no token and no place in any roster or copy for the rest of the run |
| Admission.PendingExactly | server/participant.go:39-48 | a participant is in the pending map if and only if its join sits between registration and return, and then with status pending |
| Admission.PendingAndEntered | server/participant.go:47-88 | a participant is both pending and in the roster only between the roster store and the deferred delete |
| RosterHistory.RosterIsHistoryExactly | server/participant.go:78-88 | the stored roster is all admitted participants in store order if and only if no join stored a stale copy; otherwise somebody stays lost |
| RosterHistory.StoreIsAppend | server/participant.go:84-88 | while no stale copy is stored, a store appends the joiner to its stream's roster and every other step leaves that roster alone |
| RosterHistory.ApartWindowsKeepRoster | server/participant.go:78-88 | when load-store windows of a stream's joins do not overlap, its roster is the admitted participants in store order |
| Schedules.LostJoin | server/participant.go:79-88 | a concrete run in which an admitted participant is missing from the roster |
| Schedules.ListedBoth | server/participant.go:129-143 | a concrete run in which StreamParticipants lists a participant twice |
| RecordHistory.RecordIsHistoryExactly | server/stream.go:211-244 | in every run a record is what the stores applied to it make one after the other, from the created one on; these are all stores of the stream in store order if and only if no PatchStream or killStream stored a copy loaded before another store |
| Patching.LastPatchShows | server/stream.go:217-241 | in every run a record's name, description, join part and host part are each the one of the last applied patch that carries one, else the created one; finishing leaves them alone |
| RecordHistory.ReturnedPatchIsStored | server/stream.go:242-256 | every patch that returned is among the stores of its stream |
| RecordHistory.FinishedExactly | server/stream.go:396-412 | in every run a record is finished if and only if a finish is among its applied stores, and running otherwise |
| Lifecycle.LifeInvariance | server/stream.go:124-137 | in every run the record table has exactly the created streams, the live table exactly the registered and not deleted ones, whose creators, deleters and stopped processes are known, and a stream finished before its registration has a finished record |
| Agreement.LiveIsRecorded | server/stream.go:124-137 | live keys are record keys, and a live entry is the one its own NewStream stored |
| Agreement.RecordsConsistent | server/stream.go:103-123 | a record's UUID is its key, its status is one of two, finished exactly when it has a finishing time, which is not before its start |
| Agreement.IdentityNeverChanges | server/stream.go:217-244 | UUID, IP, port, launch mode, start, subject and the host's UUID and IP of a record never change in any run |
| Agreement.ProcessesAccountedFor | server/stream.go:93-137 | every started process is inside its NewStream, owned by exactly one live entry, or has had Stop called |
| Creation.DialsDecide | server/stream.go:546-586 | in every run a NewStream listens or is past it exactly if its last dial connected after failed ones, gives up exactly if the last connection did not close or six dials failed, and dials on otherwise |
| Creation.SixDials | server/stream.go:563-586 | who gives up after dialling had a connection that did not close, or dialled exactly six times; five failed dials and a sixth that connects go on |
| Creation.FailsOnlyFor | server/stream.go:76-97 | a NewStream that fails before dialling had an unknown launch mode, the empty one being known, or its process did not start |
| Creation.HostTokenHeld | server/stream.go:86-90 | from its mint on a NewStream holds a token for its stream and host, as a host, signed with its own key |
| Creation.CreationIsRequested | server/stream.go:102-123 | a stream's history begins with the record that its own NewStream's request asks for, field by field, the empty launch mode as standalone |
| Agreement.DialsAreBounded | server/stream.go:546-586 | a NewStream dials at most six times, and one that dialled and failed has stopped its process |
| Agreement.LiveButFinishedExactly | server/stream.go:385-413 | a finished record is live at some moment of a run if and only if the stream was registered and a killStream that had found no live entry stored its finish before any deletion |
| Agreement.FinishedIsNeverLive | server/stream.go:99-137 | when interrupts are handled after registration, no finished record is ever live |
| Agreement.RestExactly | server/stream.go:208-257 | at rest, after any schedule, a record runs exactly when its stream is live if and only if the live entry was deleted exactly when some finish is among the record's applied stores |
| Agreement.WaitingRestExactly | server/stream.go:208-257 | with interrupts after registration that is: if and only if a finish that was stored is not overwritten by copies loaded before it |
| Agreement.RestAgrees | server/stream.go:208-257 | if also no patch window contains a finish, every record at rest runs exactly when its stream is live |
| Schedules.EarlyInterrupt | server/stream.go:99-137 | a concrete run that leaves a finished record live |
| Schedules.PatchAroundFinish | server/stream.go:211-244 | a concrete run that ends at rest with a running record and no live entry |
| Auth.StreamAuthMiddleware | handler/middleware/auth.go:81-130 | the stepwise trimming, lookup, verification and checks decide as Authorize does on the bare token |
| Auth.TrimmingRecovers | handler/middleware/auth.go:81-83 | trimming leaves a token exactly of the headers that carry it: bare, after the scheme of section 2.1 of RFC 6750, after its lower-case form, or after both |
| Auth.GrantedExactly | handler/middleware/auth.go:81-130 | in every reached state and for every header, access is granted if and only if the header carries a token that was minted for the route's stream, the stream is live, and the token is a host's where one is asked for; everything else is answered with 401 |
| Auth.TokenAcceptedExactly | handler/middleware/auth.go:86-130 | in every reached state a minted token is accepted if and only if the route is its own stream, the stream is live, and a host is asked for only of a host token; it gives back its triple |
| Auth.NeverForbidden | handler/middleware/auth.go:118-122 | no token, minted or not, is answered with 403 in any reached state |
| Auth.LeavesForGood | server/stream.go:385-394 | a stream that has left the live table never comes back |
| Auth.TokenDiesWithStream | handler/middleware/auth.go:86-102 | once its stream has left the live table a token is rejected on every route for the rest of the run, whenever it was minted |
| Validation.ValidateCreate | handler/models/stream.go:115-167 | accepts exactly the create requests that meet all rules, and otherwise reports exactly the fields at fault |
| Validation.ValidatePatch | handler/models/stream.go:180-219 | accepts exactly the patches that meet all rules as coded, otherwise reports exactly the fields at fault, and dereferences nil exactly for a host part without a join part |
| Validation.CreateRequestConfig | handler/create_stream.go:18-42 | yields the configuration, field by field that of the request, exactly if name and username have 5 to 32 bytes, the description at most 96, the policy is known, a by_code code is six digits, mode, IP and port are absent or good; it meets the record rules |
| Validation.PatchRequestConfig | handler/patch_stream_info.go:21-39 | yields the patch, without its host part, exactly if the parts it has meet the rules as coded and it has a join part where it has a host part; it meets the record rules |
| Validation.RecordsStayValid | handler/models/stream.go:115-219 | when all creates and patches are valid, every record, and every copy a call holds, in every run meets the content rules: six digits under by_code, name empty or 5 to 32 bytes, description at most 96 bytes, policy known or empty |
| Storage.PutIsUpdate | storage/bucket.go:80-94 | storing into the ordered entries changes the table at the key and nowhere else |
| Storage.TableHas | storage/bucket.go:45-60 | a key is in the table exactly if an entry has it, with that entry's value, and there are as many keys as entries |
| Storage.Bucket.Load | storage/bucket.go:45-60 | finds the stored value, or nothing |
| Storage.Bucket.Store | storage/bucket.go:80-94 | the table is updated at the key, and the entries stay in key order |
| Storage.Bucket.Size | storage/bucket.go:32-40 | the number of keys |
| Storage.Bucket.All | storage/bucket.go:63-74 | a cursor over the entries as they are now |
| Storage.Cursor.First | storage/cursor.go:23-29 | stands on the first entry |
| Storage.Cursor.Next | storage/cursor.go:14-20 | stands on the entry after |
| Ordering.LessExactly | server/stream.go:469-498 | one string is less than another exactly if it is smaller at the first byte where they differ, or ends there |
| Ordering.SortSlice | server/stream.go:464-466 | in place, ends with an ordered permutation of its input for any strict weak order |
| Listing.IsStreamFitsFilter | server/stream.go:415-444 | the loops decide exactly the conjunction of substring match, mode membership and status membership, empty lists meaning all |
| Listing.ComparatorsAreOrders | server/stream.go:469-520 | every comparator, for every field and order, is a strict weak order |
| Listing.ArrangedExactly | server/stream.go:446-520 | for each of the five fields: under asc no later field is smaller than an earlier one, under any other order no earlier one than a later one, started by time; an unknown field leaves the list as it is |
| Listing.FilterStreams | server/stream.go:446-467 | the slice ends as some correct sort of itself; unknown fields leave it alone |
| Listing.CutPage | server/stream.go:332-351 | the slicing statements compute Cut, including its run-time error |
| Listing.NoGrowth | server/stream.go:340-342 | the second slice expression never reaches between length and capacity |
| Listing.CutInRange | server/stream.go:332-351 | when page times size fits in 64 bits the page, count, total and HasNext are exact and no slice is out of bounds |
| Listing.CutExactly | server/stream.go:332-351 | for page and size at least one: exact if and only if the product fits or both wrapped bounds lie past the end |
| Listing.PageThreeFails | server/stream.go:333-338 | a page and size for which every listing is a slice out of bounds |
| Listing.StreamList | server/stream.go:291-353 | cursor walk, filter, sort and cut refine Cut of some correct sort of the matching records |
| Catalogue.ListedExactly | server/stream.go:299-328 | whatever the sort, a view is listed if and only if it shows, field by field, a stored record whose name or description holds the phrase and whose mode and status are among those asked for |
| Catalogue.SelectedExactly | server/stream.go:299-328 | what is listed is exactly the views of the records that fit |
| Catalogue.SortIsUnique | server/stream.go:464-466 | two correct sorts by an order that tells all elements apart are equal |
| Catalogue.UuidSortsAreDetermined | server/stream.go:469-477 | over reachable storage any sort by uuid ascending is the filtered cursor order, any descending its exact reverse |
| Catalogue.TotalsAddUp | server/stream.go:434-443 | over reachable storage the totals for running and for finished add up to the unrestricted total |
| Paging.WalkEnds | server/stream.go:344-352 | following HasNext ends after max(1, ceil(total / size)) calls |
| Paging.FollowingFits | server/stream.go:333-351 | following HasNext never reaches a page whose index arithmetic overflows |
| Paging.UuidPagesConcatenate | server/stream.go:330-352 | the pages of a listing by uuid, each call sorting independently, concatenate to the whole sorted list |
| Paging.AlikePagesConcatenate | server/stream.go:330-352 | when every call arranges the matching records alike, whatever the field, the pages concatenate to that arrangement |
| Paging.PagesVisitEachOnceExactly | server/stream.go:330-352 | pages visit each of a list of different records exactly once for all choices of the sorts if and only if no tied neighbours stand on two sides of a page boundary |
| Paging.ListingVisitsEachOnceExactly | server/stream.go:330-352 | the same for every filter over reachable storage |
| Decimal.AtoiItoa | cli/client.go:132-133 | parsing what was printed gives back every 64-bit integer |
| Decimal.AtoiExactly | handler/models/api.go:155-174 | reads exactly the optionally signed decimal numbers that fit in 64 bits, by place value, and rejects every other text |
| Query.GetStreams | cli/client.go:116-133 | the loops build the parameter map Params |
| Query.AddAll | cli/client.go:203-209 | whatever order the map yields its keys in, the query holds each key's values in order, and no key without values |
| Query.StreamListRequest.Build | handler/models/api.go:147-193 | assigns all fields as Built says, on success and on both errors |
| Query.BuiltExactly | handler/models/api.go:147-193 | for every query, key by key: it is rejected exactly if page or page size is neither absent nor a 64-bit decimal number; absent, empty or zero they are 1 and 10, absent sort fields are uuid and asc, the rest is read as it stands |
| Query.StreamListRequest.Validate | handler/models/api.go:86-144 | accepts exactly the requests that meet the rules, word by word, empty and zero values passing |
| Query.QueryRoundTrip | handler/models/api.go:147-193 | for every filter, all page values and any receiver, Build reads back what the client wrote with defaults filled in |
| Query.SecondTripChangesNothing | handler/models/api.go:137-178 | a second trip changes nothing; the first changes nothing if and only if nothing was left to default |
| Query.BuiltAndValid | handler/models/api.go:137-178 | Build followed by Validate leaves page and page size at least one and a known order |
| Query.HandleGetStreams | handler/api/get_streams.go:11-34 | answers with the listing of the built filter, or rejects it |
| Query.ListStreams | handler/api/get_streams.go:11-34 | from client filter to page: invalid filters are rejected, valid ones get the exact page whenever the product fits in 64 bits |
| Sequential.KillIsIdempotent | server/stream.go:385-413 | killing twice equals killing once but for the finishing time |
| Sequential.StopEndsAll | server/server.go:152-156 | from tables at rest, killing every live stream in any order leaves no live stream and every record finished |
| Sequential.DialAllConnects | server/stream.go:563-586 | the protocol's dial steps go on exactly if some attempt within six connects after failed ones |
| Uninterrupted.StopAfterQuietRun | server/server.go:152-156 | so it is after every quiescent run with interrupts after registration and patches apart from finishes, when nothing interferes with the loop |
| Uninterrupted.KillRunsAlone | server/stream.go:385-413 | in every run whose steps from some point on are one killStream's own, from FinishStream, a listener or Stop, its effect at its end is Killed of the tables at that point, stamped in between; the record changes in its status and finishing time only |
| Uninterrupted.PatchRunsAlone | server/stream.go:208-257 | in every such run of a PatchStream its effect is PatchedIn, each part that is present takes effect and all else is as before, and it fails exactly if the stream is not live or has no record |
| Uninterrupted.JoinRunsAlone | server/participant.go:24-99 | in every run whose steps are one JoinParticipant's own and decisions of hosts, it ends with the verdict of the policy, one participant appended if admitted, and nothing left pending |
| Uninterrupted.NewRunsAlone | server/stream.go:68-148 | in every such run of a NewStream there is a record and a live entry if a dial connects, else at most a process started and stopped |
| Uninterrupted.KillCanStep | server/stream.go:376-413 | a killStream or listener that has not ended has an enabled step in every reached state |
| Uninterrupted.PatchCanStep | server/stream.go:208-257 | so has a PatchStream |
| Uninterrupted.JoinCanStep | server/participant.go:24-99 | so has a JoinParticipant that does not wait for its host |
| Uninterrupted.NewCanStep | server/stream.go:68-148 | so has a NewStream |
| Lookups.StopCanStep | server/server.go:152-156 | a Stop that has not ended can step, or the killStream it waits for can, which cannot fail |
| Lookups.ListCanStep | server/participant.go:121-159 | a StreamParticipants that has not ended has an enabled step in every state |
| Lookups.FinishGoesOnExactly | server/stream.go:185-194 | in every interleaving a FinishStream fails if and only if its stream was not live when it checked |
| Uninterrupted.NobodyPends | server/participant.go:121-159 | with no join of a stream in flight, its pending map is empty |
| Shutdown.StopsInvariance | server/server.go:152-156 | in every run the streams a Stop has visited are deleted or in the hands of the killStream it waits for, and when it has returned all streams its range began with are deleted |
| Shutdown.StopStopsAll | server/server.go:152-156 | whatever listeners, finishes, joins, decisions and patches interleave, a Stop with no NewStream under way since its range began leaves no live stream; a record without a patch over a finish is finished, or a killStream in progress is about to finish it |
| Shutdown.StopFinishesAll | server/server.go:152-156 | when no killStream is in progress any more, every record is finished |
| Participants.ListedUnlessTurnedAway | server/participant.go:129-143 | whatever interleaves, everybody who was pending or in the roster when the range began is listed or was turned away meanwhile, if no join stored a stale roster |
| Participants.ListedTwiceExactly | server/participant.go:129-143 | in every run a participant visited in the pending map was waiting then, and the roster part names it too only if its join had stored into the roster by the time of the load, and exactly then if no stale roster had been stored |
| Participants.NobodyTwiceExactly | server/participant.go:121-159 | with no stale roster stored before the load, a listing names nobody twice if and only if no participant it found pending had its join store before the load |
| Participants.QuietListing | server/participant.go:121-159 | with no join of the stream between registration and return from the beginning of the range to the load, the listing is exactly the roster, which stays the same throughout |
| Lookups.ListGoesOnExactly | server/participant.go:121-127 | in every interleaving a StreamParticipants fails if and only if its stream was not live at its lookup |
| Lookups.ListRunsAlone | server/participant.go:121-159 | one that runs by itself from its request on shows each pending participant once, as pending, then the roster, if the stream is live |
| Participants.EnteredInvariance | server/participant.go:84-88 | in every run every admitted participant is in the history of its stream's roster |
| Server.ConnectToStream | server/stream.go:571-586 | succeeds exactly if some attempt connects after failed ones; stops dialling at the first connection |
| Server.Server.StartStreamAndConnect | server/stream.go:546-569 | returns the endpoint if connected, and otherwise has stopped the process it started |
| Server.Server.NewStream | server/stream.go:68-148 | opens the stream and returns the host's token exactly if the launch mode is known, the process starts and a dial connects |
| Server.Server.KillStream | server/stream.go:385-413 | the tables after are Killed of the tables before; the record is finished now and otherwise as it was |
| Server.Server.FinishStream | server/stream.go:185-194 | kills a live stream, and refuses others without a change |
| Server.Server.Stop | server/server.go:150-156 | kills the live streams in some order; from tables at rest it ends with none live and every record finished |
| Server.Server.PatchStream | server/stream.go:208-257 | each part that is present is what is stored and returned, each that is absent is as before, and all else is as before; it fails exactly if the stream is not live or has no record |
| Server.Server.JoinParticipant | server/participant.go:24-99 | the verdict of the policy, the roster appended to if admitted, the token for that participant, the pending map as before |
| Server.Server.StreamParticipants | server/participant.go:121-159 | each pending participant once, without its channel, then the roster; exactly the roster when nobody is pending |
| Server.Server.PatchParticipant | server/participant.go:162-212 | returns the first participant with the UUID, its name and avatar those of the patch where present and all else as it was, and changes no table |

## Left out

- Runs start from empty storage: a restart over the records of an earlier process is not modelled.
- Storage writes succeed: the failure branch of NewStream at `server/stream.go:124-127` and the other storage error
  returns are outside the model, as are decoding errors.
- JSON, the bolt engine, its transactions and `Cursor.Close`, and URL percent-encoding are lossless: records, ordered
  entries and per-key value lists stand for them. RSA and JWT are an ideal sign and verify pair.
- Ordering.SortSlice: an insertion sort in the place of the library's sort; nothing depends on more than its contract.
- `Bucket.Delete` has no caller among the operations modelled.
- `NewStreamHostToken`, `StreamInfo`, `StreamAddress` and `buildStreamOwnerInfo` would only add easy members.
- Notifications to the stream process are fire-and-forget network calls. Launching processes and containers, port
  search, backups, avatars, options, TLS, logging, error texts and codes, and the closing of servers and storages in
  `Stop` are outside the model.
- Liveness: a join that waits for its host, or a decision that waits for its join, may wait for ever, as in the code;
  `Admission.SendReturnsExactly` says which decisions must, and of the other calls `Uninterrupted` says that they can
  step, not that they do.
- Listing.CutExactly: lists longer than 2^62 are outside; no slice of records is that long.
- JoinPolicy is a datatype of the three policies and any other text, not a string.
- Server.Server runs one operation at a time; interleavings are the subject of Protocol, and a decision is a parameter
  of JoinParticipant there. DecideParticipantJoin by itself is in `Lookups.DecideRunsAlone`.
