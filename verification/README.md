# snow-cli: a verified model of its bridge, queries, pagination and credential text

snow-cli talks to ServiceNow instances over REST, through cookie sessions, and through a browser
helper tab reached by a WebSocket. This project models the parts of it whose correctness does not
show in any one function, and proves them for all inputs, all replies and all interleavings.

- **Bridge and broker** (`Gates`, `Bridge`, `BridgeInvariants`, `BridgeTheorems`, `BridgeManager`,
  `SessionCache`, `Dispatch*`, `LegacyLock`). The connection manager is a state machine whose
  atomic steps are its critical sections: number, install, fail the replaced waiters, reset the
  status, detach, inspect, announce and deliver a message, sweep, enqueue, commit a negotiation.
  Any number of dispatch tasks run over it, each cut at every lock and every await, so a run may
  put a reconnect, a timeout or another request between any two phases. `DispatchInvariants` and
  `DispatchProofs` hold what each phase keeps, `DispatchEvidence` whose queries and probes it acts
  on, `DispatchOutcomes` and `DispatchCauses` why it answers as it does, `DispatchSupport` that
  gates once shown are never forgotten, `DispatchProgress` that it ends, `DispatchSessions` the
  session cache during dispatch. `BridgeManager` and
  `SessionCache.BrokerState` are the same sections in place, each proved equal to its step.
- **Queries** (`EncodedQuery`, `Domain`, `OrderBy`, `ListQuery`). `EncodedQuery` gives encoded
  queries a meaning: `^NQ` separates alternatives, `^` conditions that must all hold, an `OR` term
  widens the condition before it, `EQ` ends the query, `ORDERBY` does not filter. Domain
  restriction and sorting are proved against that meaning, separately and composed.
- **Pagination** (`Pagination`): the page loop against any server, exactness against an honest one,
  and the walk by `next_offset`.
- **Text and credentials** (`Cookies`, `FormSession`, `FormCookies`, `Scrub`, `ScrubComplete`,
  `Bootstrap`, `FormBody`, `TokenCache`, `Preview`): cookie merging after RFC 6265, form-session readiness and
  what its cookies say, redaction, JavaScript string literals, form bodies after RFC 3986, the OAuth
  cache against the keychain, and previews with JSON Pointers after RFC 6901. `Text` holds
  splitting, joining, trimming and decimals.

## How the model is set up

- The model takes the form of the source: loops are loops with invariants, objects whose methods
  update fields are classes, and each such method is proved equal to a function whose laws are then
  proved as lemmas. Parsers and printers that are expressions are functions.
- Helpers, servers, the keychain, clocks and networks are parameters or arbitrary steps. The one
  assumption about helpers is that a reply carries only a correlation id that was sent on that
  helper's own socket (`Bridge.Enabled`). The one about the clock is that the session cache never
  sees it step back, for its own calls and in runs of dispatches alike.
- A capability query and a probe carry in the model the dispatch they were enqueued for, which no
  step reads: it lets the theorems say whose query it was. The bridge likewise keeps a history of
  the messages its readers inspected and the reports that were committed, which no step reads.
- `Url` pairs an instance URL with the origin it normalizes to, or none.
- Text is a sequence of Unicode scalars. `FormBody` uses characters below 256 for bytes.

## Results that go against the documentation or against expectation

- An `^EQ` that ends a branch other than the last is accepted and dropped by the domain
  restriction although it hid the branches after it (`src/models/domain.rs` says only a final
  terminator is accepted): `Domain.EarlyStopIsNotExact`. The restriction is exact exactly when no
  earlier branch ends so: `Domain.ResultAddsOneGroupPerBranch`.
- Sorting trims the query after the domain restriction checked it. A query such as ` EQ` passes the
  check and becomes one that stops before the restriction: `ListQuery.SortedListingStaysInDomain`
  gives the exact condition, `ListQuery.SpacedStopIsAccepted` the instance.
- `OrderBy`'s canonical form is documented to parse back to the same value. It does exactly when no
  ascending field begins with `ORDERBY`: `OrderBy.DisplayRoundTrips`.
- A form session can keep a cookie header that does not carry its session id. It does carry it
  exactly when the bootstrap page's Set-Cookie headers leave no cookie, or leave as the session
  cookie the id that is held: `FormCookies.KeptCookiesNameTheSession`. A run that fails it is
  `FormCookies.KeptCookiesCanLackTheSession`.
- The literal decoder takes a plus sign and three digits for a unicode escape, which section 7 of
  RFC 8259 does not allow: `Bootstrap.OnlyPlusIsLenient`.
- A helper that advertised gates can withdraw the advertisement with a second build message
  (`BridgeTheorems.AdvertisementCanBeWithdrawn`). What is advertised is exactly the last build
  info of the generation; its support stays gated all the same:
  `BridgeTheorems.StatusIsWhatWasObserved`, `BridgeTheorems.PushedGatesStick`.
- The domain restriction refuses an OR term only as the first non-empty term of a branch. Behind a
  sort clause it is accepted although no condition precedes it: `Domain.AcceptedExactly`,
  `Domain.OrBehindSortIsAccepted`.
- A stored token that makes no header leaves an older one cached: `TokenCache.AuthenticateKeepsSync`.
- A page size of zero lets an unhelpful server keep a fetch asking forever. A fetch ends against
  every server exactly when its page size is at least one or its limit is zero:
  `Pagination.EndsExactlyWhenItMust`.

## Model

| member | source | states |
|---|---|---|
| BridgeTheorems.WaitersDieWithTheirGeneration | src/snu/bridge.rs:777-863 | over every run a request waiter is pending only while its generation is installed or being torn down; once that generation's waiters were failed none reappears and nothing more is enqueued on it |
| BridgeTheorems.OneOutcomeEach | src/snu/bridge.rs:945-966 | every registered waiter is pending or has exactly one outcome, which never changes; nothing is lost or duplicated |
| BridgeTheorems.SessionWaitersSurviveReconnects | src/snu/bridge.rs:648-687 | a session waiter is never failed by a reconnect; it ends only by a token it accepts or by the sweep after its caller gave up |
| BridgeTheorems.SessionStreamIsExact | src/snu/bridge.rs:945-966 | the captured sessions are exactly the token-carrying messages delivered, in order, and only grow; every message that answered a waiter was delivered, so a token that ended a wait is in the stream |
| BridgeTheorems.SupportOnlyClimbs | src/snu/bridge.rs:976-1014 | within a generation gate support only climbs Unknown, Legacy, Gated; Gated is absorbing; an advertised gate version means Gated; revisions never drop |
| BridgeTheorems.StatusIsWhatWasObserved | src/snu/bridge.rs:976-1014 | the status is a function of what was inspected and reported in its generation: the build is the last build info pushed, support is Gated exactly when some build info had gates or a gated report was committed, and gates are stored exactly for the origins that were sent; every delivered message had been inspected |
| BridgeTheorems.PushedGatesStick | src/snu/bridge.rs:986-992 | build info with gates, pushed while the status was its generation's, keeps that generation Gated, and never legacy, in every later state |
| BridgeTheorems.AdvertisementCanBeWithdrawn | src/snu/bridge.rs:986-992 | a run in which a second build message withdraws the advertisement while support stays Gated |
| BridgeTheorems.DeliveryAnswersEveryMatch | src/snu/bridge.rs:955-966 | a delivery answers exactly the pending waiters that wait for the message: by its id, by its action, or for a token of their origin |
| BridgeTheorems.TeardownFailsItsWaiters | src/snu/bridge.rs:852-863 | a teardown fails exactly the pending waiters of its generation |
| BridgeTheorems.SweepRemovesTheAbandoned | src/snu/bridge.rs:1024-1030 | the sweep removes exactly the waiters that were given up |
| BridgeTheorems.RequestsAreSentOrGivenUp | src/snu/bridge.rs:585-620 | in every run each request registered for a connection was put on its socket or has been given up |
| BridgeTheorems.StoredGatesAreFirstMaximal | src/snu/gates.rs:138-146 | each origin's stored gates are the first of maximal revision among all that were pushed or reported in the generation |
| BridgeTheorems.RepliesComeFromTheSameGeneration | src/snu/bridge.rs:568-620 | a request with an id of the bridge's own is answered only by the helper of the connection it was enqueued on |
| BridgeInvariants.StepKeeps | src/snu/bridge.rs:777-863 | every critical section keeps the bridge invariant and only extends history |
| BridgeInvariants.Reachable | src/snu/bridge.rs:268-291 | the invariant holds in every state of every run from start |
| BridgeManager.Manager.CloseWaiters | src/snu/bridge.rs:852-863 | draining the list answers exactly the waiters taken and keeps the others in order |
| BridgeManager.Manager.FailWaitersForGeneration | src/snu/bridge.rs:852-863 | fails the waiters of one generation, and no others |
| BridgeManager.Manager.NumberConnection | src/snu/bridge.rs:782 | the attach takes the next generation number |
| BridgeManager.Manager.InstallConnection | src/snu/bridge.rs:796-805 | the numbered connection replaces the old one, which is remembered |
| BridgeManager.Manager.AttachConnection | src/snu/bridge.rs:777-820 | undisturbed, an attach is number, install, fail replaced, reset status |
| BridgeManager.AttachFailsOnlyReplaced | src/snu/bridge.rs:806-815 | an undisturbed attach drops exactly the replaced connection's waiters |
| BridgeManager.Manager.TakeConnection | src/snu/bridge.rs:834-846 | the connection is taken only while it still is the installed one |
| BridgeManager.Manager.DetachConnection | src/snu/bridge.rs:833-850 | teardown of a replaced generation changes nothing; otherwise its waiters fail |
| BridgeManager.Manager.CaptureHelperMetadata | src/snu/bridge.rs:976-1014 | metadata is recorded only for the status's own generation |
| BridgeManager.Manager.DeliverMessage | src/snu/bridge.rs:945-966 | undisturbed, a delivery is inspect, announce, answer every matching waiter |
| BridgeManager.Manager.SweepAbandoned | src/snu/bridge.rs:1026-1030 | the sweep removes exactly the waiters whose callers gave up |
| BridgeManager.Manager.RequestBound | src/snu/bridge.rs:585-620 | enqueued if and only if a connection, its writer, the expected generation and the expected support are there; a refusal changes nothing but a waiter left for a gone writer |
| BridgeManager.Manager.CommitLegacyVerdict | src/snu/bridge.rs:383-398 | legacy is committed if and only if the generation is unchanged and no gates have shown |
| BridgeManager.Manager.CommitReport | src/snu/bridge.rs:440-454 | applying a report's snapshots in any order keeps, per origin, the higher revision |
| Gates.WinnerIsFirstMaximal | src/snu/gates.rs:138-146 | replacing only on a greater revision keeps the first of maximal revision |
| Gates.GatesAreIndependent | src/snu/gates.rs:53-63 | changing one gate's setting changes that gate's mode and no other's |
| Gates.GatesByAction | src/snu/gates.rs:199-220 | which actions each gate guards, with REST methods in any case |
| Gates.InstanceNamesTheTarget | src/snu/gates.rs:222-232 | the target origin is the instance's; the URL counts only without one |
| DispatchTheorems.GatedActionsAreBoundToTheirHelper | src/snu/broker.rs:951-971 | in every run the i-th write of a gated action, on generation g's socket, used its dispatch's i-th preflight, made with g; that preflight's query was enqueued for this dispatch alone, on g, between the write before and this one; and g's own helper allowed this payload, or answered without gates, or stayed silent |
| DispatchEvidence.TaskOwns | src/snu/broker.rs:951-1181 | each phase keeps that a dispatch acts only on queries and probes enqueued for it, each newer than its last write, and that all its writes speak the protocol its request fixes |
| DispatchEvidence.QueriesAreNotShared | src/snu/bridge.rs:585-620 | a capability query belongs to one dispatch |
| DispatchTheorems.ReachableOwns | src/snu/broker.rs:807-874 | both invariants hold for every dispatch in every reachable state |
| DispatchTheorems.ActionsAreWrittenAtMostTwice | src/snu/broker.rs:1020-1108 | one request writes its action at most twice, the second time only after the helper reported that the first failed |
| DispatchTheorems.OneProtocolPerRequest | src/snu/broker.rs:843-871 | either all writes of a request carry and await its own id, or all carry none and await its one expected action; they carry one of the two submitted payloads, up to the session; a retry without eviction is verbatim; after an eviction the new session is of the evicted origin |
| DispatchTheorems.EvictionNeedsARejectedProbe | src/snu/broker.rs:1250-1322 | dispatch drops a cached session only after a probe enqueued for this dispatch, carrying the very session it evicts, was answered as stale; and only that session's origin when it has one |
| DispatchTheorems.LegacyWritesNeedALegacyHelper | src/snu/broker.rs:1136-1181 | a legacy action is enqueued only while the installed helper is classified legacy in that generation |
| DispatchTheorems.VerdictsAreCurrent | src/snu/bridge.rs:371-454 | a verdict is given only for the generation the status has: a legacy one while it reads legacy, one from gates while it reads gated |
| DispatchSupport.AdvertisedHelpersAreNeverLegacy | src/snu/bridge.rs:379-398 | in every run, once build info with gates was inspected, no dispatch is given a legacy verdict for that generation, none writes a legacy action to it, and one whose query it left unanswered fails closed |
| DispatchOutcomes.OutcomesAreEarned | src/snu/broker.rs:1020-1108 | in every run a finished dispatch has its cause on record: success a failure-free reply to its last write and to this very request; a failed or paused action such a reply; a timeout a write or wait given up; access denied a stale refusal and an accepted probe of the same session; a refused gate a report that does not list the origin or has the gate off |
| DispatchOutcomes.RetriesAreEarned | src/snu/broker.rs:1045-1108 | a verbatim second write follows a transient failure, a probe or an eviction a stale refusal |
| DispatchOutcomes.RepliesDecide | src/snu/broker.rs:1036-1067 | an answered write leads to success exactly when the reply reports no failure, and else to exactly one of pause, retry, probe or failure |
| DispatchCauses.EndsHaveCauses | src/snu/broker.rs:951-1322 | in every run a dispatch ends only for a cause in the state it ends in, outcome by outcome |
| DispatchProgress.MovesUnlessWaiting | src/snu/broker.rs:1020-1108 | a dispatch that has its turn stays where it is exactly when it waits for the lock or for an open request; every other move brings it nearer its end |
| DispatchProgress.DispatchesAreBounded | src/snu/broker.rs:1020-1108 | in every run a dispatch moves at most 23 times |
| DispatchSessions.LegacyActionsUseTheNewestSession | src/snu/broker.rs:1110-1131 | a legacy action goes out with the session cached for its origin when it got the lock |
| DispatchSessions.SuccessVerifiesTheSession | src/snu/broker.rs:1236-1247 | success verifies the cached session the payload used, and no other reply changes the cache |
| DispatchSessions.RefreshReplacesTheSession | src/snu/broker.rs:1298-1322 | an eviction removes the origin's session; the one that ends the wait is cached, latest, and used for the second write |
| DispatchTheorems.SystemKeeps | src/snu/broker.rs:807-874 | every step of every task, of the bridge and of clients keeps the system invariant |
| DispatchTheorems.ReachableSystem | src/snu/broker.rs:807-874 | the system invariant holds in every reachable state |
| DispatchProofs.TaskKeeps | src/snu/broker.rs:951-1322 | each phase of a dispatch keeps its task's evidence, protocol and history in order |
| LegacyLock.LegacyActionsAreExclusive | src/snu/broker.rs:850-861 | at most one task at a time is between admission to the legacy protocol and its end |
| SessionCache.CallKeepsCoherent | src/snu/broker.rs:258-324 | each cache call keeps latest, sessions and freshness coherent |
| SessionCache.ReachableCachesAreCoherent | src/snu/broker.rs:258-342 | from an empty or restored cache, latest is None exactly when nothing is cached and otherwise cached, freshness is only of cached origins, and no verification precedes its capture |
| SessionCache.CacheIsItsHistory | src/snu/broker.rs:258-324 | after any calls the session cached for an origin is the one last remembered and not cleared since, with the times of its token, and the origin last remembered is the latest until cleared |
| DispatchSessions.CacheStaysCoherent | src/snu/broker.rs:258-324 | the cache stays coherent in every run of dispatches, reconnects and client calls |
| SessionCache.CallsFrameOtherOrigins | src/snu/broker.rs:258-315 | a call for one origin leaves every other origin's session and freshness alone |
| SessionCache.RememberingAgainKeepsFreshness | src/snu/broker.rs:260-275 | re-remembering an unchanged token leaves freshness alone |
| SessionCache.BrokerState.RememberSession | src/snu/broker.rs:258-280 | the session is cached as the latest; only a changed token restarts freshness |
| SessionCache.BrokerState.MarkSessionVerified | src/snu/broker.rs:285-292 | a cached origin's verification time is set, an unknown origin's is not |
| SessionCache.BrokerState.ClearOneOrigin | src/snu/broker.rs:308-315 | one origin goes; latest moves to a survivor only if it named that origin |
| SessionCache.BrokerState.ClearAll | src/snu/broker.rs:318-324 | everything goes and the cleared origins are returned |
| SessionCache.BrokerState.RestoreSessions | src/snu/broker.rs:330-342 | the persisted sessions replace the cache, the persisted latest origin is honoured when it is among them, and an empty snapshot changes nothing |
| Domain.ApplyToQuery | src/models/domain.rs:33-52 | the loop over branches is the branch-wise restriction, or a refusal |
| Domain.AcceptedExactly | src/models/domain.rs:36-45 | a query is accepted if and only if in every branch no term but a final EQ begins with EQ and the first term that is not empty is no OR term |
| Domain.ConstrainedGroups | src/models/domain.rs:37-50 | in an accepted branch nothing stops parsing and the condition is a group of its own, after all the branch's groups |
| Domain.ConstrainedHasNoSeparator | src/models/domain.rs:46-50 | a restricted branch holds no branch separator, not even across the seam |
| Domain.SplitOfResult | src/models/domain.rs:36-51 | splitting the result gives back exactly the restricted branches |
| Domain.ResultAddsOneGroupPerBranch | src/models/domain.rs:31-52 | the result reads as every branch with the condition added; it is exactly the query so read if and only if no branch but the last ends in EQ |
| Domain.ResultMeansQueryWithinDomain | src/models/domain.rs:31-52 | a record is selected if and only if it is in the domain and the query, or a branch an early EQ had hidden, selects it |
| Domain.ResultIsExact | src/models/domain.rs:31-52 | without an early EQ the result means the query and the domain |
| Domain.EarlyStopIsNotExact | src/models/domain.rs:31-37 | for every domain there is an accepted query whose result selects what the query does not |
| Domain.DisplayParses | src/models/domain.rs:10-28 | a displayed domain parses back to itself |
| Domain.ParsedDisplays | src/models/domain.rs:10-28 | a value parses if and only if it is the word or 32 hexadecimal digits, and is displayed as given |
| OrderBy.Format | src/models/order_by.rs:139-152 | the writer's loop produces the comma-separated canonical form |
| OrderBy.EachKeyParsed | src/models/order_by.rs:114-122 | a list parses if and only if each trimmed item does, key by key |
| OrderBy.ParsedIsValid | src/models/order_by.rs:94-111 | every parsed list is non-empty and has only valid fields |
| OrderBy.DisplayRoundTrips | src/models/order_by.rs:69-152 | parsing undoes display if and only if no ascending field begins with ORDERBY |
| OrderBy.ClausesRoundTrip | src/models/order_by.rs:40-49 | the encoded clauses read with commas parse back if and only if no ascending field begins with DESC |
| OrderBy.RoundTripsCanFail | src/models/order_by.rs:69-93 | both conditions exclude a specification the parser accepts |
| OrderBy.SpellingsAgree | src/models/order_by.rs:74-92 | a direction suffix in any case and the hyphen prefix mean the same key |
| OrderBy.OnlySpellings | src/models/order_by.rs:69-93 | whatever parses is one of the five spellings of its key |
| OrderBy.FieldsAreDottedNames | src/models/order_by.rs:94-111 | a field is valid if and only if it is names of letters, digits and underscores joined by single dots |
| OrderBy.SortingKeepsMeaning | src/models/order_by.rs:56-62 | the sorted query selects what the trimmed query selects, and everything when there was none |
| OrderBy.SortingComesLast | src/models/order_by.rs:51-62 | all terms the query had stay in order, before the new clauses |
| EncodedQuery.InertTermKeepsMeaning | src/models/order_by.rs:56-62 | an empty or sort term at the end of any query changes nothing it selects |
| ListQuery.TrimmedBranches | src/client/table.rs:53-55 | trimming the restricted query trims the first branch and leaves the others |
| ListQuery.SortedListingStaysInDomain | src/cli/commands/table.rs:51-70 | restricted then sorted, a listing selects only records of the domain if and only if the trimmed query does not begin with EQ |
| ListQuery.SpacedStopIsAccepted | src/models/domain.rs:38-45 | a query that fails that condition is accepted by the restriction |
| Pagination.GetTableRecords | src/client/table.rs:56-148 | the page loop ends for every server and computes the round-by-round fetch, with the requests it sent |
| Pagination.FetchFromAnyServer | src/client/table.rs:64-139 | requests follow each other without gap or overlap within the limit; the result is what was delivered cut at the limit; without a total no cut goes unreported |
| Pagination.FetchEndsWithItsLastReply | src/client/table.rs:64-147 | against any server every request but the last was answered by a full page below the limit; the fetch fails exactly when its last request failed, succeeds exactly when the last page was short or reached the limit, overflows exactly when a further page was due beyond a machine word; requests ask for a page or what the limit leaves; the first total reported is kept and the cut is told |
| Pagination.FetchFromHonestServer | src/client/table.rs:64-147 | against an unchanging list the fetch never fails, returns exactly the slice, and without a total never passes an incomplete result for a complete one |
| Pagination.HonestStep | src/client/table.rs:113-131 | one page from an honest server ends exactly or moves on, and the offset cannot overflow |
| Pagination.WalkCoversTheList | src/client/pagination.rs:42-48 | walking by next_offset with a limit of at least one ends, and its pages are the list from the start, each row once |
| Pagination.ListResult.NextOffset | src/client/pagination.rs:43-48 | a next offset is named only for a truncated result and lies exactly its records behind the offset, further on; none is named only when nothing is missing, nothing came, or the sum is beyond a machine word |
| Pagination.EndsExactlyWhenItMust | src/client/table.rs:64-131 | a fetch ends against every server if and only if its page size is at least one or its limit is zero; otherwise a server without records keeps it asking in every round |
| Pagination.VerdictsEndInTheFetch | src/client/table.rs:64-139 | with a page size of at least one the verdict some round ends in is the result of the fetch |
| Cookies.ReadAttributes | src/config/native_session.rs:70-88 | the attribute loop finds the last valid Max-Age and the last valid Expires |
| Cookies.MergeCookieHeader | src/config/native_session.rs:57-102 | the header loop computes the merge |
| Cookies.NativeSession.MergeResponseCookies | src/config/native_session.rs:45-53 | the header becomes the merge, and a change is reported exactly when there is one |
| Cookies.AgeExpiredIsNotPositive | src/config/native_session.rs:76-82 | the digit test is "integer value at most zero" at any length |
| Cookies.DeletesExactlyTheExpired | src/config/native_session.rs:89-91 | deleted if and only if empty, or the last valid Max-Age is at most zero, or without a valid Max-Age the last valid date has passed |
| Cookies.HeadersThatUpdate | src/config/native_session.rs:64-70 | a header updates the jar if and only if it is text with a `=` before its first `;`, and with which name and value |
| Cookies.AttributesByKey | src/config/native_session.rs:70-75 | an attribute counts by its key in any case |
| Cookies.LastWriteWins | src/config/native_session.rs:92-95 | the jar is the untouched cookies in order and then the surviving last update of each case-folded name in order of last occurrence |
| Cookies.FormatParses | src/config/native_session.rs:58-62 | a written jar reads back as itself |
| Cookies.MergedParses | src/config/native_session.rs:57-102 | the merged header holds exactly the merged jar |
| Cookies.BatchesMergeAsOne | src/config/native_session.rs:57-102 | merging batch A then B equals merging A and B together |
| Cookies.MergingTwiceIsOnce | src/config/native_session.rs:57-102 | merging the same batch again changes nothing |
| FormSession.FormLogin | src/client/session.rs:314-382 | the redirect loop computes the login cookies, or fails |
| FormSession.LoginMergesAllResponses | src/client/session.rs:346-380 | a login through redirects ends with the merge of all its responses' cookies at once, never empty |
| FormSession.LoginSucceedsExactly | src/client/session.rs:314-382 | a login succeeds if and only if its at most five redirects can be followed, a page that ends them is a success, and all responses together leave a cookie |
| FormSession.SnowClient.ObserveResponse | src/client/session.rs:144-159 | a response rotates the native cookies or the form cookies and the session id |
| FormSession.SnowClient.EnsureFormSessionWithCookie | src/client/session.rs:385-442 | after a login the token, cookies and session id are set together or not at all |
| FormSession.SnowClient.EstablishFrom | src/client/session.rs:253-297 | a page with a token sets up a native or a form session |
| FormSession.SnowClient.BootstrapFormSession | src/client/session.rs:192-297 | the bootstrap as a function of the client and the replies |
| FormSession.SnowClient.PrepareScript | src/client/transport.rs:158-166 | readiness of a form script as a function of the client and the replies |
| FormSession.EnsureKeepsCoherent | src/client/session.rs:428-441 | after a login the kept cookies name the kept session id |
| FormSession.BootstrapMakesReady | src/client/session.rs:192-297 | a successful bootstrap leaves a token and cookies, and every outcome a coherent client |
| FormSession.BootstrapSucceedsExactly | src/client/session.rs:192-297 | when a bootstrap without a native session succeeds, directly or by login, and whose token and cookies are kept |
| FormSession.NativeBootstrapSucceedsExactly | src/client/session.rs:192-297 | when a bootstrap of a native session succeeds, and what the session then is |
| FormSession.ReachableIsCoherent | src/client/session.rs:144-442 | in every run a form session has cookies and a session id, and a native client keeps none of the three |
| FormSession.ScriptsAlwaysHaveCredentials | src/client/transport.rs:158-166 | in no run are the two bail-outs after a bootstrap reached; a script carries the cookies and token the client holds, a native one those of its authenticator |
| FormSession.ReachableIdIsPlain | src/client/session.rs:7-42 | every session id held is one a cookie can carry |
| FormCookies.FormattedReads | src/client/session.rs:7-42 | reading a name from a written jar finds the first cookie of that name |
| FormCookies.KeptCookiesNameTheSession | src/client/session.rs:253-297 | after any run, when a bootstrap page shows a token, the kept cookies name the session id held if and only if the page's Set-Cookie updates leave no cookie or leave that id as the session cookie |
| FormCookies.KeptCookiesCanLackTheSession | src/client/session.rs:271-286 | a run of two calls, at any clock, ends with a form session whose kept cookies lack its session id |
| Scrub.Skip | src/client/error.rs:233-237 | each inner loop stops at the end of the run of its class |
| Scrub.ReadKey | src/client/error.rs:231-259 | from a key fragment the scan reaches exactly the start of its value, or finds none |
| Scrub.Scrub | src/client/error.rs:209-278 | the scanning loop ends, with its copy bounds in order, and computes the redaction |
| ScrubComplete.FirstKeyIsRedacted | src/client/error.rs:209-278 | in any text, the first listed key in any case, with its word, quotes and spaces, `=` or `:`, quotes and spaces, an optional scheme word and a value, has exactly that value replaced by the mark, and the rest is redacted in turn |
| ScrubComplete.EveryKeyReachedIsRedacted | src/client/error.rs:222-273 | the same at every position the scan arrives at |
| ScrubComplete.KeyWithoutValueIsCopied | src/client/error.rs:243-246 | a key with no separator, and for bearer no gap, is copied |
| ScrubComplete.NoKeyIsCopied | src/client/error.rs:222-228 | a text without a listed key is unchanged |
| ScrubComplete.FirstSecretIsScrubbed | src/client/error.rs:209-278 | the same for scrubbing with control stripping |
| Scrub.PiecesRebuild | src/client/error.rs:268-277 | the kept and secret pieces rebuild the text, and with every secret replaced by the mark the output |
| Scrub.SecretsAreValuesOfKeys | src/client/error.rs:223-267 | every redacted piece is a whole value right behind a piece that begins with a sensitive key |
| Scrub.NextStable | src/client/error.rs:222-273 | in the output the scan meets the same keys, gaps and value starts |
| Scrub.OnlyMarksRemain | src/client/error.rs:206-208 | every value the scan finds in its own output is the mark |
| Scrub.RedactTwice | src/client/error.rs:222-277 | redaction is idempotent on every text |
| Scrub.ScrubbingTwiceIsOnce | src/client/error.rs:209-278 | scrubbing, with its control stripping, is idempotent on every text |
| Bootstrap.ReadUnicode | src/client/session_bootstrap.rs:30-48 | reads one unicode escape with its second half, or fails |
| Bootstrap.ReadLiteral | src/client/session_bootstrap.rs:14-54 | the decoding loop computes the text of a literal up to its closing quote |
| Bootstrap.ParseBootstrap | src/client/session_bootstrap.rs:5-54 | finds the page's literal and decodes it |
| Bootstrap.PageLiteralDecodes | src/client/session_bootstrap.rs:5-14 | the literal behind the first marker of a page, past spaces and in either quotes, is decoded to its meaning |
| Bootstrap.EscapesByCode | src/client/session_bootstrap.rs:20-29 | the one-character escapes by code point; an escaped line feed is nothing, any other character itself |
| Bootstrap.PairsAreScalars | src/client/session_bootstrap.rs:39-44 | a high and a low surrogate combine to a scalar whose UTF-16 split they are |
| Bootstrap.ScalarsArePairs | src/client/session_bootstrap.rs:42-44 | the UTF-16 split of a scalar beyond the basic plane combines back to it |
| Bootstrap.DecodesWhatIsWritten | src/client/session_bootstrap.rs:14-53 | every admissible mix of characters, escapes, units, pairs and continuations decodes to its meaning at the closing quote |
| Bootstrap.DecodedWasWritten | src/client/session_bootstrap.rs:14-53 | whatever is decoded was such a mix followed by the closing quote |
| Bootstrap.EscapedTextDecodes | src/client/session_bootstrap.rs:30-47 | every sequence of scalars survives UTF-16 escaping and decoding |
| Bootstrap.CodesAreHexOrPlus | src/client/session_bootstrap.rs:31-32 | four characters number a unit if and only if they are four hexadecimal digits or a plus sign and three |
| Bootstrap.OnlyPlusIsLenient | src/client/session_bootstrap.rs:30-32 | no other four characters behind `\u` are decoded, and every plus sign with three digits decodes to the character they number |
| FormBody.UrlEncoded | src/auth/oauth2.rs:659-673 | the byte loop computes the percent encoding |
| FormBody.BuildFormBody | src/auth/oauth2.rs:640-657 | the parameter loop joins the present pairs |
| FormBody.DecodeEncodes | src/auth/oauth2.rs:659-673 | percent-decoding recovers every byte sequence |
| FormBody.EncodedIsWellEncoded | src/auth/oauth2.rs:660-669 | encoded values hold only unreserved characters and upper-case %HH |
| FormBody.UnreservedIsVerbatim | src/auth/oauth2.rs:660-669 | a value is encoded as it is if and only if all of it is unreserved |
| FormBody.BodyParsesToPresent | src/auth/oauth2.rs:640-657 | splitting and decoding a body recovers exactly the present parameters in order, if and only if their keys hold no separator |
| TokenCache.OAuth2Auth.AuthenticateAuthorizationCode | src/auth/oauth2.rs:374-406 | cache and keychain after the call, and the header or the error |
| TokenCache.OAuth2Auth.Authenticate | src/auth/oauth2.rs:677-697 | the same for every grant |
| TokenCache.OAuth2Auth.Refresh | src/auth/oauth2.rs:699-744 | cache and keychain after a refresh, with the fallback of the other grants |
| TokenCache.AuthenticateKeepsSync | src/auth/oauth2.rs:374-406 | authenticate keeps the cached token the stored one, except exactly when it stores a refreshed token that makes no header over an older cached one |
| TokenCache.RefreshKeepsSync | src/auth/oauth2.rs:699-744 | refresh keeps them the same whatever fails |
| TokenCache.RefreshCachesTheNewToken | src/auth/oauth2.rs:699-744 | for every grant, when a refresh succeeds; the new token is then cached, and stored by the authorization code grant; a refresh that fails changes nothing |
| TokenCache.RefreshedTokenIsUsed | src/auth/oauth2.rs:374-385 | until shortly before it expires, the refreshed token answers without a request |
| TokenCache.HeaderIsOfCachedToken | src/auth/oauth2.rs:374-406 | for every grant a header returned is that of the cached token, which is not about to expire or was just obtained |
| TokenCache.CacheFollowsKeychain | src/auth/oauth2.rs:374-406 | after every run with valid tokens, including failed requests and stores, a cached token is the stored one |
| TokenCache.ExpiryTestsAgree | src/auth/oauth2.rs:52-81 | with a recorded expiry the cached and the stored expiry test agree at every time |
| TokenCache.HeaderIsOfStoredToken | src/auth/oauth2.rs:402-416 | a header returned is that of the token in the keychain |
| TokenCache.OtherGrantsLeaveTheKeychain | src/auth/oauth2.rs:677-744 | the other grants never write the keychain token |
| TokenCache.InvalidReplyDesynchronizes | src/auth/oauth2.rs:391-405 | without valid tokens a run can leave cache and keychain apart |
| Preview.PreviewRecordFields | src/cli/truncation.rs:109-138 | in place, every long field is cut, nothing else changes, and the report is the list of cuts |
| Preview.PathLocates | src/cli/truncation.rs:58-68 | a reported path evaluates, after RFC 6901, to the record and field it was made for |
| Preview.EntriesNameTheCuts | src/cli/truncation.rs:125-133 | every entry names a field that was cut, with its length before and after |
| Preview.CutsAreReported | src/cli/truncation.rs:125-133 | every changed field has an entry |
| Preview.CutsAreFronts | src/cli/truncation.rs:70-77 | no string is longer than the limit afterwards; each is the front of what it was, and all that fitted is unchanged |
| Preview.PathsAreDistinct | src/cli/truncation.rs:62-68 | no two entries share a path |
| Preview.SecondPassIsIdle | src/cli/truncation.rs:70-77 | a second pass changes and reports nothing |

## Left out

- Bridge: the host hello, banners, pings and the heartbeat's timing are not modelled; reaping a silent connection is a detach step that may always happen.
- Bridge: the `connected` flag is not modelled; it is written outside the connection lock, so waiting for a connection is an arbitrary wait.
- BridgeTheorems.WaitersDieWithTheirGeneration: a teardown entered from the reader aborts that reader's own task before it waits for the lock on the waiters (`src/snu/bridge.rs:842-848`); under contention it is cancelled there and its waiters are never failed. The model counts such a generation as being torn down from then on: its waiters stay pending until their own timeouts.
- Bridge: no request uses the matcher for the next message of any kind, so it is not modelled.
- Bridge: the helper's licence metadata and descriptive build fields carry no decision.
- Bridge: generation numbers are unbounded, so 64-bit wrap-around is not modelled.
- Bridge: correlation ids the bridge generates are taken to be fresh; clients' own ids may repeat.
- Broker: the texts behind a failure are reduced to the verdicts of the three text tests; the wording of errors is not modelled.
- Broker: payloads keep the fields the broker reads; malformed `instance` objects in a payload are not modelled.
- Broker: status listing, in-flight counters, idle shutdown, IPC framing and the persistence of sessions are left out.
- URL parsing: an instance URL comes with its origin.
- OrderBy: the JSON (de)serialization of a sort specification is its text form and adds nothing.
- Pagination: request parameters other than limit and offset, and the retry of a request after a 401, are inside the server.
- Cookies.MergeCookieHeader: date texts are parsed by a given function, because HTTP dates have a grammar of their own.
- FormSession: the search for the token in a page is the field `gck` of a response; parsing Basic credentials is a flag; URL checks on redirects are a flag.
- FormSession: headers and body fields of the script request other than cookies and token are left out.
- Scrub.Scrub: positions are characters, not UTF-8 bytes; every fragment and delimiter is ASCII, so the two scans meet the same places, but slicing at byte boundaries is not modelled.
- Scrub: bounding a message's length and the classification of error codes are straight-line code.
- Bootstrap.ParseBootstrap: parsing the decoded text as JSON is not modelled.
- TokenCache: the instant and the epoch clock are one clock in whole seconds, and an expiry beyond the clock's range, which the program cannot represent either, is excluded.
- TokenCache: client secrets, passwords and the wording of requests are part of whether a request succeeds.
- Preview.PreviewRecordFields: a record is its fields in key order; the fixed escape-hatch text of an entry is left out, and so is the Code Search shape, which applies the same pass to nested objects.
- Profiles, command-line parsing, output printing, debug logs, the docs site and session switching are left out.
