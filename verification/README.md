# Verified model of the RocketAdmin core

A Dafny model of four parts of RocketAdmin, with proofs of what they are meant to guarantee.

**Cedar policies** (`Text`, `CedarPolicy`, `PolicyGenerator`, `PolicyScanner`, `PolicyParser`, `PolicyReading`,
`PolicyWildcards`, `PrintedPolicies`, `PolicyRoundTrip`, `PolicyStability`, `PolicyExactness`, `GroupExactness`,
`CedarEngine`, `Authorization`, `PolicySaving`). Classical group permissions are printed as Cedar text; a hand-written
scanner and regular expressions read them back; the guard service and the permissions service evaluate the same text.
The model works on the characters: the printer's pushes and join, the scanner's index loops, the regular expressions
(leftmost match, `\s`, `\w`, `$` with the `m` flag), the in-place entry maps, a strict reader of permit-only Cedar, and
the two services' loops.

**WebSocket relay** (`RelayState`, `RelayServer`, `RelayRuns`, `ReconnectingAgent`). The relay's caches, callbacks, timers
and sockets are a state machine over interleaved events (command, agent data, registration, timer, expiry, eviction,
sockets opening and closing, agents executing). `RelayServer.Server` is the handlers' code, with the cache's `dispose` callback running in
the middle of every removal; each method is proved to do exactly what the state machine says about its event. `RelayRuns`
says what whole runs come to, in terms of the events alone. The agent's reconnect machine is modelled the same way.

**Metadata cache** (`Json`, `MetadataKeys`, `ConnectionIdentity`, `MetadataCache`). Keys are JSON texts, and a connection
is invalidated by searching for a piece of JSON inside each key. A connection is an ordered list of named scalars.

**AI helpers** (`ToolCalls`, `TableSettings`). Tool calls assembled from streamed chunks, and table settings asked of an
AI in batches of ten, with a second try for each table of a failed batch. The AI is an arbitrary function of the call
number and the tables asked about.

## Main results

- *Round trip.* Parsing printed text gives the normal form of the permissions: visibility is the OR of four flags,
  `readonly` is derived, repeated entries are merged in order of first appearance, entries without access vanish, and
  `create` and any `read` move to the `__new__` dashboard (`RoundTrip`). It needs ids with balanced parentheses, and names
  without quotes. For one table and for one dashboard this is exact: the round trip holds if and only if the name is such
  (`OneTableExact`, `OneDashboardExact`); for one group it holds if and only if the id is balanced or itself ends the
  statement (`OneGroupExact`). The normal form is stable, and re-printing it authorises the same requests
  (`PrintParseStable`, `ReprintGrantsSame`).
- *Meaning.* The guard allows exactly what the permissions grant (`GuardMeansEntitled`, `SentinelRequests`); a group is
  judged in its own connection, whichever one the request names (`GroupRequests`); several groups decide like one policy holding all their statements (`GroupsCombine`); the permissions service and the guard
  agree exactly on users who are not suspended or are shown nothing (`ServicesAgree`); evaluating and parsing a printed
  policy show the same flags (`ThreeViews`).
- *Saving.* A policy made of statements is saved if and only if none of them names another connection, a group of
  another connection, or a table or dashboard outside the connection; otherwise it is refused with the error of the
  first kind that fails (`StatementsSaved`, `OtherConnectionIsRefused`, `SavedExactly`).
- *Relay.* In every run, callbacks are cached exactly while their request is unsettled, at most 10000 of them; a request is
  settled once; a 200 carries the result of executing that request's own command (`EveryRun`, `SettledOnce`, `LateAnswer`).
  A request is answered 200 with some data if and only if that data arrived while the request was live, and live means
  sent, unanswered and not expired (`DataExactly`, `LiveExactly`); `AnsweredExactly` says the same of every response. A full
  cache evicts the oldest request, and the token whose socket was looked up longest ago (`EvictedRequestIsOldest`,
  `EvictedTokenIsOldest`).
- *Reconnecting.* In every run the number of attempts is the number of failures since the socket was last open, the
  delays are those of these attempts, and the client gives up exactly at the closing that finds that number at the
  maximum (`StateExplained`, `GivesUpExactly`).
- *Invalidation.* The substring search finds a key exactly when it belongs to the invalidated connection
  (`IncludesIsOwn`), so metadata that is returned is newer than the last schema change that was seen (`MetadataIsFresh`).
- *Tool calls.* The stream ends with one call for each index that was given a name, in order of first appearance, with
  the last id and name, and with the parsed concatenation of its pieces if that is not empty and parses
  (`TransformToAIStreamChunks`, `NamedExact`, `ArgsConcat`).
- *AI batching.* For an AI whose answer about a batch is what it would answer about each table alone, and tables with
  distinct names, batching and falling back do not change the result (`BatchingIsTransparent`). For any AI, every setting
  names a real column (`SettingsAreReal`), and the number of calls is bounded (`CallBounds`).

## What the proofs found in the code

- The scanner counts parentheses inside strings, which Cedar does not, and the printer escapes nothing. A table named
  `a)` is printed as a policy that the parser cannot read back (`UnbalancedNameIsLost`), although a Cedar reader reads it
  and allows the table to be read (`EngineReadsUnbalancedName`). A group with the unbalanced id `a);` is read back all the
  same, since that id ends its own statement (`UnbalancedGroupSurvives`).
- An entry with an empty name is printed and authorises requests, but parsing drops it (`ReprintGrantsSame`).
- The main group's policy permits everything, and is parsed as editing the connection and the group with no table or
  dashboard at all (`MainRoundTrip`).
- A policy without any statement is printed as the empty text, which cannot be saved (`PrintedIsSaved`).
- The ten-minute timer never answers 504: deleting the request disposes it first, which answers 500 (`TimerAnswers500`). When
  the cache entry has already expired, the timer does nothing, and the request waits until something looks it up or evicts it.
- The schema hash is kept per connection identifier, and metadata per full connection. Connections that share an
  identifier defeat the check: a change seen through one leaves the other's old metadata in place, and the other's next
  validation then reports no change (`StaleExactlyWhenShared`). Identifiers do not see the password, so two connections
  that differ in it alone are such a pair (`StalePassword`).
- Losing the schema hash, which expires long before the metadata does, has the same effect (`StaleExactlyWhenHashLost`).
- The permissions service does not ask whether the user is suspended; the guard does. A suspended user is still shown a
  connection as editable and a table as visible (`SuspendedUserStillShown`); the services disagree on exactly the
  suspended users who are shown something (`ServicesAgree`).
- An answer about a table that was not asked about is kept, with all its column lists empty (`UnaskedTableIsKept`).

## Model

| member | source | states |
|---|---|---|
| PolicyGenerator.GenerateCedarPolicyForGroup | backend/src/entities/cedar-authorization/cedar-policy-generator.ts:4-118 | the text is the statements of the permission set, in order, joined by blank lines; one unconstrained statement for the main group |
| PolicyGenerator.PushLevel | backend/src/entities/cedar-authorization/cedar-policy-generator.ts:19-48 | an edit level prints read and edit, a readonly level read, any other nothing |
| PolicyGenerator.PushDashboard | backend/src/entities/cedar-authorization/cedar-policy-generator.ts:53-76 | one dashboard's statements, by its read, edit and delete flags |
| PolicyGenerator.PushDashboards | backend/src/entities/cedar-authorization/cedar-policy-generator.ts:50-76 | each dashboard's statements in order, then the sentinel's, by whether any entry has read or create |
| PolicyGenerator.PushSentinel | backend/src/entities/cedar-authorization/cedar-policy-generator.ts:77-87 | the two optional statements on `__new__` |
| PolicyGenerator.PushTable | backend/src/entities/cedar-authorization/cedar-policy-generator.ts:90-115 | one table's statements, by its flags |
| PolicyGenerator.PushTables | backend/src/entities/cedar-authorization/cedar-policy-generator.ts:90-115 | each table's statements in order; read whenever any of four flags is set |
| PolicyGenerator.GrantsMeanPermissions | backend/src/entities/cedar-authorization/cedar-policy-generator.ts:19-115 | a statement is printed if and only if the permission set grants what it permits |
| PolicyGenerator.SentinelGrantsIn | backend/src/entities/cedar-authorization/cedar-policy-generator.ts:77-87 | exactly which statements the sentinel gets |
| PolicyScanner.Round | backend/src/entities/cedar-authorization/cedar-policy-parser.ts:96-145 | every round of the scan either ends it or resumes strictly later, so it terminates on any text |
| PolicyScanner.SkipBlankLoop | backend/src/entities/cedar-authorization/cedar-policy-parser.ts:102-107 | stops at the first character that is no blank |
| PolicyScanner.MatchParenLoop | backend/src/entities/cedar-authorization/cedar-policy-parser.ts:114-122 | finds the closing parenthesis, and reports depth 0 exactly when there is one |
| PolicyScanner.CloseMatches | backend/src/entities/cedar-authorization/cedar-policy-parser.ts:114-122 | that parenthesis is the first place where the nesting depth falls to zero |
| PolicyScanner.ScanOnce | backend/src/entities/cedar-authorization/cedar-policy-parser.ts:96-145 | the body of the outer loop is one round of the scan |
| PolicyScanner.ExtractPermitStatements | backend/src/entities/cedar-authorization/cedar-policy-parser.ts:91-148 | the loop collects the bodies of the spans of the scan, in order |
| PolicyScanner.ScanStructure | backend/src/entities/cedar-authorization/cedar-policy-parser.ts:91-148 | on any text, the reported spans are disjoint, increasing, and each is `permit`, blanks, a balanced body in its matching parentheses, blanks and `;` |
| PolicyScanner.ScanStatement | backend/src/entities/cedar-authorization/cedar-policy-parser.ts:91-148 | a complete statement with a balanced body is reported, and the scan goes on after it |
| PolicyParser.MatchUid | backend/src/entities/cedar-authorization/cedar-policy-parser.ts:158-168 | a match starts with the word, its id is non-empty and has no quote, and it uses up text |
| PolicyParser.GetOrCreateTableEntry | backend/src/entities/cedar-authorization/cedar-policy-parser.ts:200-216 | the first entry of that name, or a blank one appended |
| PolicyParser.GetOrCreateDashboardEntry | backend/src/entities/cedar-authorization/cedar-policy-parser.ts:235-253 | the first entry of that id, or a blank one appended |
| PolicyParser.RecordTableAt | backend/src/entities/cedar-authorization/cedar-policy-parser.ts:200-233 | recording an action changes the entry that was found or appended, and no other |
| PolicyParser.ApplyAction | backend/src/entities/cedar-authorization/cedar-policy-parser.ts:41-78 | one known action raises a level or sets one flag of one entry; an empty name does nothing |
| PolicyParser.ParseCedarPolicyToClassicalPermissions | backend/src/entities/cedar-authorization/cedar-policy-parser.ts:15-89 | the loops compute the fold of all bodies, then derive `readonly` for every table |
| PolicyReading.MatchClause | backend/src/entities/cedar-authorization/cedar-policy-parser.ts:158-168 | what the expression makes of any clause of the printed form, whatever its id contains |
| PolicyReading.ReadAction | backend/src/entities/cedar-authorization/cedar-policy-parser.ts:158-166 | the action clause is read back whatever text follows it |
| PolicyReading.ReadBodyAction | backend/src/entities/cedar-authorization/cedar-policy-parser.ts:158-166 | the action of every printed body is read back, and the body is no wildcard |
| PolicyReading.ReadBody | backend/src/entities/cedar-authorization/cedar-policy-parser.ts:168-171 | the resource id is read back if and only if it is non-empty and has no quote |
| PolicyReading.ReadBodyResource | backend/src/entities/cedar-authorization/cedar-policy-parser.ts:168-171 | together with the id, the kind of the resource is read back |
| PolicyReading.ReadPermitAll | backend/src/entities/cedar-authorization/cedar-policy-parser.ts:158-177 | the unconstrained statement is taken for a wildcard |
| PolicyReading.ActionNameRead | backend/src/entities/cedar-authorization/cedar-policy-parser.ts:41-77 | every printed action name is recognised as its action |
| PolicyReading.ActionNamedExact | backend/src/entities/cedar-authorization/cedar-policy-parser.ts:41-77 | each action is the reading of its own name and of no other text |
| PolicyReading.LocalNameExact | backend/src/entities/cedar-authorization/cedar-policy-parser.ts:182-198 | the local name is the id without the connection's prefix, or the whole id if it does not start with it |
| PolicyWildcards.BareActionExact | backend/src/entities/cedar-authorization/cedar-policy-parser.ts:158-177 | on any text: an unconstrained action is found if and only if the word stands alone between two commas |
| PolicyWildcards.BareResourceExact | backend/src/entities/cedar-authorization/cedar-policy-parser.ts:158-177 | on any text: an unconstrained resource is found if and only if the word stands alone between a comma and a line end |
| PolicyWildcards.UnquotedIsWildcard | backend/src/entities/cedar-authorization/cedar-policy-parser.ts:150-180 | any body without quotes names nothing, and permits everything if and only if it has an unconstrained action or resource |
| PrintedPolicies.BodyBalanced | backend/src/entities/cedar-authorization/cedar-policy-parser.ts:114-122 | a printed body is balanced if and only if its id is |
| PrintedPolicies.ScanPolicy | backend/src/entities/cedar-authorization/cedar-policy-parser.ts:91-148 | scanning distributes over printed statements followed by any text |
| PrintedPolicies.CollectAllReads | backend/src/entities/cedar-authorization/cedar-policy-parser.ts:32-79 | parsing the bodies of printed statements records exactly those statements |
| PrintedPolicies.ParsePrinted | backend/src/entities/cedar-authorization/cedar-policy-parser.ts:15-180 | parsing a printed text is recording its statements one by one |
| PolicyRoundTrip.CollectedIsForm | backend/src/entities/cedar-authorization/cedar-policy-parser.ts:32-86 | the parser's fold in closed form: levels by the actions used, entries by first appearance of their name |
| PolicyRoundTrip.TablesNormal | backend/src/entities/cedar-authorization/cedar-policy-parser.ts:58-85 | the tables read back are the merged visible ones, in order of first appearance |
| PolicyRoundTrip.DashboardsNormal | backend/src/entities/cedar-authorization/cedar-policy-parser.ts:68-86 | the dashboards read back are the merged ones, with read and create on `__new__` |
| PolicyRoundTrip.RoundTrip | backend/src/entities/cedar-authorization/cedar-policy-parser.ts:15-180 | parsing the printed permissions gives their normal form |
| PolicyRoundTrip.MainRoundTrip | backend/src/entities/cedar-authorization/cedar-policy-generator.ts:12-17 | the main group's policy is read as editing connection and group, and nothing else |
| PolicyStability.WellFormedIdsReadable | backend/src/entities/cedar-authorization/cedar-policy-generator.ts:4-118 | ids without quotes and with balanced parentheses make every printed statement readable |
| PolicyStability.NormalGranted | backend/src/entities/cedar-authorization/cedar-policy-parser.ts:29-88 | the normal form grants the same requests, except on an empty name |
| PolicyStability.ReprintGrantsSame | backend/src/entities/cedar-authorization/cedar-policy-generator.ts:50-115 | re-printing parsed permissions prints a permit if and only if the original text had it for a named resource |
| PolicyStability.NormalTwice | backend/src/entities/cedar-authorization/cedar-policy-parser.ts:29-88 | the normal form of a normal form is itself |
| PolicyStability.PrintParseStable | backend/src/entities/cedar-authorization/cedar-policy-parser.ts:15-180 | parse after print, applied twice, equals applying it once |
| PolicyExactness.BetweenQuotes | backend/src/entities/cedar-authorization/cedar-policy-parser.ts:158-168 | a quote-free text between two quotes of a printed statement is one of its three pieces |
| PolicyExactness.FoundIsWellFormed | backend/src/entities/cedar-authorization/cedar-policy-parser.ts:91-180 | if parsing finds the printed table at all, its name has no quote and is balanced |
| PolicyExactness.FoundDashboardIsWellFormed | backend/src/entities/cedar-authorization/cedar-policy-parser.ts:91-180 | if parsing finds the printed dashboard at all, its id has no quote and is balanced |
| PolicyExactness.OneTableExact | backend/src/entities/cedar-authorization/cedar-policy-parser.ts:15-180 | the round trip of one visible table holds if and only if its name is empty or well-formed |
| PolicyExactness.OneDashboardExact | backend/src/entities/cedar-authorization/cedar-policy-parser.ts:15-180 | the round trip of one editable dashboard holds if and only if its id is empty or well-formed |
| PolicyExactness.UnbalancedNameIsLost | backend/src/entities/cedar-authorization/cedar-policy-parser.ts:114-127 | a table named `a)` does not survive, in any connection and group |
| PolicyExactness.EngineReadsUnbalancedName | backend/src/entities/cedar-authorization/cedar-authorization.service.ts:183-204 | a Cedar reader reads the policy for the table `a)` and allows reading it |
| GroupExactness.OpenIdSpans | backend/src/entities/cedar-authorization/cedar-policy-parser.ts:124-127 | an id with an unmatched opening parenthesis leaves nothing to report |
| GroupExactness.ClosedIdSpans | backend/src/entities/cedar-authorization/cedar-policy-parser.ts:114-144 | an id with an unmatched closing one is reported, cut there, if and only if blanks and `;` follow it |
| GroupExactness.OneGroupExact | backend/src/entities/cedar-authorization/cedar-policy-parser.ts:15-180 | the round trip of one readable group holds if and only if its id is balanced or ends its own statement |
| GroupExactness.UnbalancedGroupSurvives | backend/src/entities/cedar-authorization/cedar-policy-parser.ts:15-180 | the group id `a);` survives although its statement is not readable |
| CedarEngine.ReadRuleAt | backend/src/entities/cedar-authorization/cedar-authorization.service.ts:183-194 | a strict Cedar reader reads each printed statement, whatever follows it |
| CedarEngine.ReadPrinted | backend/src/entities/cedar-authorization/cedar-authorization.service.ts:183-194 | it reads a whole printed policy as its statements, in order |
| CedarEngine.AllowsPrinted | backend/src/entities/cedar-authorization/cedar-authorization.service.ts:183-204 | a printed policy allows a request if and only if it holds that permit or the unconstrained one |
| Authorization.LoadPoliciesPerGroup | backend/src/entities/cedar-authorization/cedar-authorization.service.ts:207-209 | the groups' non-empty policies, in order |
| Authorization.EvaluatePolicies | backend/src/entities/cedar-authorization/cedar-permissions.service.ts:402-427 | the early-return loop answers whether some policy allows |
| Authorization.Evaluate | backend/src/entities/cedar-authorization/cedar-authorization.service.ts:164-205 | suspended users are refused with an error; others get the decision of their groups |
| Authorization.Validate | backend/src/entities/cedar-authorization/cedar-authorization.service.ts:36-71 | the verdict of the guard for every request: which connection and resource are asked about is settled by `GuardMeansEntitled`, `GroupRequests` and `UnknownGroupIsRefused` |
| Authorization.ValidateMeansGranted | backend/src/entities/cedar-authorization/cedar-authorization.service.ts:36-71 | for a user in one group with a printed policy, the guard allows exactly what the permission set grants |
| Authorization.GuardMeansEntitled | backend/src/entities/cedar-authorization/cedar-authorization.service.ts:36-71 | a user in one printed group of the request's connection is allowed what that policy entitles to: the level, or an entry with the requested name and flag |
| Authorization.GroupRequests | backend/src/entities/cedar-authorization/cedar-authorization.service.ts:49-53 | a group request is decided in the group's own connection, and the same whatever connection the request names |
| Authorization.UnknownGroupIsRefused | backend/src/entities/cedar-authorization/cedar-authorization.service.ts:49-53 | a group without connection is refused, without an error and without evaluating any policy |
| Authorization.SentinelRequests | backend/src/entities/cedar-authorization/cedar-authorization.service.ts:59-65 | creating a dashboard is allowed if and only if some entry has create; reading without an id if and only if some entry has read |
| Authorization.GroupsCombine | backend/src/entities/cedar-authorization/cedar-authorization.service.ts:173-205 | asking several printed policies in turn decides as one policy with all their statements |
| Authorization.MoreGroupsAllowMore | backend/src/entities/cedar-authorization/cedar-authorization.service.ts:175-209 | for any policies: adding, reordering or repeating groups never takes an allowed request away |
| Authorization.ConnectionLevelOf | backend/src/entities/cedar-authorization/cedar-permissions.service.ts:34-58 | the part that the single and the batch query share |
| Authorization.GetUserConnectionAccessLevel | backend/src/entities/cedar-authorization/cedar-permissions.service.ts:29-59 | edit before readonly before none, by what the user's policies allow |
| Authorization.EvaluateTablePermissions | backend/src/entities/cedar-authorization/cedar-permissions.service.ts:348-400 | the five flags by four decisions |
| Authorization.ServicesAgree | backend/src/entities/cedar-authorization/cedar-permissions.service.ts:348-437 | the five flags and the three levels shown equal the guard's decisions if and only if the user is not suspended, or is shown neither the table nor the connection |
| Authorization.SuspendedIsRefused | backend/src/entities/cedar-authorization/cedar-authorization.service.ts:173-173 | a suspended user gets the account error for every request but one about a group without connection, which is refused before |
| Authorization.SuspendedUserStillShown | backend/src/entities/cedar-authorization/cedar-permissions.service.ts:429-437 | a suspended user of one group with a printed policy: shown the table and an editable connection, refused by the guard |
| Authorization.GetUserPermissionsForAvailableTables | backend/src/entities/cedar-authorization/cedar-permissions.service.ts:222-238 | the order-preserving filter of the per-table permissions by visibility |
| Authorization.VisibleExact | backend/src/entities/cedar-authorization/cedar-permissions.service.ts:222-238 | a table is shown if and only if it was asked about and its flags make it visible, and it is shown with those flags |
| Authorization.VisibleConcat | backend/src/entities/cedar-authorization/cedar-permissions.service.ts:222-238 | asking about two lists shows the answers of the first, then those of the second |
| Authorization.GroupByConnection | backend/src/entities/cedar-authorization/cedar-permissions.service.ts:70-78 | for every connection, its groups in order; groups without connection are left out |
| Authorization.GetUserConnectionAccessLevelsForMultipleConnections | backend/src/entities/cedar-authorization/cedar-permissions.service.ts:61-122 | one level for exactly the requested connections, each by its own groups |
| Authorization.BatchRefinesSingle | backend/src/entities/cedar-authorization/cedar-permissions.service.ts:29-122 | the batch level is the single query's, whatever the order, grouping and repetitions of the answer |
| PolicySaving.ValidatePolicyReferences | backend/src/entities/cedar-authorization/cedar-authorization.service.ts:252-306 | the loops find the first foreign reference, kind by kind over all matches; which texts have one is `StatementsReferenced` |
| PolicySaving.ValidateCedarPolicyText | backend/src/entities/cedar-authorization/cedar-authorization.service.ts:231-250 | a blank text is refused, and one that the engine throws on |
| PolicySaving.SaveCedarPolicy | backend/src/entities/cedar-authorization/cedar-authorization.service.ts:81-110 | the answer in every case; the stored policy changes, and the connection's cached policies are invalidated, if and only if the text is accepted |
| PolicySaving.ReferStatement | backend/src/entities/cedar-authorization/cedar-authorization.service.ts:252-296 | one printed statement contributes its own id to its own kind and nothing else, whatever text follows |
| PolicySaving.ReferPrinted | backend/src/entities/cedar-authorization/cedar-authorization.service.ts:252-296 | the matches in a printed text are its statements' resources, in order |
| PolicySaving.StatementsReferenced | backend/src/entities/cedar-authorization/cedar-authorization.service.ts:252-306 | for any statements: the error is the one of the first kind of resource, of connection, group, table, dashboard, with a foreign id, and there is none if no id is foreign |
| PolicySaving.StatementsSaved | backend/src/entities/cedar-authorization/cedar-authorization.service.ts:81-110 | with the other gates open, such a text is saved if and only if no id is foreign, and refused with that error otherwise |
| PolicySaving.OtherConnectionIsRefused | backend/src/entities/cedar-authorization/cedar-authorization.service.ts:253-264 | the policy of another connection is refused as soon as it grants that connection at any level |
| PolicySaving.SavedExactly | backend/src/entities/cedar-authorization/cedar-authorization.service.ts:81-110 | for any text: it is saved if and only if it is not blank, the engine does not throw, the group is of this connection and not the main one, and no reference is foreign; which refusal comes first otherwise |
| PolicySaving.PrintedReferences | backend/src/entities/cedar-authorization/cedar-authorization.service.ts:252-306 | a printed policy fails the check of its own connection if and only if it names a group of another one |
| PolicySaving.PrintedIsSaved | backend/src/entities/cedar-authorization/cedar-authorization.service.ts:81-110 | what saving a printed policy answers: refused when empty, thrown on by the engine or of a foreign group, else stored as it is and read as its normal form |
| PolicySaving.FlagsAreMerged | backend/src/entities/cedar-authorization/cedar-permissions.service.ts:348-400 | evaluating a printed policy shows the OR of all entries for that table |
| PolicySaving.ThreeViews | backend/src/entities/cedar-authorization/cedar-permissions.service.ts:348-400 | evaluated flags equal parsed flags for every named table, which is parsed if and only if visible |
| PolicySaving.NoForeignAccess | backend/src/entities/cedar-authorization/cedar-authorization.service.ts:252-306 | a printed policy allows nothing on tables or dashboards of another connection, for connection ids without `/` |
| RelayServer.Server.Resolve | autoadmin-ws-server/src/handlers/command.ts:16-42 | a promise keeps its first settlement |
| RelayServer.Server.Handle | autoadmin-ws-server/src/handlers/command.ts:24-43 | each callback clears the timer and settles |
| RelayServer.Server.Dispose | autoadmin-ws-server/src/services/response-cache.ts:15-18 | a removed entry's request is rejected with 500 unless it is settled |
| RelayServer.Server.DeleteResponse | autoadmin-ws-server/src/services/response-cache.ts:12-19 | removing an entry rejects its request, and touches nothing when there is none |
| RelayServer.Server.GetResponse | autoadmin-ws-server/src/services/response-cache.ts:36-38 | a live entry becomes the most recent one; an expired one is disposed and not returned |
| RelayServer.Server.CacheResponse | autoadmin-ws-server/src/services/response-cache.ts:21-34 | a full cache rejects its least recently used request before the new one enters |
| RelayServer.Server.SendError | autoadmin-ws-server/src/services/connections-cache.ts:49-57 | the error is what the request gets, although deleting it rejects it too |
| RelayServer.Server.SendCommandToClient | autoadmin-ws-server/src/services/connections-cache.ts:33-79 | 523 without an open socket, and a closed one is forgotten; otherwise the command is written to the token's socket |
| RelayServer.Server.CacheConnection | autoadmin-ws-server/src/services/connections-cache.ts:12-22 | a full cache forgets its least recently used token |
| RelayServer.Server.ExecuteCommand | autoadmin-ws-server/src/handlers/command.ts:7-57 | the whole handler is one execute step of the state machine |
| RelayServer.Server.TimeoutFires | autoadmin-ws-server/src/handlers/command.ts:17-22 | the timer is one timer step: the rejection comes before 504 |
| RelayServer.Server.DeliverAnswer | autoadmin-ws-server/src/handlers/websocket.ts:51-60 | agent data for a live request is its answer, and any other data is one answer step of the state machine |
| RelayServer.Server.RegisterSocket | autoadmin-ws-server/src/handlers/websocket.ts:62-74 | an open socket keeps its token; otherwise the token is given the new socket |
| RelayServer.Server.OnMessage | autoadmin-ws-server/src/handlers/websocket.ts:19-75 | every message is one answer, registration or rejection step, or nothing; data for a live request is its answer; a valid first message registers its socket under the hashed token, and nothing else does |
| RelayServer.MessageMeaning | autoadmin-ws-server/src/handlers/websocket.ts:19-75 | a message changes the registry only when it is a valid first one, and closes its socket only when it is an invalid one |
| RelayState.CloseKeeps | autoadmin-ws-server/src/services/response-cache.ts:12-19 | settling and removing a pending request keeps the invariant |
| RelayState.ExecuteKeeps | autoadmin-ws-server/src/handlers/command.ts:7-57 | every outcome of a new command keeps the invariant, eviction included |
| RelayState.AnswerKeeps | autoadmin-ws-server/src/handlers/websocket.ts:51-60 | agent data for a live, expired, settled or unknown request keeps the invariant |
| RelayState.RegisterKeeps | autoadmin-ws-server/src/handlers/websocket.ts:62-74 | a registration keeps one socket a token and at most 6000 tokens |
| RelayState.EventKeeps | autoadmin-ws-server/src/handlers/command.ts:16-55 | every enabled event keeps the invariant |
| RelayState.RunKeeps | autoadmin-ws-server/src/handlers/command.ts:16-55 | every interleaved run keeps the invariant |
| RelayState.EveryRun | autoadmin-ws-server/src/handlers/command.ts:16-55 | in every run callbacks are cached if and only if unsettled, at most 10000, and each 200 carries the result of executing the request's own command |
| RelayState.SettledOnce | autoadmin-ws-server/src/handlers/command.ts:24-43 | a settled response never changes |
| RelayState.LateAnswer | autoadmin-ws-server/src/handlers/websocket.ts:51-60 | an answer to a settled or unknown request changes nothing at all |
| RelayState.TimerAnswers500 | autoadmin-ws-server/src/handlers/command.ts:17-22 | the timer answers 500 to a live request, and does nothing for an expired one |
| RelayState.OpenSocketKeepsToken | autoadmin-ws-server/src/handlers/websocket.ts:62-74 | an open cached socket keeps its token through every event but a capacity eviction |
| RelayState.CommandGoesToItsToken | autoadmin-ws-server/src/services/connections-cache.ts:33-79 | a command is written only to its token's open socket, and answered 523 if and only if there is none |
| RelayRuns.EventOutcome | autoadmin-ws-server/src/handlers/command.ts:7-57 | what any event answers to an unsettled request: agent data when it is live, 523, 500 or nothing |
| RelayRuns.AnsweredExactly | autoadmin-ws-server/src/handlers/command.ts:7-57 | over every run: a request has a response if and only if some event gave it that one |
| RelayRuns.DataExactly | autoadmin-ws-server/src/handlers/websocket.ts:51-57 | over every run: a request is answered 200 with some data if and only if that data arrived while the request was live |
| RelayRuns.IssuedExactly | autoadmin-ws-server/src/handlers/command.ts:7-15 | over every run: a request is known if and only if it was sent, with the command it was sent with |
| RelayRuns.ExpireExact | autoadmin-ws-server/src/services/response-cache.ts:12-42 | expiry marks the entry of one request and leaves all others |
| RelayRuns.ExpiredExactly | autoadmin-ws-server/src/services/response-cache.ts:12-42 | over every run: a cached entry is expired if and only if an expiry came after its request was sent |
| RelayRuns.LiveExactly | autoadmin-ws-server/src/services/response-cache.ts:12-42 | over every run: a request is live if and only if it was sent, is unanswered and has not expired |
| RelayRuns.LiveHasTimer | autoadmin-ws-server/src/handlers/command.ts:17-22 | over every run: every live request has its timer running |
| RelayRuns.OpenExactly | autoadmin-ws-server/src/handlers/websocket.ts:19-75 | over every run: which sockets are open, by the last event about each |
| RelayRuns.RegisterTakes | autoadmin-ws-server/src/handlers/websocket.ts:62-74 | a token keeps its open socket, and otherwise gets the one that registers |
| RelayRuns.CommandAndRegistry | autoadmin-ws-server/src/services/connections-cache.ts:33-79 | a command leaves the registry as it is, but for its own token when that has no open socket; a timer runs afterwards if and only if it has one |
| RelayRuns.ConnectionsByRecency | autoadmin-ws-server/src/services/connections-cache.ts:12-29 | over every run: the registry is ordered by when each token was last looked up |
| RelayRuns.EvictedTokenIsOldest | autoadmin-ws-server/src/services/connections-cache.ts:12-22 | over every run: a full registry forgets the one token that was looked up longest ago, and no other |
| RelayRuns.PendingByAge | autoadmin-ws-server/src/services/response-cache.ts:21-38 | over every run: the callbacks are ordered by when their requests were sent |
| RelayRuns.EvictedRequestIsOldest | autoadmin-ws-server/src/services/response-cache.ts:21-34 | over every run: a full cache answers 500 to the one request that was sent longest ago, and keeps all others |
| ReconnectingAgent.EventKeeps | rocketadmin-agent/src/websocket/websocket-client.ts:35-143 | each event keeps one socket or timer, and the delays of attempts 1, 2, 3, ... |
| ReconnectingAgent.RunKeeps | rocketadmin-agent/src/websocket/websocket-client.ts:35-143 | every run keeps one socket or timer and the delay sequence |
| ReconnectingAgent.NoSocketAfterDisconnect | rocketadmin-agent/src/websocket/websocket-client.ts:35-59 | no socket is created after disconnect |
| ReconnectingAgent.SumOfDelays | rocketadmin-agent/src/websocket/websocket-client.ts:135-142 | the delays of k attempts add up to the closed form with the cap of 30 s |
| ReconnectingAgent.DelaysSinceOpen | rocketadmin-agent/src/websocket/websocket-client.ts:61-143 | in every run: one socket or timer, delays that never shrink nor exceed 30 s, and their total |
| ReconnectingAgent.StateExplained | rocketadmin-agent/src/websocket/websocket-client.ts:35-143 | over every run, by the events alone: attempts and delays are those of the failures since the socket was last open; one socket at the start and one for each timer before disconnect |
| ReconnectingAgent.GivesUpExactly | rocketadmin-agent/src/websocket/websocket-client.ts:125-143 | over every run: the client exits exactly at the closing that finds the failures since it was open at the maximum |
| ReconnectingAgent.WebSocketClient.constructor | rocketadmin-agent/src/websocket/websocket-client.ts:27-33 | an interval of 0 means one second, a maximum of 0 means none |
| ReconnectingAgent.WebSocketClient.ConnectNow | rocketadmin-agent/src/websocket/websocket-client.ts:35-51 | a new socket, or nothing after shutdown |
| ReconnectingAgent.WebSocketClient.DisconnectNow | rocketadmin-agent/src/websocket/websocket-client.ts:53-59 | the disconnect event of the machine |
| ReconnectingAgent.WebSocketClient.HandleOpen | rocketadmin-agent/src/websocket/websocket-client.ts:61-62 | the opened event: the attempts start again from 0 |
| ReconnectingAgent.WebSocketClient.HandleClose | rocketadmin-agent/src/websocket/websocket-client.ts:101-111 | the closed event of the machine |
| ReconnectingAgent.WebSocketClient.ScheduleReconnectNow | rocketadmin-agent/src/websocket/websocket-client.ts:125-143 | exit at the maximum, otherwise one more attempt and a timer |
| ReconnectingAgent.WebSocketClient.ReconnectTimer | rocketadmin-agent/src/websocket/websocket-client.ts:140-142 | the timer event: connect, unless shutting down |
| Json.EscapeAllCancel | shared-code/src/caching/lru-storage.ts:120-120 | an escaped string and what follows its closing quote are determined by the text |
| Json.ReadEscaped | shared-code/src/caching/lru-storage.ts:120-120 | a reader of strings by section 7 of RFC 8259 reads an escaped string back, and stops at its closing quote |
| Json.ScalarCancel | shared-code/src/caching/lru-storage.ts:120-120 | a scalar and what follows it are determined by the text |
| Json.ObjectCancel | shared-code/src/caching/lru-storage.ts:120-120 | an object's text is self-delimiting and determines the object |
| MetadataKeys.ProbeAtStart | shared-code/src/caching/lru-storage.ts:258-276 | a key starts with a probe only if it is that connection's key |
| MetadataKeys.ProbeOnlyAtStart | shared-code/src/caching/lru-storage.ts:258-276 | a probe is found nowhere else in a key, whatever names and values it holds |
| MetadataKeys.IncludesIsOwn | shared-code/src/caching/lru-storage.ts:258-276 | the substring search succeeds if and only if the connections are equal |
| ConnectionIdentity.IdentifierExact | shared-code/src/caching/lru-storage.ts:184-229 | identifiers agree if and only if the class and all its listed fields do, falsy optional fields reading as null; two test connections by their host; agent, tunnelled and plain ones never collide |
| ConnectionIdentity.AgentsByFields | shared-code/src/caching/lru-storage.ts:184-192 | agent connections share an identifier if and only if id, token and signing key agree |
| ConnectionIdentity.TunnelsByFields | shared-code/src/caching/lru-storage.ts:196-205 | tunnelled connections do so if and only if id, signing key, type, username and database agree |
| ConnectionIdentity.PlainByFields | shared-code/src/caching/lru-storage.ts:206-219 | plain connections do so if and only if host, port, username, database and type agree, and schema, authSource, sid and dataCenter up to falsy values |
| ConnectionIdentity.TestsByHost | shared-code/src/caching/lru-storage.ts:193-195 | test connections do so if and only if their hosts agree |
| ConnectionIdentity.FalsyExactly | shared-code/src/caching/lru-storage.ts:184-229 | a field counts as missing if and only if it is absent, null, false, 0 or empty |
| ConnectionIdentity.TestHostIsApart | shared-code/src/caching/lru-storage.ts:193-195 | a test connection collides with no other class unless its host starts with a brace |
| ConnectionIdentity.UnlistedFieldIsUnseen | shared-code/src/caching/lru-storage.ts:184-229 | changing a field that is not listed changes the connection but not its identifier |
| ConnectionIdentity.PasswordIsUnseen | shared-code/src/caching/lru-storage.ts:206-219 | two plain connections that differ in their password only share their identifier |
| MetadataCache.LRUStorage.SetTableCache | shared-code/src/caching/lru-storage.ts:112-182 | one entry of one cache, under the JSON key |
| MetadataCache.LRUStorage.GetTableCache | shared-code/src/caching/lru-storage.ts:124-170 | the entry under that key, if any |
| MetadataCache.LRUStorage.DeleteMatching | shared-code/src/caching/lru-storage.ts:261-265 | the key loop leaves exactly the entries whose key does not hold the probe |
| MetadataCache.LRUStorage.InvalidateConnectionTableMetadata | shared-code/src/caching/lru-storage.ts:258-276 | all three caches lose those entries, and the hashes stay |
| MetadataCache.LRUStorage.ValidateSchemaHashAndInvalidate | shared-code/src/caching/lru-storage.ts:242-256 | the new state and the answer in each of the three cases |
| MetadataCache.KeyInjective | shared-code/src/caching/lru-storage.ts:112-182 | keys agree if and only if connection and table do |
| MetadataCache.StoreExact | shared-code/src/caching/lru-storage.ts:112-182 | what is stored is found under its own cache, connection and table, and changes nothing else |
| MetadataCache.InvalidationIsExact | shared-code/src/caching/lru-storage.ts:258-276 | in all three caches every entry of the connection goes and every other one stays |
| MetadataCache.ValidationIsExact | shared-code/src/caching/lru-storage.ts:242-276 | validating a hash drops that connection's own metadata if the hash is a different one, and nothing else ever |
| MetadataCache.MetadataIsFresh | shared-code/src/caching/lru-storage.ts:231-276 | over every run, with any entry or hash evicted or expired at any time, metadata of a connection with its own identifier was stored after the last observed change |
| MetadataCache.StaleExactlyWhenShared | shared-code/src/caching/lru-storage.ts:242-276 | a change seen through another connection of the same identifier leaves stale metadata that then passes as unchanged |
| MetadataCache.StalePassword | shared-code/src/caching/lru-storage.ts:242-276 | such a run for two connections that differ in their password only |
| MetadataCache.StaleExactlyWhenHashLost | shared-code/src/caching/lru-storage.ts:242-256 | metadata outlives a change of hash if and only if the known hash was lost in between |
| MetadataCache.KnownHashIsLast | shared-code/src/caching/lru-storage.ts:231-256 | over every run the stored hash is the last one validated under the identifier, until the cache drops it |
| MetadataCache.ChangeIsDifferentHash | shared-code/src/caching/lru-storage.ts:242-256 | validation answers true if and only if no hash is left or it is the same one |
| ToolCalls.Accumulate | backend/src/ai-core/providers/langchain-bedrock.provider.ts:192-214 | one piece turns the assembled calls of the pieces so far into those of one more |
| ToolCalls.AssembledSnoc | backend/src/ai-core/providers/langchain-bedrock.provider.ts:203-213 | a piece of a seen index changes that index's call only, in place |
| ToolCalls.AssembledNew | backend/src/ai-core/providers/langchain-bedrock.provider.ts:195-213 | a piece of a new index appends a call |
| ToolCalls.AccumulateAll | backend/src/ai-core/providers/langchain-bedrock.provider.ts:191-215 | all pieces of one chunk, in order |
| ToolCalls.ArgsOne | backend/src/ai-core/providers/langchain-bedrock.provider.ts:203-213 | one piece has its own arguments for its own index, 0 when it has none, and nothing for any other |
| ToolCalls.ArgsConcat | backend/src/ai-core/providers/langchain-bedrock.provider.ts:203-213 | the arguments of two lists of pieces are those of the first, then those of the second |
| ToolCalls.LastIdExact | backend/src/ai-core/providers/langchain-bedrock.provider.ts:203-213 | an index has the id of its last piece that has one |
| ToolCalls.LastNameExact | backend/src/ai-core/providers/langchain-bedrock.provider.ts:203-213 | an index has the name of its last piece that has one |
| ToolCalls.NamedExact | backend/src/ai-core/providers/langchain-bedrock.provider.ts:191-249 | the indexes that are called are those given a name by some piece, each once, by their first piece |
| ToolCalls.EmittedCalls | backend/src/ai-core/providers/langchain-bedrock.provider.ts:229-249 | one call for each such index: its last id and name, and its joined arguments if they are not empty and parse, else the empty object |
| ToolCalls.ChunkOne | backend/src/ai-core/providers/langchain-bedrock.provider.ts:190-227 | one chunk gives its text, if it has any, and its pieces |
| ToolCalls.TextsConcat | backend/src/ai-core/providers/langchain-bedrock.provider.ts:187-190 | the texts of two parts of a stream are those of the first, then those of the second |
| ToolCalls.PiecesConcat | backend/src/ai-core/providers/langchain-bedrock.provider.ts:191-215 | and so are its pieces |
| ToolCalls.EmitCalls | backend/src/ai-core/providers/langchain-bedrock.provider.ts:229-249 | named calls in order; unparsable arguments become the empty object |
| ToolCalls.TransformToAIStreamChunks | backend/src/ai-core/providers/langchain-openai.provider.ts:296-374 | the texts in order, then one call for each named index in order of its first piece, with its last id and name and its parsed arguments, then one done |
| ToolCalls.SwapKeepsCalls | backend/src/ai-core/providers/langchain-bedrock.provider.ts:192-214 | swapping adjacent pieces of different seen indexes changes no call |
| TableSettings.FilteredCounts | backend/src/entities/ai/ai.service.ts:337-339 | each real column is kept as often as it was named, and no other |
| TableSettings.FilteredKeepsOrder | backend/src/entities/ai/ai.service.ts:337-339 | filtering distributes over concatenation, so the order is kept |
| TableSettings.OrderingExact | backend/src/entities/ai/ai.service.ts:341-345 | the ordering is ascending for ASC, descending for DESC and unset for any other text |
| TableSettings.AllButOneIsKnown | backend/src/entities/ai/ai.service.ts:347-373 | the known widget types are those of the enumeration in backend/src/enums/widget-type.enum.ts, except S3 |
| TableSettings.ColumnsExact | backend/src/entities/ai/ai.service.ts:300-303 | the valid columns are those of the first table of the batch with that name, and none when there is no such table |
| TableSettings.WidgetsConcat | backend/src/entities/ai/ai.service.ts:314-331 | the widgets of two lists are those of the first, then those of the second |
| TableSettings.ProcessExact | backend/src/entities/ai/ai.service.ts:93-100 | an answer fails as a whole if and only if the AI fails or some entry has no widgets, and otherwise gives one setting an entry, in order |
| TableSettings.EntityExact | backend/src/entities/ai/ai.service.ts:300-331 | the name of the table and the direction are kept; each list shows a column as often as the answer named it if it is one of the table's own, and else never; so for the ordering field and the widgets |
| TableSettings.WidgetsOf | backend/src/entities/ai/ai.service.ts:314-331 | exactly the widgets on real columns with a known type other than Foreign_key |
| TableSettings.ProcessIndividually | backend/src/entities/ai/ai.service.ts:79-86 | every table alone, in order, failures skipped |
| TableSettings.ProcessOrFallBack | backend/src/entities/ai/ai.service.ts:73-87 | one batch in one call or, when it fails, table by table after that call |
| TableSettings.GenerateNewTableSettingsWithAI | backend/src/entities/ai/ai.service.ts:67-91 | the calls made and the settings collected, for any AI |
| TableSettings.EveryTableIsTried | backend/src/entities/ai/ai.service.ts:67-91 | every table is asked about in its batch of ten and, if that call failed, alone |
| TableSettings.CallBounds | backend/src/entities/ai/ai.service.ts:72-88 | between ceil(n/10) and n + ceil(n/10) calls, the least if and only if no call fails |
| TableSettings.SettingsAreReal | backend/src/entities/ai/ai.service.ts:296-345 | every column, ordering field and widget names a real column of its table, and no Foreign_key widget survives, whatever the AI answers |
| TableSettings.UnaskedIsEmptied | backend/src/entities/ai/ai.service.ts:301-331 | an entry for a table that was not asked about keeps no column and no widget |
| TableSettings.UnaskedTableIsKept | backend/src/entities/ai/ai.service.ts:300-334 | an answer about an unasked table is kept as settings with empty lists |
| TableSettings.AnsweredOnce | backend/src/entities/ai/ai.service.ts:67-91 | no table is answered twice; all are, in order, when no table fails alone |
| TableSettings.BatchingIsTransparent | backend/src/entities/ai/ai.service.ts:67-100 | for an AI whose answers are those of each table alone, the result is the one of asking one by one, whichever batches fail |
| TableSettings.CallsExplainSettings | backend/src/entities/ai/ai.service.ts:67-100 | for any AI: the settings are, in order, what the calls that succeeded answered about the tables they were asked, and each call is numbered by its place |

## Left out

- OneTableExact: the converse of the round trip is stated for one table, one dashboard and one group; it does not hold of every permission set, since an unreadable statement may be read back all the same (`UnbalancedGroupSurvives`).
- OneGroupExact: is about ids without the word `permit`; with it, an id can bring in further statements.
- NoForeignAccess: assumes connection ids without `/`; with one, `a/b` and `a` share resource ids.
- EntityExact: display names and descriptions, which are copied, are not part of the model.
- SwapKeepsCalls: speaks of indexes that have both appeared before, since the first pieces decide the order.
- GenerateNewTableSettingsWithAI: the awaited calls are numbered, and the prompt text and logging are not modelled.
- ExtractPermitStatements: reports bodies, one search at a time; reading each body is done by the caller, in the same order.
- OnMessage: its effects happen at once, after the token validator has answered; the validator and the hash are inputs.
- MetadataCache.LRUStorage.DeleteMatching: iterates over the keys as they were at the start; eviction order and expiry of metadata and hashes are abstract steps.
- The `@cedar-policy/cedar-wasm` engine and its schema: replaced by a strict reader of permit statements without conditions, default deny, exact action and resource. No `forbid`, `when`, principal constraints or escapes in strings; `validateCedarSchema` is not part of this model, and whether the engine throws on a text to be saved is an input.
- Hand-written policies: for arbitrary text only the scanner's structure and the wildcards of bodies without quotes are claimed, not what the parser makes of the rest.
- Characters are Unicode scalar values; lone surrogates are not modelled.
- Time: lifetimes of cache entries are an abstract expiry step, so nothing is said about when it happens, nor about liveness at the boundary.
- Connections in metadata keys are flat lists of strings, booleans, nulls and numbers; the number format is only assumed to use digits, sign, point and exponent.
- Repositories, HTTP, logging, the contents of the policy and table-read caches (`Cacher`), and the OpenAI Responses API stream.
- `JSON.parse` of tool arguments is a predicate on the text.
