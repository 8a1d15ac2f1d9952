# The TurnTurnTurn hub, modelled and proved

TurnTurnTurn is a hub for Canonical Turn Objects. A hub holds the turns of its sessions, appends Purpose-proposed deltas to
them, writes every event it accepts to a persister's log before telling anyone, and then tells every registered Purpose, each of
which may call the hub again before the first call has returned. This project models the hub with its Purposes and its
persister, the profiles that validate and default a turn's content, CTO documents and their import, and the Archivist's fan-out,
and proves what they keep to over all runs.

`dafny verify dfyconfig.toml` checks everything.

## How it is built

- `World.dfy` is the state of one hub, its Purposes and its persister, and the actions that happen between two callbacks, each
  with the condition under which it may happen. A world is `Legal` when it is reached from the bootstrapped hub by enabled
  actions. What is proved of every legal world holds at every point of every run, also in the middle of nested calls.
- `Hub.dfy` gives each operation as a function of the world in which everything has happened that happens before the call
  returns: nested deliveries, the calls handlers make, further deliveries. Handlers are arbitrary finite behaviour: the reactions
  to successive deliveries are a list, quantified over, of default reactions or of any calls, with or without catching what those
  raise, and with or without raising. `Hub.RunsAreLegal` and the contracts of these functions say that a run performs only
  enabled actions.
- `Invariants`, `Replay`, `LostWrites`, `Sources`, `Delivery`, `History`, `Credentials`, `Imports`, `Shutdown` and
  `SpeakersInRuns` prove the properties of all runs by induction over their actions. `Ambiguity` and `TwoRuns` show what the log
  cannot tell. `Closed` has what calls, handlers and imports can still do to a closed hub. `ShutdownOutcome`, `Acknowledgements`
  and `Stalls` compute what a shutdown does, record by record, and where it does not end as expected. `Operations`, `Adoption`,
  `Submissions` and `Transfers` say what each operation has done when it returns; `Admission`, `Starts`, `Answers` and `Codes` say
  it of what is let in, of start_turn, of requests for CTOs and of session codes in terms of fields and records alone.
- `Runtime.dfy` is the hub as an object with fields, loops and re-entrant methods, around the objects of `Participants.dfy`. Each
  method ends in exactly the state, and with exactly the outcome, of the function in `Hub.dfy`, so all of the above holds of it.
  `Snapshots.dfy` and `ContentNodes.dfy`, with `Nodes` and `Isolation` beneath it, treat the two places where sharing of mutable
  lists and dictionaries matters.
- `Profiles`, `Conversation`, `Ctos`, `CtoJson` and `Archivist` are the value-level parts with their loops and objects.

## What is assumed

- Calls run to completion: the shipped persisters never suspend, so nested calls are the only interleaving.
- Nobody but the persister presents the persister's token (`Hub.HonestCall`); `Delivery.PersisterTokenMustBePrivate` shows why.
  That ids are never presented twice is assumed only where `freshIds` is mentioned.
- Nobody but the hub and the persister itself calls the persister's own public methods, which it inherits from `BasePurpose`
  (`complete_session_closing` among them) and which are within reach as `hub.persistence_purpose`. A program that called them
  could make the persister acknowledge early; `ShutdownOutcome.PersisterAcksLate` and what rests on it would not hold of it.
- UUIDs, tokens and event ids come from one counter and are never drawn twice; the downlink signature is an injective digest of
  token and Purpose. A session id given by a caller is any number.
- Clock readings, files with their hashes, and the outcome of each write are parameters. A write either happens or fails without
  a trace. Files a request names are JSON objects or missing.
- A payload is of its event's type. Custom event types do not bear the names of built-in ones. The keys of `fields` are the
  accessor names. JSON numbers are integers.
- Default factories depend on content and session context alone, and change only the context.
- A run starts from a hub that `TTT.start` has bootstrapped; the owner then announces itself.

## Where code and documentation differ

- README.md:21 calls the event stream the ground truth. It is not all of it. The content given to start_turn is in no record, and
  no record says whether a turn was adopted, or from which cto_imported: two runs of one program, with handlers that differ only in
  when they call start_turn, write the same log and hold different turns (`TwoRuns.OneLogTwoTurns`). Replay gives a turn's index,
  last event and observations exactly if no cto_imported before the turn's start fits it (`Sources.Fits`), and as long as the hub
  is not closing it is sure to do so only if none does (`Ambiguity.LogTellsUnlessAnImportFits`). A turn started after
  session_closing was adopted, and an import that alone fits it gives its content as well (`Sources.LateTurnIsRebuilt`).
- The hub stores before it writes, so what a failed write was to tell is missing from the log for good
  (`LostWrites.ReplayIsExact`, which says exactly what is).
- archivist.py:374-375 and 411-412 say that a backend does not gate those after it. If it raises, it does
  (`Archivist.FanOutOutcome`).
- profile.py:128-143 and 281 say that the caller's content is not written to. It is if and only if a field that needs its default
  has a path of three or more keys and the content holds a dictionary two keys down that path (`ContentNodes.FillInPlace`).
- base_purpose.py:259-266 does not say when a Purpose may acknowledge. Before closing has begun, that makes the shutdown wait for
  ever (`Stalls.ShutdownEndsUnlessAcknowledgedEarly`).
- hub.py:1222-1238 has a closed hub accept nothing. An import whose relay closed it can still be adopted
  (`Stalls.AdoptionOutlivesClose`): it changes the hub if and only if the relay returns and the import passes the checks of
  `Closed.Takes` (`Closed.ImportAfterClose`). Nothing else changes a closed hub (`History.ClosedIsFinal`,
  `Closed.ClosedCallsChangeNothing`).

## Model

| member | source | states |
|---|---|---|
| Replay.ReplayMirrors | src/turnturnturn/hub.py:750-795 | At every point of every run without a failed write, whatever the handlers do, folding the log (cto_started begins a turn, delta_merged appends) gives exactly the live turns: same keys, same index and hence last event, and every namespace list is what the turn was first given followed by the replayed one |
| Sources.StartedTurnReplays | src/turnturnturn/hub.py:750-795 | A turn made by start_turn starts with no observations, and at every later point of a run without a failed write it is rebuilt from the log with exactly its index, last event and observations |
| LostWrites.ReplayIsExact | src/turnturnturn/hub.py:1305-1343 | Whichever writes fail: the log knows a turn if and only if its cto_started was written, has its last event if and only if that was, and gives back a namespace's entries after the seeded ones if and only if none was merged without its delta_merged being written; otherwise it has exactly so many fewer |
| Sources.TurnsHaveSources | src/turnturnturn/hub.py:1078-1131 | At every point of every run each turn was made empty, or its session, profile, content and seeded observations are the adoption of the normal form of a document in a cto_imported record that precedes the turn's own cto_started |
| Sources.ImportFits | src/turnturnturn/hub.py:1078-1131 | Without failed writes each turn is exactly what replay gives, or it is what replay and one cto_imported that fits it give together, content included. An import fits a turn if its session and normalised profile are those replay gives the turn and a cto_started of the turn comes after it in its requester's name |
| Sources.UnmatchedTurnReplays | src/turnturnturn/hub.py:750-795 | A turn that no import in the log fits is rebuilt exactly: index, last event and every namespace |
| Sources.OneImportLeavesTwo | src/turnturnturn/hub.py:1078-1131 | If only one import fits a turn, the turn is replay alone or replay on top of that import |
| Sources.LateTurnIsRebuilt | src/turnturnturn/hub.py:1222-1238 | A turn whose cto_started follows session_closing was adopted, so some import fits it and rebuilds it, content included; the one that does if only one fits |
| Ambiguity.AnotherRunFits | src/turnturnturn/hub.py:1078-1131 | If an import fits a turn of a hub that is not closing, the same hub can also reach, by permitted actions, a point with the very same log and all else the same but this turn's content and observations (and session codes), its observations being different ones |
| Ambiguity.LogTellsUnlessAnImportFits | README.md:21 | For a turn of a hub that is not closing replay gives the observations in every run with this log if and only if no import in the log fits the turn |
| TwoRuns.OneLogTwoTurns | src/turnturnturn/hub.py:1075-1131 | For every hub with an Archivist, every exported turn its owner asks for, and every call of its owner's that starts a turn of the same session and profile: the run in which the owner makes that call while it hears of the import, and the one in which it does when it hears of the import's turn, write the same records; but turn 9 is in the one empty with the call's content, in the other it has the exported content and provenance |
| ShutdownOutcome.ExactShutdown | src/turnturnturn/hub.py:1147-1220 | With n registered default Purposes and an accepted owner request, the one call returns normally with the whole nested cascade done: request_session_end, session_closing, the n acknowledgements in registration order, session_close_pending, the persister's acknowledgement and, if it is durable, session_completed; the hub's announcements and session_completed carry the code last given to the session by a turn; then the hub is closed, otherwise it stays closing |
| Codes.CodeIsGiven | src/turnturnturn/hub.py:772-774 | At every point of every run the code read for a session is the one brought by the last of its turns that brought one, started or imported, and there is none if no turn has |
| ShutdownOutcome.CascadeFrom | src/turnturnturn/hub.py:1432-1443 | The rest of the session_closing broadcast from any position, with the last acknowledgement ending the session inside the loop |
| ShutdownOutcome.ClosePendingOutcome | src/turnturnturn/persistence.py:108-121 | After the all-clear, which carries the code last given to the session, the persister acknowledges, then completes the session if it is durable, and nothing else is written |
| ShutdownOutcome.PersisterAcksLate | src/turnturnturn/persistence.py:109-117 | In no run does the persister acknowledge before the all-clear has been attempted, given that only the hub and the persister itself call the persister's methods |
| Stalls.ShutdownEndsUnlessAcknowledgedEarly | src/turnturnturn/base_purpose.py:269-271 | With default handlers a request ends the session if and only if nobody registered has acknowledged that session before: an early acknowledgement is ignored by the hub and later suppressed by the Purpose's own guard, so the all-clear never comes |
| Stalls.AdoptionOutlivesClose | src/turnturnturn/hub.py:1075-1131 | A recipient of a cto_imported relay can close the hub; the import is then still adopted, so a cto_started follows session_completed in the log and a turn is added to a closed hub |
| Invariants.ShutdownIsTracked | src/turnturnturn/hub.py:1168-1203 | At every point of every run, also inside a call, the pending set is those registered when closing began less those whose acknowledgement has been admitted and written since, but for the one step between admitting and discarding; the all-clear is attempted at most once and when nobody is left; at most one session is ever closing, and a closed hub has had exactly one completion |
| Shutdown.ShutdownShows | src/turnturnturn/hub.py:1201-1203 | session_close_pending is written at most once, the persister's session_completed at most once and only after it |
| Shutdown.AllClearMeansAllAcknowledged | src/turnturnturn/hub.py:1197-1202 | session_close_pending in the log means that everyone registered at closing has acknowledged |
| Shutdown.ClosureTellsHistory | src/turnturnturn/hub.py:1168-1203 | Those a shutdown counts are those of the run's history: it waits for those registered at the action that began closing, and counts as having acknowledged exactly those of whom a purpose_completed for that session was admitted and written after it |
| Shutdown.PendingIsExact | src/turnturnturn/hub.py:1193-1203 | At the beginning and end of every call and callback, for any acknowledgement timing, the pending set is exactly those registered at closing without an admitted and written acknowledgement since, and the all-clear has been attempted exactly when there are none |
| Shutdown.AllClearIsExact | src/turnturnturn/hub.py:1197-1203 | Without failed writes session_close_pending is in the log exactly when nobody is waited for |
| Acknowledgements.AcknowledgementCounts | src/turnturnturn/hub.py:1185-1203 | Any purpose_completed that is let in and written, whoever sends it and whenever, is the next record and takes its sender off the pending set; unless it was the last one awaited nothing else happens |
| Acknowledgements.LastAcknowledgementEnds | src/turnturnturn/hub.py:1197-1203 | The call that brings the last awaited acknowledgement, however long after closing began, goes on to write session_close_pending, the persister's acknowledgement and, if it is durable, session_completed, with the code last given to the session, and then the hub is closed |
| Acknowledgements.CompletingCounts | src/turnturnturn/base_purpose.py:253-279 | A Purpose's own complete_session_closing counts in the same way |
| Acknowledgements.LastCompletingEnds | src/turnturnturn/base_purpose.py:253-279 | and ends the session in the same way |
| Acknowledgements.UnwrittenAllClear | src/turnturnturn/persistence.py:108-121 | If session_close_pending cannot be written the session does not end: the error reaches the last acknowledger, nothing else is written, and the hub stays closing with nobody awaited |
| Delivery.PersistBeforeDispatch | src/turnturnturn/hub.py:1394-1443 | Every event ever delivered to a Purpose, hub-authored, relayed or custom, in nested multicasts too, had its record in the log at the moment of delivery, in an envelope bearing the credentials that were the recipient's own at that moment |
| Delivery.EachEventWrittenOnce | src/turnturnturn/hub.py:959-962 | With fresh ids and no failed write each accepted event has exactly one record and each write made exactly one, by whichever route: hub multicast, ingress, the persister's own write or the close-pending downlink |
| Delivery.PersisterTokenMustBePrivate | src/turnturnturn/hub.py:960-962 | An event presented with the persister's token is taken as already written: a purpose_started so presented is delivered although its id is in no record, which is why callers are assumed not to hold that token |
| History.HistoryGrows | src/turnturnturn/hub.py:1305-1323 | Between any two points of a run the log, the deliveries, every namespace list of every turn, the owners and the registrations only grow, and a turn keeps its identity and content |
| History.MergeIsLocal | src/turnturnturn/hub.py:1288-1323 | A merge changes one turn and in it only the namespace the delta names, by exactly as many entries as the patch has items; nothing else the hub does, rejecting a delta included, changes a stored turn |
| History.ClosedIsFinal | src/turnturnturn/hub.py:1222-1264 | From any point at which the hub is closed, log, turns, registrations and owners are the same at a later one if and only if no import that was inside its relay at the first has been adopted since; if no relay was in progress, always |
| Closed.ClosedCallsChangeNothing | src/turnturnturn/hub.py:1222-1264 | No call on a closed hub, whatever its arguments and with no assumption about caller or configuration, changes log, turns, registrations or owners |
| Closed.ClosedHandlersChangeNothing | src/turnturnturn/hub.py:1222-1264 | Nor do the calls of any handler |
| Closed.ClosedProgramsChangeNothing | src/turnturnturn/hub.py:1222-1264 | nor those of any program |
| Closed.SettlingAfterClose | src/turnturnturn/hub.py:1075-1131 | What the hub does with an import after a relay that closed it changes the core if and only if the document normalises and either its session is owned and its profile accepts the content, or the session has no owner and the requester is the startup owner |
| Closed.ImportAfterClose | src/turnturnturn/hub.py:1075-1131 | For a whole import whose relay closes the hub, the core afterwards is the closed one if and only if the relay raised or that condition fails |
| History.CompletionStaysLast | src/turnturnturn/hub.py:1205-1220 | At the moment the hub closes, however deep inside another operation's dispatch, session_completed is the last record; at any later point it still is if and only if nothing has been written since, which only the adoption of an import in its relay at that moment can bring about |
| Credentials.ResolveExact | src/turnturnturn/hub.py:556-592 | In every reachable state the linear token scan finds a Purpose exactly when the token is the latest that Purpose was given |
| Credentials.RegisteringRevokes | src/turnturnturn/hub.py:478-508 | Registering a Purpose again revokes its old token, gives it one that resolves to it and leaves all other tokens resolving as before |
| Credentials.RegisteringIsExact | src/turnturnturn/hub.py:478-508 | Registering gives the Purpose and the hub's registration of it the same new token with its signature for that Purpose, changes nobody else's, and keeps the order of registrations, a new one coming last |
| Credentials.OwnershipHolds | src/turnturnturn/hub.py:732-748 | Every session that has an owner is owned by the startup owner, and every stored turn is in such a session |
| Invariants.CredentialsHold | src/turnturnturn/hub.py:488-501 | Every registration holds its Purpose's current credentials, no two share a Purpose or a token, and only the registered have credentials, so that every envelope passes its recipient's checks |
| Invariants.IdsAreMinted | src/turnturnturn/hub.py:762-770 | Every event id, turn id and token in use was minted before |
| Imports.ImportedAtMostOnce | src/turnturnturn/archivist.py:460-470 | Over any run, re-entrant requests included, at most one cto_imported is submitted per request key |
| Imports.TurnsAreSound | src/turnturnturn/hub.py:707-716 | Every stored turn's profile is registered and, if that is well behaved, accepts its content; its namespaces are those it was seeded with and those some merged delta named |
| Imports.ExportImportRoundTrip | src/turnturnturn/cto_json.py:29-151 | A turn a hub can reach exports to a document that is adopted again if and only if its profile's id is not empty, that profile accepts its content (a well-behaved one does), and no delta was merged into it under an empty namespace; what is adopted is then equal but for one more provenance entry holding the old identity |
| Imports.AdoptExported | src/turnturnturn/hub.py:1078-1121 | Any CTO's export is adopted if and only if its profile is registered under an id that is not empty and accepts its content, and no namespace is empty; that returns its profile, content and every namespace, with one entry added to provenance |
| Transfers.TurnTravels | src/turnturnturn/hub.py:1032-1131 | One call of request_cto for an export of a turn of any hub, with whatever handlers, as long as they let the import's relay pass: the request and then the import are the next records, and the turn is stored with the same profile, content and observations but for one provenance entry, if the session is owned or the asker is the startup owner; if not, nothing is stored |
| Transfers.EmptyNamespaceStays | src/turnturnturn/archivist.py:443-489 | An export can be served so if and only if nothing was merged into the turn under an empty namespace; otherwise the request is recorded and refused, and the hub is as it was |
| Hub.RunsAreLegal | src/turnturnturn/hub.py:925-994 | Every run of a program whose handlers may call any operation at any delivery, raise and catch, performs only enabled actions, so that all invariants hold at each of its points |
| Hub.RunCalls | src/turnturnturn/hub.py:925-994 | Any calls made one after another, whatever they return and whatever handlers they run into, keep a legal world legal, and only extend the log and the history |
| Hub.RunSteps | src/turnturnturn/base_purpose.py:345-350 | So do the calls of a handler, which use up reactions of the script, so that re-entrant runs end |
| Hub.Ingress | src/turnturnturn/hub.py:957-962 | Only what the guards let in passes; the record of a domain Purpose's event is made here and nowhere else, a persister's own event is not written again |
| Hub.SubmitOwn | src/turnturnturn/persistence.py:123-133 | The persister's own event is in the log before the hub sees it, and once |
| Hub.Broadcast | src/turnturnturn/hub.py:1432-1443 | Re-entered from any recipient the loop keeps the world legal; an event in the log when it starts still is at every later recipient |
| Operations.MulticastReachesEveryone | src/turnturnturn/hub.py:1432-1443 | A multicast that returns normally has reached every registered Purpose in registration order, whatever the handlers did meanwhile |
| Operations.AuthoredOutcome | src/turnturnturn/hub.py:1394-1412 | An event of the hub's own is the very next record and has then reached everyone; if its write fails nobody gets it and the caller gets the failure |
| Operations.StartTurnOutcome | src/turnturnturn/hub.py:633-730 | start_turn succeeds exactly when the hub is open, the token known, the session code not empty, the profile registered, the content valid and the session owned or the caller the startup owner; then the defaulted content is a new turn without observations whose cto_started is the next record and reaches everyone; refused, it leaves nothing, except that a call refused for its session's owner alone has already updated that session's context |
| Starts.StartTurnExactly | src/turnturnturn/hub.py:633-795 | In the terms of the caller: start_turn raises the first that applies of a hub not open, a token nobody holds, an empty code, an unregistered profile, content the profile does not take and a session the caller may not have; otherwise it stores a turn of exactly the given profile, the content with defaults, this time and no observations, the session is the startup owner's and has the given code, and cto_started in the token holder's name is the next record and reaches everyone unless a recipient raises |
| Operations.MergeDeltaOutcome | src/turnturnturn/hub.py:1266-1364 | A delta is merged exactly when its turn is known and every patch value is a list. Then item j of the patch's key i stands, as {key, value}, after the entries the namespace had, at the position the earlier keys and items leave it, nothing else of the turn changes, and delta_merged with the turn's new index is the next record. Otherwise delta_rejected is, naming the turn and as reason that it is unknown or the first key whose value is no list; it reaches everyone unless a recipient raises, the call raises, and the hub itself changes no turn. If the record cannot be written the call raises that, nobody is told, and a merge stays in the turn |
| Operations.TakeTurnOutcome | src/turnturnturn/hub.py:925-962 | A built-in event is let in exactly when its type is accepted now, its token resolves to the Purpose it names and the name matches; it is then recorded before anything is done about it, and turned away it leaves no trace |
| Admission.ClosingTurnsAway | src/turnturnturn/hub.py:1240-1264 | A closed hub turns away every call, and a closing one every call and every event but request_session_end, purpose_completed and session_completed: whatever the call and whoever makes it, hub, log and deliveries stay as they are, and the error is HubClosedError unless the Purpose itself drops the call before |
| Admission.TurnedAway | src/turnturnturn/hub.py:940-955 | The same of any event at take_turn, built in or custom, with a new or a reused id: nothing at all changes |
| Admission.RawTakeTurn | src/turnturnturn/hub.py:925-962 | Any new event of a built-in type whose type is listened to, and that bears its Purpose's own name and latest token, is the next record just as it was presented; otherwise the error says which of the three it was not, or that it could not be written, and nothing has happened |
| Admission.PresentedAgain | src/turnturnturn/persistence.py:235-251 | An event presented again is judged the same way; a persister that drops duplicates keeps the one record of it, another gets a second |
| Admission.RecordedAndNoMore | src/turnturnturn/hub.py:957-994 | session_started, session_completed and cto_imported from a Purpose, and events with a malformed session id, are recorded and refused, request_cto_close is recorded, and nothing else comes of them |
| Operations.CustomOutcome | src/turnturnturn/hub.py:943-951 | A custom event is recorded and delivered, without its session, exactly when its type is registered for multicast; registered without, it is accepted and vanishes; the error tells a closing hub, an unknown type and bad credentials apart |
| Operations.RequestEndOutcome | src/turnturnturn/hub.py:1147-1183 | A request begins closing exactly when it names an owned session, comes from the owner and nothing is closing, and session_closing then carries the code last given to the session; repeated for the session being closed it is ignored, otherwise it is an error, told apart by cause, and nothing changes |
| Adoption.RequestImportOutcome | src/turnturnturn/archivist.py:443-489 | A request makes the persister write one cto_imported with the normalised document exactly when it can be imported under a new key; it is silently ignored only if its key was handled |
| Answers.RequestAnswered | src/turnturnturn/archivist.py:443-489 | Field by field: the persister writes one cto_imported with the session, file, hash, requester and code of the request and its normalised document, exactly if it is an Archivist, the kind is cto_json, the file is there and is a CTO document, and nothing was imported under the key, which is the request id or else kind, file and hash; each other case has its own error, a handled key none |
| Adoption.ImportOutcome | src/turnturnturn/hub.py:1062-1131 | An import is first relayed to everyone, then adopted exactly as the export and import round trip has it, as a new turn with its cto_started, provided the session is owned or the requester may own it; otherwise it raises and stores nothing |
| Answers.ImportExactly | src/turnturnturn/hub.py:1061-1131 | Everyone hears of the import first; then it is adopted if and only if its document is a CTO document of a registered profile that takes the content, in a session that is owned or that the requester may own. The turn has the document's profile, content and observations and a provenance entry that tells source, request and history, the session has the import's code, and cto_started is in the requester's name |
| Adoption.OnlyThePersisterAuthorsLifecycle | src/turnturnturn/hub.py:1023-1030 | session_started, session_completed and cto_imported from anyone but the persister raise, start, end and adopt nothing, and leave at most their own record |
| Adoption.LegacyCloseOutcome | src/turnturnturn/hub.py:797-822 | The legacy close announces a closing of no session and leaves the hub's own state alone |
| Adoption.StartPurposeOutcome | src/turnturnturn/hub.py:594-631 | A new participant's purpose_started is the next record and reaches everyone in the order of first registration, a new one last and itself included; one that has announced itself before is only registered again |
| Submissions.OwnEventsAreLetIn | src/turnturnturn/base_purpose.py:281-290 | The credentials and names a registered Purpose fills in are always the right ones: its events are let in whenever their type is accepted |
| Submissions.SubmitOutcome | src/turnturnturn/base_purpose.py:281-290 | An event a Purpose submits is the next record exactly when it is registered and the type is accepted; otherwise it gets an error and leaves no trace |
| Submissions.RequestSessionEndOutcome | src/turnturnturn/base_purpose.py:162-185 | The first request to end a session reaches the log; any further one is dropped by the Purpose itself, even when the first was refused |
| Submissions.RequestCtoOutcome | src/turnturnturn/base_purpose.py:187-226 | A file request reaches the log in the Purpose's own name exactly when its arguments are there, the Purpose is registered and the hub is open |
| Submissions.CompletingOutcome | src/turnturnturn/base_purpose.py:253-279 | The first acknowledgement of a session reaches the log unless the hub is closed; any further one is dropped by the Purpose itself, even when the first was refused |
| Submissions.ImportsAreInTheAskersName | src/turnturnturn/hub.py:1038-1053 | An import is in the name of the registration that asked for it, whatever the request claims |
| Submissions.ProposalIsMerged | src/turnturnturn/hub.py:1133-1145 | A mergeable proposal is recorded, delta_merged is the record after it, and the turn has the patch's entries after those it had |
| Submissions.RequestIsServed | src/turnturnturn/hub.py:1032-1060 | An importable request is recorded, and cto_imported in the asker's name, for the same session, file, code and request id, is the record after it |
| Submissions.LogBeginsWithLifecycle | src/turnturnturn/hub.py:398-424 | Every run's log begins with session_started if the persister is durable, the persister's purpose_started and the owner's |
| Ctos.MergeAllByNamespace | src/turnturnturn/hub.py:1305-1312 | After any deltas each namespace is its old list followed by the entries of the deltas naming it, in order |
| Ctos.MergeOrderIndependence | src/turnturnturn/hub.py:1305-1323 | Two interleavings of the same per-namespace delta sequences, empty patches included, give the same observations: no update is lost |
| Ctos.PatchEntriesSize | src/turnturnturn/hub.py:1310-1311 | A merge appends exactly as many entries as the patch has items |
| Ctos.ExtendNamespace | src/turnturnturn/hub.py:1309-1312 | The loops over patch items append one {key, value} entry for every item, keys in patch order and items in list order, each at its exact position, and nothing else |
| Snapshots.Store.Merge | src/turnturnturn/hub.py:1307-1323 | On the heap: the merged CTO has one new list and shares the others with the old, and any snapshot obtained earlier reads as it did |
| Profiles.GetAfterSet | src/turnturnturn/profile.py:104-125 | What is written at a path is read there |
| Profiles.GetFrame | src/turnturnturn/profile.py:104-125 | Writing at a path leaves every path reading the same that is not a prefix or extension of it |
| Profiles.DefaultingIsCorrect | src/turnturnturn/profile.py:271-308 | For field paths that are pairwise no prefixes of one another and well-typed factories, defaulted content still validates (strict mode too), keeps every well-typed supplied field, has every field with a default well typed, and is left alone, with the session context, by a second application |
| Profiles.AccessorsOfDefaultedContent | src/turnturnturn/profile.py:310-339 | On a defaulted turn the accessor of a required or defaulted field gives a value of its declared type, the supplied one if there was one |
| Profiles.WalkPath | src/turnturnturn/profile.py:81-101 | Walking a local down a path reads what the nested lookup says |
| Profiles.Validate | src/turnturnturn/profile.py:226-269 | The loop accepts exactly the content that has every required field of its Python type and, if the caller or the profile is strict, no top-level key that begins no field |
| Profiles.UnknownAccessor | src/turnturnturn/profile.py:310-345 | An accessor raises exactly when no field bears its name |
| Profiles.FillDefaults | src/turnturnturn/profile.py:271-308 | The loop yields the content and the session context of defaulting field by field |
| ContentNodes.Copy | src/turnturnturn/profile.py:128-143 | The top dictionary and those right below it are new and each its own, and read like the originals; deeper ones are shared |
| ContentNodes.SetByPath | src/turnturnturn/profile.py:104-125 | For a path of any length: of the dictionaries that were there exactly one is written to, once and at one key, the deepest along the path; the missing ones are new, each holding the one key to the next, down to the value |
| ContentNodes.FillInPlace | src/turnturnturn/profile.py:298-308 | For paths of any length, none leading to another, and factories that may return dictionaries the caller holds: a dictionary of the caller's is written to if and only if some field that needs its default has three or more keys and the content holds a dictionary two keys down that path; every field without such a dictionary, and without such a write every field, ends with its default if it needed one and reading as it did if not |
| Isolation.WriteAtHome | src/turnturnturn/profile.py:298-308 | A default whose path does not lead out of the copy is written within it: the field reads the value and every other such field reads as before |
| Isolation.WriteAway | src/turnturnturn/profile.py:298-308 | A default whose path leads out of the copy is written into a dictionary that is not the copy's, and changes no field within it |
| Nodes.ReadsWritten | src/turnturnturn/profile.py:104-125 | On the heap: the path just written along reads what was written |
| Nodes.ReadsApart | src/turnturnturn/profile.py:104-125 | and every path apart from it reads as before, as long as both stay among one's own dictionaries |
| ContentNodes.Lookup | src/turnturnturn/profile.py:81-101 | Walking a local down the dictionaries reads what the path reads, for a path of any length |
| Conversation.ConversationIsWellBehaved | src/turnturnturn/profiles/conversation.py:138-181 | The profile built is one that defaulting is correct for |
| Conversation.ConversationTakes | src/turnturnturn/profiles/conversation.py:138-175 | The built profile takes exactly content whose speaker.id and text are texts and which, in strict mode, has no other top-level key than those two; its four accessors read their fields and there are no others |
| Conversation.ConversationFills | src/turnturnturn/profiles/conversation.py:138-202 | Defaulting leaves speaker.id and text alone, makes a role that is no text "speaker", and a label that is none "speaker_" with the speaker's number in the session's registry |
| Conversation.TurnEffect | src/turnturnturn/profiles/conversation.py:184-202 | Defaulting a turn keeps a supplied label and enrols nobody, or enrols the speaker and labels the turn with its ordinal |
| Conversation.RegistryIsNumbered | src/turnturnturn/profiles/conversation.py:198-202 | Over any turns of a session the registry is a bijection between 1..n and the speakers whose labels were left to the default |
| Conversation.OrdinalsAreKept | src/turnturnturn/profiles/conversation.py:200-202 | No ordinal of a session ever changes |
| Conversation.DefaultLabelsTellSpeakersApart | src/turnturnturn/profiles/conversation.py:184-202 | Two defaulted labels in a session are equal exactly when the speakers are |
| Conversation.SessionContext.SpeakerLabel | src/turnturnturn/profiles/conversation.py:184-202 | The method on the session's own dictionary updates it and answers as the factory does |
| SpeakersInRuns.SpeakersAreNumbered | src/turnturnturn/hub.py:510-520 | At every point of every run, rejected start_turns included, each session's registry numbers its speakers 1..n |
| SpeakersInRuns.LabelsTellSpeakersApartInRun | src/turnturnturn/hub.py:718-721 | However far apart in a run, two defaulted labels of a session are equal exactly when the speakers are |
| Text.DecimalInjective | src/turnturnturn/profiles/conversation.py:202 | Different ordinals print differently |
| CtoJson.ExportNormalizes | src/turnturnturn/cto_json.py:29-44 | An exported document normalises if and only if the profile id and the namespaces are non-empty and the version is an int, and gives back profile, content, observations, identity and the metadata with the session code |
| CtoJson.NormalizeIdempotent | src/turnturnturn/cto_json.py:57-151 | Normalising the document of a normalised result returns the same result |
| CtoJson.NormalizesExactly | src/turnturnturn/cto_json.py:57-151 | For every document: it normalises if and only if its schema is ttt.cto, its version 1, its cto an object with a profile of non-empty id and int version, content an object, observations, if any, non-empty names to lists of objects, and metadata, if any, an object; each part of the result is the field it comes from, and its document has the declared fields and no others |
| CtoJson.NormalizeDocument | src/turnturnturn/cto_json.py:57-151 | The procedure with its two loops over the observations accepts exactly those documents and yields those parts |
| CtoJson.CopyObservations | src/turnturnturn/cto_json.py:97-115 | The namespaces are copied exactly if each is non-empty and holds a list of objects |
| CtoJson.CopyEntries | src/turnturnturn/cto_json.py:108-114 | The entries of a list are copied exactly if all are objects |
| Archivist.FilterSplits | src/turnturnturn/archivist.py:437-441 | Filtering a log in two parts is filtering it whole: order is kept |
| Archivist.FilterCounts | src/turnturnturn/archivist.py:109-144 | A backend's filter keeps each record it is to get as often as it occurs and no other |
| Archivist.SelectsExactly | src/turnturnturn/archivist.py:109-144 | A backend's configuration lets through exactly the records of the types it names, if it names any, by their wire names, and of the hub's announcements of turns only those of its profile, if it names one; records without a profile always pass |
| Archivist.ProfileBackendGets | src/turnturnturn/archivist.py:128-144 | Of any run's log a backend for one profile gets every record but the cto_started and delta_merged of turns of another profile |
| Archivist.Archivist.Route | src/turnturnturn/archivist.py:437-441 | On the objects: the backends end up holding exactly what that fan-out leaves, the call succeeds exactly when none raises, and those that got session_completed have written their document |
| Archivist.FanOutOutcome | src/turnturnturn/archivist.py:437-441 | After one fan-out every backend that admits the record has it, after what it held, if and only if none of them raises; if one does, exactly those that admit it and come before the first to raise have it, so an earlier failure does gate later backends, against archivist.py:411-412 |
| Archivist.Archivist.Store | src/turnturnturn/archivist.py:491-506 | Without failures exactly the backends that want a record get it, each one's accepted sequence stays exactly the order-preserving filter of the log, and its document what was accepted up to the last session_completed |
| Archivist.FlushedAtCompletion | src/turnturnturn/archivist.py:284-309 | A session document exists exactly when a session_completed was accepted, and holds exactly what was accepted up to the last one |
| Archivist.ClosedSessionIsDocumented | src/turnturnturn/archivist.py:306-309 | When a hub closes, a document backend that admits session_completed has flushed everything it admits of the whole log |
| Archivist.DocumentsHaveNoId | src/turnturnturn/archivist.py:307-309 | In every run the id of a flushed document is null, which the documented shape allows: session_completed is never a hub event |
| Archivist.Archivist.IsDurable | src/turnturnturn/archivist.py:389-401 | An Archivist is durable exactly when one of its backends is |
| Archivist.Backend.Accept | src/turnturnturn/archivist.py:284-309 | Each accepted record is added at the end, and a document backend flushes all of them when it is session_completed |
| Participants.Purpose.Refusal | src/turnturnturn/base_purpose.py:320-336 | An envelope is accepted exactly when it bears the Purpose's own token and signature, with the three refusals told apart |
| Participants.Persister.Contains | src/turnturnturn/persistence.py:244-246 | The scan finds an id exactly when a record has it |
| Participants.Persister.WriteEvent | src/turnturnturn/persistence.py:235-251 | The record is appended, or dropped when duplicates are dropped and its id is there |
| Runtime.TTT.Start | src/turnturnturn/hub.py:369-425 | The objects end in the bootstrapped state: session_started if durable, the persister's purpose_started, the owner registered |
| Runtime.TTT.Run | src/turnturnturn/hub.py:159-228 | Running a whole program on the objects ends in the state the function Started gives, and in a state all invariants hold of if its callers are honest |
| Runtime.TTT.MatchToken | src/turnturnturn/hub.py:568-569 | The scan collects exactly the registrations holding a token |
| Runtime.TTT.ResolveToken | src/turnturnturn/hub.py:556-592 | A token resolves when exactly one registration or the persister holds it |
| Runtime.TTT.RegisterPurpose | src/turnturnturn/hub.py:478-508 | New credentials on both sides, and the registration in its key's old place or at the end |
| Runtime.TTT.Admit | src/turnturnturn/hub.py:957-962 | Guards, credential checks and the write of take_turn change the state as Hub.Ingress says |
| Runtime.TTT.TakeTurn | src/turnturnturn/hub.py:925-994 | On the objects, take_turn ends in the state and outcome Operations.TakeTurnOutcome and CustomOutcome are about |
| Runtime.TTT.StartTurn | src/turnturnturn/hub.py:633-730 | On the objects, start_turn ends in the state and outcome Operations.StartTurnOutcome is about |
| Runtime.TTT.AcceptCto | src/turnturnturn/hub.py:750-795 | The CTO and its session code are stored before cto_started is written and dispatched |
| Runtime.TTT.EnsureStartupOwner | src/turnturnturn/hub.py:732-748 | The first turn of a session is the startup owner's to make |
| Runtime.TTT.MergeProposal | src/turnturnturn/hub.py:1266-1364 | On the objects, merging ends in the state and outcome Operations.MergeDeltaOutcome is about |
| Runtime.TTT.FindNonList | src/turnturnturn/hub.py:1288-1303 | The scan finds the first patch value that is no list, if there is one |
| Runtime.TTT.StoreMerged | src/turnturnturn/hub.py:1305-1343 | The updated CTO replaces the old one before delta_merged is written and dispatched |
| Runtime.TTT.Dispatch | src/turnturnturn/hub.py:1432-1443 | The loop over the registrations, re-entered from its own body, ends as Hub.Multicast says |
| Runtime.TTT.DeliverTo | src/turnturnturn/base_purpose.py:303-342 | One recipient's checks and reaction, default or its own calls back into the hub |
| Runtime.TTT.Announce | src/turnturnturn/hub.py:1394-1412 | Phase 1 of a multicast: a failed write stops it before anyone is told |
| Runtime.TTT.HandleRequestSessionEnd | src/turnturnturn/hub.py:1147-1183 | On the objects, a request ends in the state and outcome Operations.RequestEndOutcome is about |
| Runtime.TTT.HandlePurposeCompleted | src/turnturnturn/hub.py:1185-1203 | An acknowledgement is taken off the pending set, and the last sends the all-clear |
| Runtime.TTT.EmitSessionClosePending | src/turnturnturn/hub.py:856-873 | The all-clear reaches the persister, which records it, acknowledges and completes |
| Runtime.TTT.EmitCompleted | src/turnturnturn/persistence.py:181-201 | A durable persister writes session_completed and hands it to the hub |
| Runtime.TTT.AcceptSessionCompleted | src/turnturnturn/hub.py:1205-1220 | Only the durable persister closes the hub |
| Runtime.TTT.CompleteSessionClosing | src/turnturnturn/base_purpose.py:253-279 | A session is acknowledged once |
| Runtime.TTT.SubmitOwnEvent | src/turnturnturn/persistence.py:123-133 | The persister writes its own event before the hub sees it, and the hub does not write it again |
| Runtime.TTT.RequestSessionEnd | src/turnturnturn/base_purpose.py:162-185 | The end of a session is requested once |
| Runtime.TTT.AnnounceStarted | src/turnturnturn/base_purpose.py:228-251 | A Purpose announces itself once |
| Runtime.TTT.RequestCtoImport | src/turnturnturn/base_purpose.py:187-226 | A request for an import goes to the hub in the Purpose's own name |
| Runtime.TTT.StartPurpose | src/turnturnturn/hub.py:594-631 | On the objects, joining ends in the state and outcome Adoption.StartPurposeOutcome is about |
| Runtime.TTT.Close | src/turnturnturn/hub.py:797-822 | On the objects, the legacy close ends in the state and outcome Adoption.LegacyCloseOutcome is about |
| Runtime.TTT.PersisterImport | src/turnturnturn/archivist.py:443-489 | On the objects, an import request ends in the state and outcome Adoption.RequestImportOutcome is about |
| Runtime.TTT.AdoptImported | src/turnturnturn/hub.py:1062-1131 | On the objects, adoption ends in the state and outcome Adoption.ImportOutcome is about |
| Runtime.TTT.ReceiveCustom | src/turnturnturn/hub.py:943-951 | On the objects, custom events end in the state and outcome Operations.CustomOutcome is about |
| Runtime.TTT.HandleEvent | src/turnturnturn/hub.py:964-994 | Each built-in event goes to its own handler |
| Runtime.TTT.RelayRequestCto | src/turnturnturn/hub.py:1032-1060 | A file request is relayed to the persister alone, in the asking registration's name, and is not written again |
| Runtime.TTT.RunSteps | src/turnturnturn/base_purpose.py:345-350 | A handler's calls run in order up to the first error it does not catch |

## Left out

- asyncio scheduling, bootstrap tasks, clocks, logging, warnings and version lookup: no part of what the hub keeps.
- File and path handling, JSON text, SHA-256, HMAC and random generation: parameters, counters and injective functions instead.
- `dag.py`, `ids.py`, the string checks of `register_event_type`, `registry.py` subscriptions, and `__getattr__` beyond
  `Profile.resolve`: empty or easy.
- Participants that are not `BasePurpose`, and registering the persister through `start_purpose`.
- `cto_snapshot_record` and the JSON shape of records: a record keeps origin, id, session, turn and payload, which is all that
  replay, filters and the proofs read.
- Replay of the content given to start_turn: it is in no record. What is said of replay is said of the records, not of a reader of
  them in the repository, which has none.
- What a backend that fails leaves behind in the other backends of an Archivist, as seen by the hub: the hub's log is one sequence.
- The order in which a Purpose sees events: nested events can overtake outer ones, so it is not log order.
- Ownership of namespaces: the namespace comes from the delta, whoever proposes it.
- CtoJson.Normalize: which entry of the observations is complained about first is not modelled, only that one is.
- ContentNodes.FillInPlace: profiles one of whose paths leads to another are left out, and so are factories that return one of the
  copy's own dictionaries, since what the factories return is given beforehand; that a value at the end of a path is a dictionary
  is kept, not what that dictionary holds, which is what Profiles.FillDefaults computes on values.
- Runtime.TTT.DeliverTo: the reaction of a Purpose is taken from the list of reactions, not computed by an overridden method.
- Snapshots.Store.Merge: one merge, on a store of its own: that a run's merges go the same way is in `Runtime.TTT.StoreMerged`, by
  value. Entries are values here; that an entry of a patch may be shared with the caller's delta is not captured.
- Archivist.Archivist.Route: no backend is listed twice, as it might be under two filters.
