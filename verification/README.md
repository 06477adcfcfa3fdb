# Governance machinery, verified

This project models the stateful services that govern what the agents of the platform may do, and
proves what those services promise over whole runs. It is a Dafny 4.11 project; `dafny verify
dfyconfig.toml` checks everything.

## What is modelled

- **Governed write-back and the on-prem bridge.** `WriteBack` is a state machine over the tables of
  the connector, approval-gate and bridge services: connected tools, gate records, write requests,
  bridges, jobs, the audit log, the org policy and the kill switch. A service call is one step up to
  its external call and a second step when that call returns, so anything may happen in between; a
  decision may also stop between recording the approval and settling. A desk poll reads its rows
  once and settles the copies it read, one step each. History fields record every external call
  started, every job handed out and every answer accepted. `WriteBackShapes` names what a handler
  can do, `WriteBackInvariants`, `WriteBackLedger`, `WriteBackJobs` and `WriteBackHistory` keep the
  invariants. The promises are in `WriteBackTheorems`, `WriteBackGuarantees`, `WriteBackOrder` (which
  schedules of calls run every write at most once), `WriteBackRejections`, `WriteBackTools`,
  `WriteBackRoutes` (which way a call goes, and when it is refused), `WriteBackSecrets` (who is listened
  to as a bridge), `WriteBackHandlers` (what each handler does, and exactly when) and
  `WriteBackReceipts` (what the log says).
  `WaceService` is the service itself, updating its tables in place: every public method takes one
  step of the machine (`WriteBackSteps`), so at any time its tables are those of the run of all its
  calls so far, and the promises about runs hold of the object.
- **Refresh-token rotation** (`Sessions`, `TokenManager`): the session table, with the two commits
  of a refresh as separate steps, and the manager whose table is always that of its run. Rotation
  is the practice of section 10.4 of RFC 6749.
- **Windowed counters** (`RateLimit`, `Budget`, `BudgetTracker`): cheap mutable counters against
  the full history of what happened, and the check / in-flight / record-or-drop shape of the
  gateway around the budget. Money and time are reals.
- **Tool and skill lifecycles** (`ToolGovernance`, `IntegrationService`, `SkillLifecycle`):
  authority-checked transition tables, bindings, access and credential tickets.
- **Printers, pagers and merges** (`PromLabels`, `AuditExport`, `BundleCanonical`, `Placeholders`,
  `SaibScan`, `SaibMask`, `SaibGuard`, `Backup`, `BackupService`, with `Strings` beneath them): label
  escaping and its inverse, the early-exit pager and the signed export, the canonical string of the signed
  bundle, placeholder masking and the merge of two mappings, and the transactional restore.
  Labels follow the Prometheus text exposition format 0.0.4, section "Text format details"; the
  keyed digest follows section 2 of RFC 2104.

## Where the code does not keep a promise

Each of these is proved: an exact condition or a concrete run, as the table says.

- A settlement in flight is not marked on its row, so a desk poll during the external call runs the
  same write again. Writes run once when a decision waits for its own request's settlement and polls
  and a poll for its own desk's; nothing else needs to wait.
- A rejection does not stop a settlement in flight: when it comes back the rejected row becomes
  executed or failed, behind a gate record that says rejected.
- A write recovered by a poll, after a stop between approval and settlement, is executed without
  the approver's name on its row.
- A bridge write whose wait times out is recorded as failed, but its job stays queued and the agent
  is handed it later, even while the kill switch is on: handing out jobs does not read the switch.
- The kill switch is said to halt everything; listing terminal hosts, previewing a spec and
  exchanging a sign-in code do not read it.
- A tool disconnected while its sign-in waits for the provider is saved again when the provider
  answers. A disconnect stands if and only if no sign-in of the tool is waiting.
- `governance.py` says an individual approves their own writes; `decide_write_back` refuses an
  approver who is the maker. The model follows the code.
- `refresh` documents that the old session is always revoked, even on failure; an expired one is
  refused without being revoked.
- Disabling an operator and revoking all their sessions between the two commits of a refresh leaves
  the disabled operator with an active session.
- The rate limiter describes its window as reset when its length is exceeded; the code resets it
  when the length is reached. The usual bound of two limits per window length is one too high.
- A budget cap of zero, not only -1, is unlimited.
- A tool with a product is documented as exclusive to it; `assign_tool` does not read that field.
- Label names are not validated, so a name can spell out a whole label pair.
- The bundle's README says it is unmodified since export if both checks pass; organisation, date,
  counts, key name and unlisted archive entries are not covered by either, and the key is taken from
  the manifest, so anyone can sign any files. A reader who knows the key learns more, but has to
  refuse names with a newline: `verify_bundle` does not, and such a name can stand for a whole line.
- The longest of overlapping detections wins only among those with the same start; otherwise the
  earlier one wins, and the tail of a longer one that starts inside it stays in the text.
- A text in which a placeholder is spelled out literally at the moment that placeholder is replaced
  does not come back from unmasking, unless several such losses cancel; they cannot when every value
  is shorter than its placeholder.
- Backup documents timestamps as UTC; an aware timestamp keeps its own offset, and a text column
  holding a timestamp comes back as a timestamp.
- The pager's early return assumes newest-first order; a record without a timestamp, or out of
  order, behind the first one below the window is dropped.

## Model

| member | source | states |
|---|---|---|
| `WriteBackTheorems.SettledOnceIffSerial` | backend/src/aos/voundry/connectors.py:1691-1722 | Over every run: no request is settled twice, by its receipts and calls in flight, if and only if each settlement found its stored row pending and no settlement of it waiting: a test on the tables that neither the decision nor the poll makes. `WriteBackOrder.OrderlyIsSerial` shows which schedules of calls meet it. |
| `WriteBackTheorems.SerialRunsExecuteOnce` | backend/src/aos/voundry/connectors.py:1659-1722 | In runs that meet it, two settlement calls of one request are the same call, and the log holds exactly one executed, failed or rejected receipt for each settled request and none for a pending one. |
| `WriteBackOrder.OneAtATimeIsOrderly` | backend/src/aos/voundry/connectors.py:1396-1405 | If nothing is decided or polled while a settlement waits for its external call or a poll is unfinished, the run is orderly. Orderly asks less: a decision waits only for its own request's settlement and polls, a poll only for its own desk's. |
| `WriteBackOrder.OrderlyIsSerial` | backend/src/aos/voundry/connectors.py:1396-1405 | Over every orderly run no settlement starts while the request already has a receipt or a call in flight, and no poll holds a pending row that was settled: desks overlap freely, calls return in any order, a decision may stop between gate and settlement. |
| `WriteBackOrder.WritesRunAtMostOnce` | backend/src/aos/voundry/connectors.py:1659-1722 | Over every orderly run a write request starts at most one external call, with exactly one closing receipt once it is settled. |
| `WriteBackOrder.WritesReachTheAgentAtMostOnce` | backend/src/aos/voundry/connectors.py:1553-1558 | Over every orderly run at most one job handed to an agent carries the write of any given request. |
| `WriteBackOrder.StopAndRecoveryIsOrderly` | backend/src/aos/voundry/connectors.py:1396-1405 | The discipline allows a stop between gate approval and settlement with the desk's next poll settling. |
| `WriteBackOrder.PollSettlesOneAtATime` | backend/src/aos/voundry/connectors.py:1396-1405 | Over every run: while a settlement that a poll began waits for its external call, that poll goes no further, whatever else happens meanwhile. |
| `WriteBackGuarantees.OverlapRunsTwice` | backend/src/aos/voundry/connectors.py:1396-1405 | The failing case, which is not orderly: a desk poll during an approved write's external call starts the same write again. |
| `WriteBackTheorems.WriteWasAuthorised` | backend/src/aos/voundry/connectors.py:1377-1394 | Every settlement call of every run goes back to an earlier invoke with exactly its tool key, action and params, and to an approving decision by someone else made after that invoke and no later than the call, which began with the kill switch off. |
| `WriteBackTheorems.ReplayIsTheStoredStatus` | backend/src/aos/voundry/governance.py:48-56 | In every reachable state, folding the append-only log by request id gives the stored status of each request, with exactly one write_requested receipt; unknown ids have neither. |
| `WriteBackLedger.LedgerKept` | backend/src/aos/voundry/connectors.py:1710-1721 | Every step keeps the exact accounting: each request's receipts and calls in flight grow by one precisely for the request the step settles. |
| `WriteBackTheorems.RunInv` | backend/src/aos/voundry/connectors.py:1257-1405 | Rows, gate records, copies held by polls and by calls in flight, the log and the job queue agree in every reachable state. |
| `WriteBackGuarantees.EveryWriteIsGoverned` | backend/src/aos/voundry/connectors.py:1257-1373 | Over every run and for any catalogue: a call under a declared write's key and action, begun as a settlement or a direct write, began with the switch off and settles an approved request or is a direct action invoked while require_approval_for_writes was off; any other such call is a read, terminal, diagnostic or sign-in call under one of the service's own keys custom, ssh and oauth. |
| `WriteBackGuarantees.HaltedStartsOnlyUnguarded` | backend/src/aos/voundry/connectors.py:1217-1530 | While halted a step starts an external call if and only if it lists terminal hosts, previews a spec or exchanges a sign-in code, and that call is not refused; invoke, settlement and terminal_exec start none. |
| `WriteBackGuarantees.JobsAreHandedOnce` | backend/src/aos/voundry/bridge.py:183-196 | In every run each job is handed to an agent at most once, and a job that was handed out is no longer pending. |
| `WriteBackGuarantees.JobsNeverReturnToPending` | backend/src/aos/voundry/bridge.py:198-209 | A job that left PENDING never returns to it in any continuation of the run. |
| `WriteBackGuarantees.WriteReachesAgentOnce` | backend/src/aos/voundry/connectors.py:1553-1558 | The same for jobs handed to agents, in any run that meets the condition of `SettledOnceIffSerial`. |
| `WriteBackGuarantees.ResultWasSubmitted` | backend/src/aos/voundry/bridge.py:220-243 | A result that run_via_bridge returns for a job was submitted for that job by the bridge that owns it. |
| `WriteBackGuarantees.ClaimHandsEveryPendingJob` | backend/src/aos/voundry/bridge.py:183-196 | One poll hands over exactly the bridge's pending jobs, whatever became of their requests and whether or not the switch is on. |
| `WriteBackGuarantees.TimedOutWriteStillReachesAgent` | backend/src/aos/voundry/bridge.py:234-243 | From any reachable state with a bridge write in flight and its job pending: a timeout records FAILED, and after a halt the agent's next poll is still handed the job. |
| `WriteBackGuarantees.TimedOutWriteIsHandedIff` | backend/src/aos/voundry/bridge.py:183-243 | Over every run: a write recorded as failed on a timeout is handed to the agent afterwards if and only if its own bridge, authenticated, polls while the job is still pending. |
| `WriteBackGuarantees.HandedLaterIff` | backend/src/aos/voundry/bridge.py:183-209 | The same for any job from any point of a run on; what was handed before stays handed. |
| `WriteBackGuarantees.SettlementCarriesApprover` | backend/src/aos/voundry/connectors.py:1676-1679 | A settlement carries the approver's name exactly when the deciding call itself settles; a recovering poll carries none. |
| `WriteBackGuarantees.ReturnStoresOutcome` | backend/src/aos/voundry/connectors.py:1705-1716 | When a settlement's call comes back, the stored row is executed with exactly the returned result or failed with exactly the reason, keeps what was asked, and names the approver the settlement carried. |
| `WriteBackRejections.RejectionStartsNoCall` | backend/src/aos/voundry/connectors.py:1678-1689 | A rejection starts nothing over the rest of the run: the gate never approves the request again, and every settlement call it ever has began before the rejection. |
| `WriteBackRejections.RejectionStandsIff` | backend/src/aos/voundry/connectors.py:1678-1722 | A rejected row is still rejected at the end of the run if and only if no settlement that was in flight at the rejection has come back since; with none in flight it stays rejected for good. |
| `WriteBackRejections.RejectionIsOverwritten` | backend/src/aos/voundry/connectors.py:1710-1721 | The failing case: rejected while its settlement is in flight, a write ends as executed in the first approver's name behind a gate that says rejected. |
| `WriteBackGuarantees.RecoveredWriteLosesApprover` | backend/src/aos/voundry/connectors.py:1396-1405 | A stop between gate approval and settlement, recovered by a poll, ends with an executed row that names no approver although the gate record does. |
| `WriteBackTools.DisconnectStandsIff` | backend/src/aos/voundry/connectors.py:1217-1255 | From any reachable state: after an accepted disconnect the tool is absent in every continuation of the run if and only if no sign-in of it was waiting for the provider at the disconnect, which the caller can check before. |
| `WriteBackTools.SignInOutlivesDisconnect` | backend/src/aos/voundry/connectors.py:1217-1255 | The failing case from any reachable state: disconnected while any sign-in of it waits, the tool is back, signed in, when the provider answers. |
| `WriteBackTools.SignInCanBeUnderWay` | backend/src/aos/voundry/connectors.py:1217-1232 | Every reachable state with a tool that signs in has a next state in which its sign-in waits and the tool is still there. |
| `WriteBackGuarantees.PairingIsSpent` | backend/src/aos/voundry/bridge.py:69-86 | A bridge that is gone stays gone and a spent pairing secret is never available again, over every run. |
| `WriteBackGuarantees.TokenIsClaimedOnce` | backend/src/aos/voundry/bridge.py:69-86 | Whatever codes are tried, no bridge's token is released by two claims of one run. |
| `WriteBack.BridgeStartsIff` | backend/src/aos/voundry/bridge.py:211-233 | run_via_bridge begins a call exactly when the bridge is known, online and its allowlist is empty or names the action, and then queues one pending job with the given key, action and params. |
| `WriteBackSecrets.BridgeWasPaired` | backend/src/aos/voundry/bridge.py:56-67 | Over every run each stored bridge was paired by one step of it and holds the digest of the secret drawn there, with that pairing's desk and code. |
| `WriteBackSecrets.OnlyThePairedSecretActs` | backend/src/aos/voundry/bridge.py:165-170 | From any reachable state: a hello, a poll for jobs or an answer that presents a secret no pairing drew for that bridge changes nothing at all. |
| `WriteBackSecrets.ThePairedSecretActs` | backend/src/aos/voundry/bridge.py:172-209 | With the right secret the bridge is marked as seen, its pending jobs are marked running and handed over, or the answer is stored as done or failed. |
| `WriteBackSecrets.HandedUnderPairedSecret` | backend/src/aos/voundry/bridge.py:183-196 | Over every run each job handed out went to a poll of its own bridge that carried the secret drawn at that bridge's pairing. |
| `WriteBackSecrets.AcceptedUnderPairedSecret` | backend/src/aos/voundry/bridge.py:198-209 | Over every run each accepted answer was submitted by a step that carried the secret drawn at its bridge's pairing. |
| `WriteBackSecrets.RevokedBridgeStaysOut` | backend/src/aos/voundry/bridge.py:143-148 | Once its desk revoked a bridge, in every continuation of the run nothing its agent sends changes anything, whatever it presents, and no call goes through it. |
| `WriteBackSecrets.OnlyTheDeskAdministers` | backend/src/aos/voundry/bridge.py:133-148 | An allowlist is set and a bridge is revoked exactly for a bridge of that desk, and nothing else changes. |
| `WriteBackHandlers.AllowsIff` | backend/src/aos/voundry/bridge.py:133-141 | A bridge whose allowlist was set lets an action through if and only if one of the first hundred entries that are not blank says so, or all are blank. |
| `WriteBackSecrets.ClaimTokenIff` | backend/src/aos/voundry/bridge.py:69-86 | A typed code releases a secret exactly when, stripped and in capitals, it is not empty and the first bridge that shows it still holds that secret and has not expired. |
| `WriteBackSecrets.CodeReleasesItsPairing` | backend/src/aos/voundry/bridge.py:56-86 | Over every run what a typed code releases is the secret drawn at the pairing that drew this code, no later than half an hour after it. |
| `WriteBackSecrets.TypedAnyWay` | backend/src/aos/voundry/bridge.py:71-71 | Case and surrounding white space of a typed code make no difference. |
| `WriteBack.RunTool` | backend/src/aos/voundry/connectors.py:1553-1564 | A started tool call is exactly one new call with the given origin, tool key, action and params, and changes nothing but its own job; which way it goes is `WriteBackRoutes.ToolRoute`. |
| `WriteBackRoutes.ToolRoute` | backend/src/aos/voundry/connectors.py:1553-1564 | A tool's call starts if and only if its route is open: for a tool on a bridge that bridge is known, seen within 45 seconds and allows the action; for a spec tool of a cloud application the action has a write path; otherwise always. It goes through the bridge, with its one job queued there, exactly for a tool on a bridge, to the cloud exactly for such a spec tool without one, and runs locally for any other. |
| `WriteBackRoutes.SettlementTakesToolsRoute` | backend/src/aos/voundry/connectors.py:1691-1713 | Over every run: each settlement call took the route of the tool its request names, as that tool stood when the call began; for a tool on a bridge its job is queued at that very bridge. |
| `WriteBackRoutes.SettlesIff` | backend/src/aos/voundry/connectors.py:1691-1722 | Settling an approved request begins one call and leaves the row alone if and only if the switch is off, the tool and its connector are there and the route is open; otherwise it starts nothing and fails the row with the reason of the first of these that is missing. |
| `WriteBackRoutes.ApprovalRunsIff` | backend/src/aos/voundry/connectors.py:1659-1722 | From any reachable state: an approval by someone else of a pending request begins its call under exactly those conditions, and otherwise fails it at once, with the reason. |
| `WriteBackRoutes.PollRunsIff` | backend/src/aos/voundry/connectors.py:1396-1405 | So does a desk poll that reaches the pending copy of an approved request. |
| `WriteBackHandlers.OnlyTheOwnerActs` | backend/src/aos/voundry/connectors.py:1039-1046 | A step that names a desk changes nothing at all unless the contributor it names is the one the desk is assigned to. |
| `WriteBackHandlers.InvocationIs` | backend/src/aos/voundry/connectors.py:1257-1278 | An invocation comes to anything exactly for the desk's owner, with the switch off, on a tool of that desk. |
| `WriteBackHandlers.CatalogInvocationIs` | backend/src/aos/voundry/connectors.py:1311-1347 | A gated write becomes a request; anything else the catalogue knows runs on the tool's own route exactly when the tool is signed in where its connector signs in, enabled or on a bridge where it does not, and the route is open. |
| `WriteBackHandlers.SpecInvocationIs` | backend/src/aos/voundry/connectors.py:1278-1309 | For a spec tool: a gated write becomes a request, a direct write goes out exactly where the application has a write path, a declared read goes to the application, listing and opening go through the tool's bridge or out without one, and nothing else happens. |
| `WriteBackHandlers.DecisionIs` | backend/src/aos/voundry/connectors.py:1659-1689 | A decision is accepted exactly on a pending row and not by its maker if it approves; a rejection stores approver and reason on the row and the gate record with a receipt, an approval the approver on the gate record. |
| `WriteBackHandlers.TerminalBeginsIff` | backend/src/aos/voundry/connectors.py:1506-1530 | A terminal command goes out exactly for the desk's owner while the policy does not block terminals, the precheck found it safe, the switch is off and the bridge is open to it; otherwise nothing happens. |
| `WriteBackHandlers.ConnectsIff` | backend/src/aos/voundry/connectors.py:1048-1056 | A tool is added exactly by the desk's owner under a key the policy does not block, with the desk, owner, key, bridge and form given, and a receipt. |
| `WriteBackHandlers.DisconnectsIff` | backend/src/aos/voundry/connectors.py:1246-1255 | A tool is removed exactly by the owner of its own desk, with a receipt. |
| `WriteBackHandlers.SignInBeginsIff` | backend/src/aos/voundry/connectors.py:1217-1240 | A sign-in code is exchanged exactly for a tool without bridge and spec whose connector signs in. |
| `WriteBackHandlers.PatchedIs` | backend/src/aos/voundry/connectors.py:986-999 | A policy patch sets the fields it names, keeps the first sixty blocked connectors, and leaves every other field. |
| `WriteBackHandlers.SwitchIsAsLastPressed` | backend/src/core/safety/autonomy_gate.py:14-25 | Over every run the switch is on exactly while some activation has not been answered by a deactivation, and off it has no reasons. |
| `WriteBackHandlers.ReasonIsTheLast` | backend/src/core/safety/autonomy_gate.py:19-25 | Over every run the one reason is that of the last activation, "halted" if it gave none. |
| `WriteBackHandlers.JobsCarryCalls` | backend/src/aos/voundry/bridge.py:211-218 | Over every run each job carries the key, action and params of the call that queued it. |
| `WriteBackHandlers.AnswerReachesRow` | backend/src/aos/voundry/bridge.py:198-243 | From any state with a settlement waiting for a job: the answer its bridge submits is what the row ends with, executed with the result or an empty text for an empty one, or failed with the error's first two thousand characters. |
| `WriteBackHandlers.UnansweredWaits` | backend/src/aos/voundry/bridge.py:234-243 | A bridge call does not come back before its job is answered or its wait is over; at the end of the wait a settlement fails as unanswered. |
| `WriteBackReceipts.ReceiptsTellTheTruth` | backend/src/aos/voundry/governance.py:48-56 | Over every run: every receipt about a request stands for a stored request of its desk and names its maker, the gate or the rejecting approver; every other one names the contributor its desk is assigned to. |
| `WriteBackReceipts.ReturnLeavesReceipt` | backend/src/aos/voundry/connectors.py:1341-1367 | A call that comes back leaves exactly its receipts: a settlement its closing one, a use, a terminal command and a sign-in one if they have a result and none if they failed, a diagnostic none. |
| `WriteBackHistory.DeskHistory` | backend/src/aos/voundry/connectors.py:1377-1394 | A desk step adds a request row only by an invoke that asked for it, and turns a gate record to approved only by a decision of someone other than its maker; existing rows keep what was asked. |
| `WriteBackJobs.DeskOneCall` | backend/src/aos/voundry/connectors.py:1257-1405 | A desk step starts at most one external call and queues a job only for that call. |
| `WaceService.Wace.LogAndRowsAgree` | backend/src/aos/voundry/governance.py:48-56 | At any time the service's log, folded by request, gives each row's stored status, with one request receipt each. |
| `WaceService.Wace.SettlementsAreApproved` | backend/src/aos/voundry/connectors.py:1377-1394 | At any time every settlement call the service made asked for what its request asks for, in the name of an approver who is not the maker, with the switch off. |
| `WaceService.Wace.NothingRanTwice` | backend/src/aos/voundry/connectors.py:1659-1722 | If its callers were orderly, the service never started two calls for one request. |
| `WaceService.Wace.Invoke` | backend/src/aos/voundry/connectors.py:1257-1373 | Takes exactly the machine's invoke step: the tables afterwards are those of the run one step longer. |
| `WaceService.Wace.RequestWrite` | backend/src/aos/voundry/connectors.py:1377-1394 | The service after asking is the machine's RequestWrite: gate record, row and receipt under one fresh id. |
| `WaceService.Wace.DecideWriteBack` | backend/src/aos/voundry/connectors.py:1659-1689 | Takes exactly the machine's decision step; accepted exactly for a pending row that is not approved by its own maker. |
| `WaceService.Wace.Settle` | backend/src/aos/voundry/connectors.py:1691-1722 | Settling is the machine's Settle up to the external call: gate, switch, tool and connector checks in that order, each failure closing the row. |
| `WaceService.Wace.ListWriteRequests` | backend/src/aos/voundry/connectors.py:1396-1405 | Takes exactly the machine's poll-start step. |
| `WaceService.Wace.SettleNextListed` | backend/src/aos/voundry/connectors.py:1400-1404 | Takes exactly the machine's next-row step on the copy read at the start. |
| `WaceService.Wace.Return` | backend/src/aos/voundry/connectors.py:1705-1721 | Takes exactly the machine's return step, closing the row or adding the receipt. |
| `WaceService.Wace.TerminalExec` | backend/src/aos/voundry/connectors.py:1506-1530 | Ownership, policy, precheck and switch in that order, then the bridge call. |
| `WaceService.Wace.Disconnect` | backend/src/aos/voundry/connectors.py:1246-1255 | Only the owner of the desk removes a tool of that desk, with a receipt. |
| `WaceService.Wace.SetOrgPolicy` | backend/src/aos/voundry/connectors.py:986-995 | Sets exactly the fields the patch names, keeps the first sixty blocked connectors and leaves the rest. |
| `WaceService.Wace.Activate` | backend/src/core/safety/autonomy_gate.py:19-21 | The switch goes on with the given reason, or "halted" for an empty one, and nothing else changes. |
| `WaceService.Wace.ApproveGelTask` | backend/src/aos/voundry/governance.py:89-92 | The gate record becomes approved under the approver's name and nothing else changes. |
| `WaceService.Wace.ClaimCode` | backend/src/aos/voundry/bridge.py:69-86 | The loop over bridges compares the code stripped and upper-cased, returns the token of the first bridge showing it exactly when that code is unspent and not expired, and spends it. |
| `WaceService.Wace.ClaimJobs` | backend/src/aos/voundry/bridge.py:183-196 | The loop marks exactly the pending jobs of a bridge running, and only under a secret whose digest it holds; each is handed over oldest first, was never handed out before, and is described with the key, action and params of the call that queued it. |
| `WaceService.Wace.SubmitResult` | backend/src/aos/voundry/bridge.py:198-209 | Accepted exactly from the bridge that owns the job, under a secret whose digest it holds; sets DONE or FAILED with the answer. |
| `WaceService.Wace.Hello` | backend/src/aos/voundry/bridge.py:165-181 | Accepted exactly under a secret whose digest the bridge holds; it marks the bridge as seen now. |
| `Sessions.RotationIsLinear` | backend/src/core/auth/token_manager.py:219-281 | In every state of every run, also between the two commits of a refresh, each login has at most one live heir (an active session or a refresh between its commits), and no raw token wins twice. |
| `Sessions.ActiveAtMostLogins` | backend/src/core/auth/token_manager.py:145-213 | An operator's active sessions never outnumber their logins. |
| `Sessions.RevokedForever` | backend/src/core/auth/token_manager.py:304-316 | A session that is inactive is inactive in every later state of the run. |
| `Sessions.LoggedOutNeverWins` | backend/src/core/auth/token_manager.py:287-302 | After a logout of a known token, in every continuation of the run its session is inactive, it is refused as revoked, and it wins no refresh. |
| `Sessions.LogoutIs` | backend/src/core/auth/token_manager.py:287-316 | Logout revokes the token's session now if it is known and active; every other session, the operators and the refreshes between their commits are unchanged. |
| `Sessions.FreshTokenLastsItsTtl` | backend/src/core/auth/token_manager.py:145-281 | Over every run: the token of a login refreshes as long as nothing ends its session or disables its operator, until its ttl is over, and is refused as expired from then on. |
| `Sessions.WinsIff` | backend/src/core/auth/token_manager.py:219-281 | A refresh wins exactly when the token is known, its session active and unexpired and its operator enabled. |
| `Sessions.RefreshRevokesUnlessExpired` | backend/src/core/auth/token_manager.py:219-260 | A refresh of an active session leaves it active if and only if it had expired: the docstring's promise that the old session is always revoked fails there. |
| `Sessions.ExpiredSessionStaysActive` | backend/src/core/auth/token_manager.py:219-260 | Such a session is reachable: refreshed after it expired, it is refused and still active. |
| `Sessions.DisabledGainsOnlyOwed` | backend/src/core/auth/session_store.py:54-76 | A step gives a disabled operator a new active session if and only if it is the second commit of a refresh that is owed one. |
| `Sessions.LateHeirWasWonBefore` | backend/src/core/auth/token_manager.py:219-281 | Over every run: such an heir belongs to a refresh won while the operator was enabled, and the operator was disabled or deleted between its two commits. |
| `Sessions.DisabledOperatorKeepsSession` | backend/src/core/auth/token_manager.py:262-281 | A concrete run: disabling and revoking everything between the two commits leaves the disabled operator with an active session. |
| `TokenManager.TokenManager.Refresh` | backend/src/core/auth/token_manager.py:219-281 | Takes the machine's two steps, one for each commit; no raw token it accepts was ever accepted before; the error is the first failed check; a success ends with the old session revoked now and a fresh one of the same operator that lives for the ttl. |
| `TokenManager.TokenManager.OneSessionPerLogin` | backend/src/core/auth/token_manager.py:145-281 | At any time a login of this manager has one live heir at most, and an operator no more active sessions than logins. |
| `TokenManager.TokenManager.Issue` | backend/src/core/auth/token_manager.py:145-213 | A fresh active session under the hash of the returned raw token. |
| `TokenManager.TokenManager.Revoke` | backend/src/core/auth/token_manager.py:287-302 | The token's session is revoked now if it is known and active, and every other session is as it was; from then on the token wins no refresh, whatever steps follow. |
| `TokenManager.TokenManager.RevokeAllForOperator` | backend/src/core/auth/session_store.py:54-76 | The loop revokes exactly the operator's active sessions, returns their number, leaves none active and every other session as it was. |
| `RateLimit.FewerThanWindowsTimesLimit` | backend/src/core/security/rate_limit.py:95-128 | Every half-open interval of length T admits at most (ceil(T/W)+1)*L - 1 requests of a slot: one below the expected bound. |
| `RateLimit.FewerThanTwiceTheLimit` | backend/src/core/security/rate_limit.py:95-128 | An interval as long as the window admits at most 2L - 1 requests. |
| `RateLimit.TheBoundIsMet` | backend/src/core/security/rate_limit.py:95-128 | The bound is met for every positive length, limit and width: some orderly history admits exactly that many. |
| `RateLimit.SpansIsLeast` | backend/src/core/security/rate_limit.py:95-128 | The window count in the bound is the least number of windows covering the length. |
| `RateLimit.EndOfWindowAdmits` | backend/src/core/security/rate_limit.py:95-128 | A check at or after window_start + W is admitted whatever came before. |
| `RateLimit.RefusedMeansFull` | backend/src/core/security/rate_limit.py:95-128 | A check is refused only when a whole limit of requests was let in less than a window ago. |
| `RateLimit.SlotsAreIndependent` | backend/src/core/security/rate_limit.py:95-128 | With a fixed limit and width, a slot in a log of all slots behaves as if it were alone. |
| `RateLimit.RateLimiter.BoundHolds` | backend/src/core/security/rate_limit.py:95-128 | At any time the limiter object has let in at most (ceil(T/W)+1)*L - 1 requests of a slot within any interval of length T, whatever was asked of other slots, for a slot always asked with one limit and width and on a clock that never ran back between its checks. |
| `RateLimit.SlotsAreDistinct` | backend/src/core/security/rate_limit.py:114-116 | Distinct (bucket, key) pairs with colon-free buckets never share a slot. |
| `RateLimit.ColonSharesASlot` | backend/src/core/security/rate_limit.py:114-116 | A bucket name with a colon shares a slot with another pair. |
| `RateLimit.RateLimiter.Check` | backend/src/core/security/rate_limit.py:95-128 | The table is what folding every check ever made gives, the answer is that history's, the count of requests let in grows by exactly the answer, and a limit of zero or less admits and changes nothing. |
| `RateLimit.RateLimiter.CurrentCount` | backend/src/core/security/rate_limit.py:140-150 | The count of the slot's window in the history, zero without one. |
| `Budget.LazyRolloverIsExact` | backend/src/llm/budget.py:196-210 | On a forward clock the stored entry reports exactly the sums of non-negative costs of the current UTC day and month. |
| `Budget.ClockStepBackForgets` | backend/src/llm/budget.py:196-236 | If the clock steps back a day in between, today's cost is forgotten. |
| `Budget.LevelMeans` | backend/src/llm/budget.py:252-264 | EXHAUSTED exactly when a positive cap is reached, OK exactly below four fifths of each positive cap; a cap of zero or less never trips. |
| `Budget.OvershootIsBounded` | backend/src/llm/gateway.py:276-278 | With at most N calls in flight each costing at most C, recorded daily and monthly spend stays below the positive cap plus N*C in every state of every run of checks, drops, records and day changes. |
| `Budget.OvershootHappens` | backend/src/llm/gateway.py:382-403 | From any admitted state N calls do add N*C, to the day and to the month. |
| `Budget.NewDayAdmits` | backend/src/llm/budget.py:196-210 | On a day with nothing recorded yet a customer is admitted unless the month's cap is reached. |
| `Budget.DroppedCostNothing` | backend/src/llm/gateway.py:276-403 | N calls admitted that all drop out leave the customer as before. |
| `BudgetTracker.Tracker.RecordCost` | backend/src/llm/budget.py:212-234 | Reports what folding the whole ledger gives, which on a forward clock is the exact day and month sums with a negative cost counted as zero, under the cap last set for the customer or else the default; exhausted exactly when a positive amount of that cap is reached; and gauge rows showing exactly that level. |
| `BudgetTracker.Tracker.State` | backend/src/llm/budget.py:238-240 | Reports the same, under the same cap, without recording anything. |
| `BudgetTracker.Tracker.BuildState` | backend/src/llm/budget.py:242-284 | The three gauge rows of the customer show exactly one active level; other customers' rows still do. |
| `BudgetTracker.Tracker.CheckOrRaise` | backend/src/llm/budget.py:288-303 | Refuses exactly when the reported sum of the day or month has reached a positive amount of the cap stored for the customer, or of the default for a customer without one, and counts the refusal. |
| `BudgetTracker.Tracker.CapSetIsInForce` | backend/src/llm/budget.py:176-190 | At any time the cap in force for a customer is the one last set for them, whatever was recorded, read or checked since and whatever was set for others. |
| `BudgetTracker.CapStands` | backend/src/llm/budget.py:176-190 | Over operations: any that set no new cap for a customer leave their cap as it is. |
| `ToolGovernance.BindingsAreGoverned` | backend/src/core/integrations/governor.py:141-184 | Over every run: APPROVED is entered at most once per tool, an agent has at most one binding per tool, and a bound tool is APPROVED, ENABLED, DISABLED or REVOKED. |
| `ToolGovernance.PermittedIff` | backend/src/core/integrations/registry.py:109-173 | The whole policy, authority by authority: who may make each move, which moves there are, and that nothing leaves REVOKED. |
| `ToolGovernance.EveryMoveWasAuthorised` | backend/src/core/integrations/registry.py:109-137 | Over every run a tool's status changes only by a transition request for it, to APPROVED, ENABLED or DISABLED by the architect, the deputy or an integration governor, to REVIEWED by one of those, the standards agent or the lawyer, and to REVOKED before approval by the architect or the deputy. |
| `ToolGovernance.OracleAloneBindsNothing` | backend/src/core/integrations/registry.py:109-137 | A run whose transitions are all by the Oracle or the system leaves every tool DISCOVERED or PROPOSED, with no binding. |
| `ToolGovernance.AssignsIff` | backend/src/core/integrations/governor.py:141-184 | An assignment is accepted exactly for the product's own agent, an approved or enabled tool, a vault if there is a credential to keep and no such binding yet; it adds that binding and nothing else. |
| `ToolGovernance.BindingWasAssigned` | backend/src/core/integrations/governor.py:141-184 | Over every run each binding goes back to the assignment that made it, with its product, agent, tool and credential. |
| `ToolGovernance.UnbindsIff` | backend/src/core/integrations/governor.py:190-207 | A binding is removed exactly by the product it serves, and no other with it. |
| `ToolGovernance.ApprovalIsOneWay` | backend/src/core/integrations/registry.py:109-137 | Along any trace that follows the policy, after an approved status only ENABLED, DISABLED or REVOKED follow, and nothing follows REVOKED. |
| `ToolGovernance.AccessIff` | backend/src/core/integrations/security_hooks.py:109-188 | Access is granted exactly to an agent whose binding serves the requesting product while the tool is ENABLED. |
| `ToolGovernance.RevokedForever` | backend/src/core/integrations/security_hooks.py:109-188 | A revoked tool stays revoked and inaccessible in every continuation of the run. |
| `ToolGovernance.TicketIff` | backend/src/core/integrations/security_hooks.py:194-258 | Over every run: a ticket is issued exactly to the agent bound for that product while the tool is ENABLED, carries exactly the credential given at assignment and the binding's own product, and no stored credential fails to open. |
| `ToolGovernance.PrivateKeptIff` | backend/src/core/integrations/models.py:39-54 | A step keeps private tools private if and only if it is not an accepted assignment of another product's private tool: assign_tool does not read the tool's product. |
| `ToolGovernance.ForeignProductBindsPrivateTool` | backend/src/core/integrations/governor.py:116-184 | A concrete run in which another product binds a private tool. |
| `ToolGovernance.RunInv` | backend/src/core/integrations/vault.py:63-140 | In every reachable state each stored reference is the sealed credential of its assignment under the vault's key and the binding's product, and every tool's status ends its policy-following trace. |
| `IntegrationService.Service.TransitionStatus` | backend/src/core/integrations/registry.py:285-304 | A permitted request changes exactly that tool's status, and makes it APPROVED, ENABLED or DISABLED only for the architect, the deputy or an integration governor; any other changes no tool. |
| `IntegrationService.Service.AssignTool` | backend/src/core/integrations/governor.py:116-184 | The tables after an assignment are the machine's; the refusal is the first failed check. |
| `IntegrationService.Service.RevokeBinding` | backend/src/core/integrations/governor.py:190-207 | Removes exactly the binding of that product. |
| `IntegrationService.Service.RegisterTool` | backend/src/core/integrations/registry.py:211-241 | Refused exactly when the name is taken; otherwise a new DISCOVERED tool. |
| `SkillLifecycle.DeployedMeansFullyPromoted` | backend/src/core/knowledge/lifecycle.py:40-87 | However often it was sent back, a deployed skill's last four moves go DRAFT, PROPOSED, VALIDATED, APPROVED, DEPLOYED under proposer, validator, approver and governor. |
| `SkillLifecycle.PermittedIff` | backend/src/core/knowledge/lifecycle.py:40-140 | The whole policy, authority by authority, and that nothing leaves DEPRECATED. |
| `SkillLifecycle.OracleOnlyProposes` | backend/src/core/knowledge/lifecycle.py:105-139 | A run of Oracle-only requests never passes PROPOSED. |
| `SkillLifecycle.DeploymentIsFinal` | backend/src/core/knowledge/lifecycle.py:40-87 | After DEPLOYED at most one more move happens, to DEPRECATED by a governor; after DEPRECATED none. |
| `SkillLifecycle.SkillService.TransitionStatus` | backend/src/core/knowledge/skills.py:138-160 | The stored status is what the skill's whole history of requests gives; every refusal is the first failed check. |
| `SkillLifecycle.SkillService.CreateSkill` | backend/src/core/knowledge/skills.py:113-136 | A fresh skill in DRAFT with an empty history, refused for an empty or wildcard product. |
| `PromLabels.ThreeReplacesAreOneEscape` | backend/src/core/observability/prom.py:54-57 | The three ordered replacements equal one per-character escape. |
| `PromLabels.UnescapeUndoesEscape` | backend/src/core/observability/prom.py:54-57 | Unescaping an escaped value gives the value. |
| `PromLabels.ValuesStayOnTheirLine` | backend/src/core/observability/prom.py:54-57 | No label value breaks the line it is written on. |
| `PromLabels.ParseUndoesInline` | backend/src/core/observability/prom.py:67-72 | Parsing rendered labels gives exactly those labels, whatever the values hold, if and only if no label name holds an equals sign followed by a quote. |
| `PromLabels.ParseRecoversTheLabels` | backend/src/core/observability/prom.py:60-72 | Parsing a rendered canonical key gives the label map, for such names. |
| `PromLabels.KeysAgreeIffLabelsEqual` | backend/src/core/observability/prom.py:60-64 | Two dictionaries of label values as text share a key exactly when they are equal as maps, for any names. |
| `PromLabels.SeriesAreSharedIff` | backend/src/core/observability/prom.py:54-64 | Two label dictionaries with values of any kind share a series exactly when they name the same labels and str renders their values alike. |
| `PromLabels.SamplesCollideIffLabelsEqual` | backend/src/core/observability/prom.py:67-72 | Two samples whose label names hold no equals sign followed by a quote render alike exactly when their labels are equal. |
| `PromLabels.UnvalidatedNamesCollide` | backend/src/core/observability/prom.py:67-72 | Names are not validated: one label whose name spells out a pair renders like two labels. |
| `PromLabels.LabeledCounter.Value` | backend/src/core/observability/prom.py:127-128 | The value of a series is the sum of all increments made with an equal label map. |
| `PromLabels.LabeledCounter.Inc` | backend/src/core/observability/prom.py:120-125 | A negative increment is refused; any other is recorded under its label map. |
| `PromLabels.AgreesAfter` | backend/src/core/observability/prom.py:139-153 | Setting or adding under a key keeps every stored value equal to the level its label map has in the history: the last value set plus the increments since. |
| `PromLabels.Gauge.Inc` | backend/src/core/observability/prom.py:144-147 | An increment of either sign moves the series with an equal label map and no other. |
| `PromLabels.CountersOnlyGrow` | backend/src/core/observability/prom.py:116-125 | No series of a counter ever goes down, however its history grows. |
| `Strings.SortIsCanonical` | backend/src/core/observability/prom.py:60-64 | Sorting by key is a canonical form: two dictionaries sort alike exactly when they are equal as maps. |
| `AuditExport.EarlyExitIsExactIff` | backend/src/core/audit/export.py:93-120 | The scan that stops early equals the plain filter if and only if no record inside the window stands behind a record below it. |
| `AuditExport.NewestFirstIsExact` | backend/src/core/audit/export.py:93-120 | A newest-first list with timestamps throughout meets that. |
| `AuditExport.InsideIff` | backend/src/core/audit/export.py:93-120 | A record is inside the window unless its timestamp is before the start or after the end; both ends are inside, and so is a record without a timestamp. |
| `AuditExport.IterRecords` | backend/src/core/audit/export.py:93-120 | For any page size of at least one, the paging loop terminates and yields exactly the early-stopping scan of the whole list; for size zero nothing. |
| `AuditExport.ReslicingIsAPage` | backend/src/core/audit/export.py:146-150 | Re-slicing the first limit + offset records is a true page, also past the end. |
| `AuditExport.ExportAudit` | backend/src/core/audit/export.py:237-303 | The body is one line per emitted entry of every wanted source in order, the streamed digest is the tag of the joined body, the count is the number of entries; a missing or short secret fails first. |
| `AuditExport.BodySplitsIntoLines` | backend/src/core/audit/export.py:277-284 | Splitting the body at newlines gives back every rendered entry. |
| `AuditExport.ExportForAuditor` | backend/src/core/audit/export.py:306-314 | End to end: the lines are exactly the wanted records inside the window, and the signature accepts that body, and that secret, and no other. |
| `BundleCanonical.CanonicalIsInjective` | backend/src/aos/voundry/audit_export.py:53-54 | On newline-free names and fixed-length digests two canonical strings are equal exactly when the digest maps are. |
| `BundleCanonical.NewlineInNameCollides` | backend/src/aos/voundry/audit_export.py:53-54 | A newline in a name lets one file pass for two. |
| `BundleCanonical.BuiltBundleVerifies` | backend/src/aos/voundry/audit_export.py:82-129 | Every built bundle verifies. |
| `BundleCanonical.VerifiedIff` | backend/src/aos/voundry/audit_export.py:112-129 | The whole verdict: a missing name raises; otherwise a bundle verifies if and only if every listed digest is that of the entry held and the signature is the one the manifest's own key makes over exactly those digests. |
| `BundleCanonical.PartsOfAVerdict` | backend/src/aos/voundry/audit_export.py:112-129 | The two parts of a verdict: the files are right exactly if every listed digest is that of the entry held; the signature exactly if it is over the digests of what is held, listed or not. |
| `BundleCanonical.AnyoneCanSign` | backend/src/aos/voundry/audit_export.py:112-129 | The key comes from the manifest: any files under any key make a bundle that verifies with the organisation, date and key name of an honest one. |
| `BundleCanonical.PinnedKeyVerifiesIff` | backend/src/aos/voundry/audit_export.py:112-129 | For a reader who knows the key and any manifest: a bundle under that key verifies and lists no name with a newline if and only if its digests match, its signature is that key's, and what it holds is exactly the files that key signed there. |
| `BundleCanonical.VerifiedHoldsSignedIff` | backend/src/aos/voundry/audit_export.py:112-129 | So of the bundles that verify under the key, exactly those whose manifest lists no name with a newline hold a file set the key signed. |
| `BundleCanonical.NewlineBundleVerifies` | backend/src/aos/voundry/audit_export.py:53-129 | The failing case: an honest bundle of two files, rewritten to one file whose name spells out the other's line, verifies under the honest key and signature, and the first file is gone. |
| `BundleCanonical.SameCanonicalIffSameFiles` | backend/src/aos/voundry/audit_export.py:88-93 | Two file sets have equal canonical strings exactly when they are the same names with the same contents, unless contents collide. |
| `BundleCanonical.CopyVerifiesIff` | backend/src/aos/voundry/audit_export.py:112-129 | For one built bundle: a copy carrying its key and signature verifies and lists no name with a newline if and only if its digests match and it holds the built files. |
| `BundleCanonical.UnsignedPartsAreFree` | backend/src/aos/voundry/audit_export.py:112-129 | Organisation, date, receipt count, key name and unlisted archive entries can change without the verdict changing. |
| `Placeholders.ReplaceIsPut` | backend/src/saib/guard.py:155-165 | A string replacement of a bracketed key fills exactly the holes of that name and the literal spellings of the key. |
| `Placeholders.ChainIsExactIff` | backend/src/saib/detectors/registry.py:77-82 | A chain of such replacements gives the text that was meant if and only if no key is spelled out literally when its turn comes, as soon as characters can be weighed such that everything put in is lighter than its key. |
| `SaibScan.Dedupe` | backend/src/saib/detectors/registry.py:26-42 | Of detections sorted by start and length: the kept spans never overlap, were all detected, are the longest with their start, and every dropped one starts inside a kept one. |
| `SaibScan.EverythingIsMaskedIff` | backend/src/saib/detectors/registry.py:26-42 | Every detected character is masked if and only if no detection ends past the unbroken run of kept spans it starts in. |
| `SaibScan.LongerOverlapLeaks` | backend/src/saib/detectors/registry.py:32-42 | The failing case: of two overlapping detections the earlier is kept even when the later is longer, and the later one's tail stays in the text. |
| `SaibMask.NameIsInjective` | backend/src/saib/detectors/registry.py:64-69 | A placeholder name determines its kind and its number. |
| `SaibMask.Mask` | backend/src/saib/detectors/registry.py:44-75 | Numbering forward and replacing backward gives the text with one hole per span, and the mapping from each placeholder to its value. |
| `SaibGuard.Merge` | backend/src/saib/guard.py:155-165 | The merge loop renames exactly the system placeholders the prompt already uses and adds every value under its final name. |
| `SaibGuard.MergedIsDict` | backend/src/saib/guard.py:155-165 | No two placeholders of the merged mapping are the same. |
| `SaibGuard.UnmaskRestoresBoth` | backend/src/saib/guard.py:146-165 | Whatever placeholders collide, the one merged mapping restores prompt and system exactly, provided no placeholder of it is spelled out in the texts themselves. |
| `SaibGuard.UnmaskIsExactIff` | backend/src/saib/guard.py:146-165 | As soon as characters can be weighed such that every masked value is lighter than its placeholder, each text comes back if and only if no placeholder is spelled out literally in it at the moment that placeholder is replaced. |
| `SaibGuard.SimpleValuesAreOutweighed` | backend/src/saib/guard.py:146-165 | Such a weight exists for values without an opening bracket, for values shorter than their placeholders and for values longer than them. |
| `SaibGuard.LossesCanCancel` | backend/src/saib/detectors/registry.py:77-82 | Without one the equivalence fails: a concrete family of prompts that spell out two placeholders and come back all the same. |
| `SaibGuard.SpelledPlaceholderIsLost` | backend/src/saib/detectors/registry.py:77-82 | A prompt that spells out the placeholder its own value gets comes back if and only if the value is that very placeholder. |
| `SaibGuard.Process` | backend/src/saib/guard.py:146-165 | The masked texts and mapping handed out are those the two theorems speak of. |
| `SaibGuard.RoundTrip` | backend/src/saib/guard.py:183-185 | process followed by unmask returns both texts. |
| `Backup.ParseUndoesIso` | backend/src/core/ops/backup.py:187-203 | Reading back a written timestamp gives that timestamp, for every valid date, time, fraction and offset. |
| `Backup.IsoLooksStamped` | backend/src/core/ops/backup.py:196-200 | Every written timestamp passes the shape test, west of UTC by its third dash. |
| `Backup.CellRoundTripIff` | backend/src/core/ops/backup.py:187-209 | A cell comes back as it was, up to the UTC mark on naive timestamps, if and only if it is not a string that reads as a timestamp. |
| `Backup.TimestampTextIsMistaken` | backend/src/core/ops/backup.py:187-203 | A timestamp stored as text comes back as a timestamp. |
| `Backup.NaiveTextStays` | backend/src/core/ops/backup.py:187-203 | A naive timestamp stored as text stays text. |
| `Backup.ZuluTextIsUtc` | backend/src/core/ops/backup.py:187-203 | One with a Z behind it comes back as that time in UTC. |
| `Backup.StampedComesBack` | backend/src/core/ops/backup.py:170-203 | A timestamp cell comes back as it was, with its own offset, or marked as UTC if it was naive. |
| `BackupService.RestoreUndoesBackupIff` | backend/src/core/ops/backup.py:354-376 | Restoring a backup over any target reproduces every listed table up to the UTC mark if and only if no string cell reads as a timestamp; other tables keep what they hold. |
| `BackupService.RestoredBacksUpTheSame` | backend/src/core/ops/backup.py:242-314 | A database restored up to the UTC mark backs up to the very same file. |
| `BackupService.Service.Backup` | backend/src/core/ops/backup.py:242-314 | Fails exactly on an unregistered table; otherwise the payload holds every listed table, with matching counts. |
| `BackupService.Service.Restore` | backend/src/core/ops/backup.py:316-392 | One transaction: on any failure the database is as it was; on success it is the listed tables cleared and loaded one after the other. |
| `BackupService.RestoreTablesAre` | backend/src/core/ops/backup.py:360-369 | A successful restore has replaced, or extended, exactly the listed tables. |
| `BackupService.AcceptedRestoreSucceeds` | backend/src/core/ops/backup.py:360-369 | With every table registered and every insert accepted, restore succeeds. |
| `BackupService.RestoreSucceedsIff` | backend/src/core/ops/backup.py:354-376 | A restore succeeds if and only if every listed table that has rows is registered and accepted by the database on top of those restored before it; it then ends with exactly the restored tables. |
| `BackupService.Verify` | backend/src/core/ops/backup.py:394-472 | Valid exactly when the structure, the version, the table lists, the counts and every operator hash are right; raises exactly on a password that counts as true and is not a string. |
| `BackupService.BackupThenVerify` | backend/src/core/ops/backup.py:456-472 | A backup verifies if and only if every operator's password is empty or shaped like a bcrypt hash. |

## Left out

- Real races inside one atomic stretch: two workers inside the same step, or a process dying between an external call and the save of its row. Each stretch of a service call up to its external call is one step.
- The connector run closures, HTTP, SSRF checks, masking and formatting of results: an external call either returns a payload or raises.
- The checks of `connect` on the chosen connector form (base URLs, bridge capabilities, deployment configuration); the model admits any tool record, which is more than the code does. A sign-in completes only a tool that waits for one.
- How a pairing code is drawn: any code may be drawn, so codes may repeat. Stripping and upper-casing of the tried code, and stripping of allowlist entries, cover ASCII.
- Bridge capabilities, names and views, saved queries, runbooks and org tools: they gate nothing that is proved here.
- Identifiers drawn by uuid4 and random tokens are numbers from one counter; SHA-256 of secrets and refresh tokens, AES-GCM, Ed25519 and HMAC are symbolic and collision-free. Per-file digests of the bundle are an arbitrary function, and collisions are named where they matter.
- Access tokens, metrics and structured logs of the token manager. The operator table is changed by two methods of the manager that stand for the operator service.
- `mission_cost.py`: per-mission sums and a sort by cost, an easy member beside the budget ledger.
- The gateway's provider calls, cooldowns and telemetry: only admission, calls in flight and recording are modelled, for one customer at a time.
- Floating-point rounding of money and time.
- Parsing of the secret from the environment: the export takes the stripped value. The default audit repositories are not part of this model; sources are lists that do not change while they are paged.
- JSON rendering of an audit record: an arbitrary function whose output holds no newline.
- The rendering of bundle files, the ZIP container and key storage: a bundle is its manifest and a map of entries.
- The SAIb detectors, minimizer, classifier and policy: the model starts from minimized texts and spans sorted by start, whose kinds hold no brackets. The combined scan and the block branch are left out.
- Gzip and JSON of the backup file, and values that are not JSON (written through `str`): a row is text, timestamps, null or something JSON carries as it is. Offsets are whole minutes.
- Foreign keys and unique constraints of the restored database are one arbitrary test after each insert; cascades into tables outside the backup are not modelled.
- RateLimit.FewerThanWindowsTimesLimit: for one fixed limit and width and calls in clock order, as the callers use it.
- Budget.OvershootIsBounded: for a fixed cap and a clock that does not run back; a clock that does is `Budget.ClockStepBackForgets`.
- SaibGuard.UnmaskIsExactIff: for values that some weighing of characters makes lighter than their placeholders; `SaibGuard.LossesCanCancel` shows that the equivalence needs one. `SaibGuard.UnmaskRestoresBoth` is for all values.
- BundleCanonical.PinnedKeyVerifiesIff: the file sets the key signed have names without a newline, as those `build_bundle` writes have; the manifest that is verified may list any names.
- PromLabels.SamplesCollideIffLabelsEqual: for label names without an equals sign followed by a quote; `PromLabels.UnvalidatedNamesCollide` is what happens otherwise.
- Routes, request validation, the ORM, the frontend, readiness and configuration tables.
