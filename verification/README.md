# Device authentication and BR proxy of the soft bus, verified

This project models the protocol and state-machine core of the distributed soft bus and proves what it promises
about it: the apply-key negotiation between two devices and its key store, the BR proxy server, the connection
layer of authentication (connect requests, message codec, connection ids, sequence numbers), and four smaller
concurrent cores (send queue, open rendezvous, account authentication, ACL key slots).

Each component has the same shape. A datatype holds the state and one function per handler gives its step. Lemmas
show what every step keeps and, over whole runs, what a caller can rely on. A class holds the same state in fields
and runs the source's own walks and loops; its methods are proved equal to the step functions, so the lemmas speak
about them too. `dafny verify dfyconfig.toml` checks everything.

| file | what it holds |
|---|---|
| `ApplyKeyStore.dfy` | apply-key map, slot names, saving and recovery |
| `ApplyKeyNego.dfy` | one device's negotiation steps |
| `ApplyKeyNegoProps.dfy`, `ApplyKeyRuns.dfy` | its invariant, and the results for every run of one device |
| `ApplyKeyAnswers.dfy`, `ApplyKeyProgress.dfy`, `ApplyKeyEffects.dfy` | who is told what, that nobody is left waiting, and what single handlers do |
| `ApplyKeyAgreement.dfy`, `ApplyKeyOwnKey.dfy`, `ApplyKeyExample.dfy` | two honest devices, who holds the key, and two runs |
| `ApplyKeyService.dfy` | the negotiation as it runs |
| `BrProxyServer.dfy`, `BrProxyProps.dfy`, `BrProxyRuns.dfy`, `BrProxyChannels.dfy` | BR proxy server, its invariant and its runs |
| `BrProxyListeners.dfy`, `BrProxyEffects.dfy`, `BrProxyService.dfy` | its listeners, what each handler changes, and the server as it runs |
| `Looper.dfy` | the due-time queue |
| `ConnRequests.dfy`, `ConnLimits.dfy`, `ConnAnswers.dfy`, `ConnService.dfy` | connect requests, timeouts and results |
| `AuthDataCodec.dfy`, `AuthSeq.dfy` | wire form, connection ids, sequence numbers |
| `SendQueue.dfy`, `OpenRendezvous.dfy`, `OpenAnswers.dfy`, `AccountAuth.dfy`, `AclSlots.dfy` | the smaller cores |

## Assumptions

- Each handler is one atomic step, except in the rendezvous, where each locked section is one step. The source
  takes some of its locks piecewise, for example between checking for a started sibling and starting.
- Locks, allocations and bounded string copies succeed unless a parameter says otherwise. The bounded memory copy
  of the codec fails exactly on an empty destination and on a source longer than the destination.
- `ListAdd` inserts at the head, `ListTailInsert` at the tail. `SEQ_INTERVAL` is 2.
- What the platform answers (clock, foreground user, hichain, sockets, process table, storage) is a parameter of
  the step, so results hold for every answer.
- Two honest devices: a received message was sent by the peer at some time, a new request id is unused on both
  devices and names the peer, and hichain gives both ends of a request the same key. Messages may be lost,
  delayed, reordered and duplicated. In the negotiation of one device alone nothing of this is assumed, and its
  request ids may repeat.
- A connect request is promised one result if nothing of its id is queued or listed any more and its command is posted
  within the 11 s of its timeout. That is asked of this request only; other connects may reuse ids and be late. The
  second half of the condition is exact (`ConnLimits.PromptCommandIffOneResult`); `ConnLimits.ReusedIdIsStranded`
  shows what an id in use does.
- Session ids of the rendezvous are not used again, which holds for 2^31 - 2 openings in a row
  (`OpenRendezvous.SessionIdsDistinct`). A wait may come back without a signal; results that need a signal say so.
- Hashes in slot names are hexadecimal and so hold no underscore.

## Where a promise holds only under a condition

Each of these is proved exactly, with the input or run that fails.

- `PackAuthData` stays inside its buffer for every buffer size if and only if the announced length is below
  2^32 - 24. Above that the size sum wraps: length 0xFFFFFFE8 with a 23-byte buffer is accepted and the 24 head bytes
  go past its end (`AuthDataCodec.PackStaysInBufferIff`, `AuthDataCodec.WrapIsAccepted`).
- A connect whose command is posted a full timeout late can be told two results (`ConnLimits.LateCommandAnsweredTwice`).
- A client whose finish comes before its session key completes without storing the key
  (`ApplyKeyOwnKey.ClientStoresKeyIff`, `ApplyKeyExample.ClientCanCompleteWithoutKey`).
- After hichain reported the timeout's own code, a request that begins again can time out early. No run does so if and
  only if no error callback is registered or hichain never reports that code (`AccountAuth.NeverEarlyIff`,
  `AccountAuth.ReportedThenBegunFiresEarly`).
- A wait that comes back by itself before any call returns a success with channel 0
  (`OpenRendezvous.SpuriousReturnsNothing`).
- Two ends with one udid can read a slot that was not written (`AclSlots.AgreementIff`).
- A failed reopen keeps the new request id in the session (`BrProxyProps.FailedOpenRollsBack`,
  `BrProxyRuns.FailedReopenKeepsNewRequest`), and closing everything stops at a session with the reserved channel id,
  which no run stores (`BrProxyProps.CloseAllExactly`).
- Opens from the background can give two sessions one channel id (`BrProxyChannels.DistinctThroughoutIff`,
  `BrProxyChannels.SecondProcessSharesId`) and leave two addresses last connected
  (`BrProxyChannels.OneLastThroughoutIff`, `BrProxyChannels.BackgroundMarksTwo`). Opens of the foreground user do
  neither.
- A disconnect deletes its request without a callback (`ApplyKeyRuns.DisconnectedIsNeverCalledBack`), and a failure can
  miss an instance whose id is created again before the result is served (`ApplyKeyProgress.FailureReachesAll`,
  `ApplyKeyProgress.NewInstanceTakesTheResult`).
- Switching data reception off silences a channel id only if no other session that has it listens
  (`BrProxyListeners.SwitchOffQuietIff`).

## Where code and comments disagree

- The layout comment of `GenAuthIdSeq` calls bit 31 "greater zero". The code leaves a bit of the previous time
  stamp there (`AuthSeq.AuthIdTopBit`).
- `AuthIsUkExpired` returns true for a key that has not expired; the lookup model calls that `alive`.

## Model

| member | source | states |
|---|---|---|
| `ApplyKeyAgreement.CloseAckAgreement` | core/authentication/applykey/auth_apply_key_process.c:429-491 | at every point of every run of two honest devices with loss, delay, reordering and duplication: a client complete by its own events implies the server filed that same key, a server complete by its own events implies the client saw the server's close-ack, and every complete instance, queued success and success callback is justified by such an instance of the same business |
| `ApplyKeyAgreement.OwnCompletionAgrees` | core/authentication/applykey/auth_apply_key_process.c:685-775 | the two-role case split behind it, for any pair of states that keep the two-device invariant |
| `ApplyKeyAgreement.PairStepKeeps` | core/authentication/applykey/auth_apply_key_process.c:1134-1162 | every honest step of either device keeps the two-device invariant: roles of a request are opposite, server instances answer requests the peer sent, acks come from the peer, keys are the agreed ones |
| `ApplyKeyAgreement.TieBreakIsExclusive` | core/authentication/applykey/auth_apply_key_process.c:1006-1025 | of two different udid hashes exactly one device passes the string comparison |
| `ApplyKeyAgreement.OnlyOneDeviceStarts` | core/authentication/applykey/auth_apply_key_process.c:1027-1079 | whatever requests cross, the device with the smaller udid hash never has an instance that started hichain |
| `ApplyKeyOwnKey.ClientStoresKeyIff` | core/authentication/applykey/auth_apply_key_process.c:263-295 | in every honest run, a client that completed by its own events has stored the agreed key itself if and only if one of its finishes came after its session key with a slot name that fits; the server has stored it anyway |
| `ApplyKeyOwnKey.OwnKeyStoredIff` | core/authentication/applykey/auth_apply_key_process.c:263-295 | on any device in any run, an instance has filed a key itself if and only if some finish of it met a full-length last key and a fitting slot name |
| `ApplyKeyExample.ClientCanCompleteWithoutKey` | core/authentication/applykey/auth_apply_key_process.c:263-295 | an honest run in which the client's finish comes before its session key: it completes, has stored nothing, and its success reaches no callback |
| `ApplyKeyExample.BothCanComplete` | core/authentication/applykey/auth_apply_key_process.c:729-775 | an honest run exists in which both devices complete by their own events, file the agreed key and the requester is called back with it |
| `ApplyKeyRuns.StepKeeps` | core/authentication/applykey/auth_apply_key_process.c:1134-1253 | every handler, whatever network, hichain, clock and callers do, keeps the one-device invariant (flags explained by history, unique starts, filed keys, queued results, callbacks, sent messages) |
| `ApplyKeyRuns.AtMostOneCallback` | core/authentication/applykey/auth_apply_key_process.c:343-427 | over any run an instance is called back at most once, has left the list when it was, and one that left without a callback never gets one, although results queue up, timers are never cancelled and a missing key deletes twice |
| `ApplyKeyRuns.DisconnectedIsNeverCalledBack` | core/authentication/applykey/auth_apply_key_process.c:1170-1182 | in every run the request whose instance a disconnect deletes is never called back, whatever follows |
| `ApplyKeyRuns.AtMostOneStarted` | core/authentication/applykey/auth_apply_key_process.c:135-160 | in every reachable state at most one instance of a business is in START |
| `ApplyKeyRuns.EveryStoredKeyIsNegotiated` | core/authentication/applykey/auth_apply_key_process.c:228-295 | every key in the store at any time is the full-length key hichain last returned for an instance whose account matched, under that instance's business and the user of the time |
| `ApplyKeyRuns.FinishFilesIff` | core/authentication/applykey/auth_apply_key_process.c:713-767 | a finish files the last returned key, and the server acks, exactly when the account matches, the key is full length and the slot name fits; a finish before any key stores and sends nothing |
| `ApplyKeyRuns.SuccessDeliversNegotiatedKey` | core/authentication/applykey/auth_apply_key_process.c:372-387 | the key handed to a success callback is full length and was filed in a slot of that business, and for hashes without underscores for that very business and user |
| `ApplyKeyRuns.RefusedRequestLeavesNothing` | core/authentication/applykey/auth_apply_key_process.c:1228-1253 | a refused request leaves list, count, store, results and callbacks as they were; the request message stays sent only if hichain itself refused |
| `ApplyKeyRuns.EverySiblingIsTold` | core/authentication/applykey/auth_apply_key_process.c:429-471 | a result is queued for a request id if and only if an instance of that business has it |
| `ApplyKeyAnswers.ServedIsTold` | core/authentication/applykey/auth_apply_key_process.c:372-427 | serving a queued failure of a listed request appends exactly one call, to its first instance and with that reason, if and only if the failure callback is registered; a success appends the stored key if and only if the success callback is registered and the slot is filled; the instance leaves the list and nothing else changes, but for a second deletion when the key is missing |
| `ApplyKeyAnswers.FirstServedDecides` | core/authentication/applykey/auth_apply_key_process.c:372-427 | in every run the first result served to an instance decides what it is told, exactly once, and takes it off the list; before that it is told nothing, and it leaves unserved only where a disconnect or a missing key drops an instance of its request |
| `ApplyKeyProgress.NobodyIsStranded` | core/authentication/applykey/auth_apply_key_process.c:343-515 | in every run, however ids repeat: the listed instances of a request are at most as many as its running timers and queued results, so with no timer running and no result queued the list is empty |
| `ApplyKeyProgress.FailureReachesAll` | core/authentication/applykey/auth_apply_key_process.c:429-515 | after a timer, an error, a refused message, an account mismatch or an unsendable ack names a listed request and the queued results are served: every instance of the business is gone if its id belongs to that business and was not created again, and, unless a disconnect or a missing key dropped it, one with both callbacks has been called back exactly once, with the reason of the first result served to it |
| `ApplyKeyProgress.NewInstanceTakesTheResult` | core/authentication/applykey/auth_apply_key_process.c:399-427 | why the id must not be created again: the new instance takes the result, and the one that failed stays listed, untold, with nothing queued |
| `ApplyKeyProgress.AcceptedIsHead` | core/authentication/applykey/auth_apply_key_process.c:548-580 | an accepted request is the new head of the list with its callbacks and nothing seen yet, runs a timer and has sent its message |
| `ApplyKeyEffects.GenReturns` | core/authentication/applykey/auth_apply_key_process.c:1228-1253 | a request returns the limit, the hash, the send or hichain's own code in this order of checks, and an accepted one has started exactly if no sibling has and the local hash is not the smaller one |
| `ApplyKeyEffects.DeviceIdDoes` | core/authentication/applykey/auth_apply_key_process.c:1048-1079 | the server side: at the limit the listed request of that id fails; else a new server instance is the head, has started exactly if it may, and a refusal queues its reason for it first and for all siblings behind it |
| `ApplyKeyEffects.LessIsLexicographic` | core/authentication/applykey/auth_apply_key_process.c:1006-1025 | the tie-break compares lexicographically: the smaller character at the first difference, or the proper prefix |
| `ApplyKeyEffects.SuccessMarksSiblings` | core/authentication/applykey/auth_apply_key_process.c:429-491 | a completed instance queues a success for every instance of its business, marks all three flags of each, and touches nobody else; an incomplete one does nothing |
| `ApplyKeyEffects.FailureMarksNobody` | core/authentication/applykey/auth_apply_key_process.c:429-504 | a failure queues its reason for the business and marks nothing |
| `ApplyKeyEffects.AuthDataTaken` | core/authentication/applykey/auth_apply_key_process.c:1081-1108 | data that hichain takes, or for no listed request, changes nothing |
| `ApplyKeyEffects.KeysGo` | core/authentication/applykey/auth_apply_key_manager.c:429-469 | after a deletion a lookup of that business and user finds nothing and every other one what it found before; after clearing none finds anything |
| `ApplyKeyEffects.KeyIsTaken` | core/authentication/applykey/auth_apply_key_process.c:643-663 | a session key is taken by the first instance of its request exactly if it has at most 32 bytes |
| `ApplyKeyNegoProps.CreateKeeps` | core/authentication/applykey/auth_apply_key_process.c:548-580 | creating an instance keeps the one-device invariant |
| `ApplyKeyNegoProps.RemoveKeeps` | core/authentication/applykey/auth_apply_key_process.c:343-370 | deleting the first instance of a request keeps it |
| `ApplyKeyNegoProps.BroadcastKeeps` | core/authentication/applykey/auth_apply_key_process.c:429-471 | telling all siblings keeps it, given that the business is rooted in an instance that completed by itself |
| `ApplyKeyNegoProps.HichainFinishedKeeps` | core/authentication/applykey/auth_apply_key_process.c:729-775 | the finish handler keeps it in both roles and on every error path |
| `ApplyKeyNegoProps.RecvCloseAckKeeps` | core/authentication/applykey/auth_apply_key_process.c:1110-1132 | the close-ack handler keeps it in both roles |
| `ApplyKeyNegoProps.HandleResultKeeps` | core/authentication/applykey/auth_apply_key_process.c:372-427 | serving a queued result calls back at most once and keeps it |
| `ApplyKeyService.NegoService.CountStarted` | core/authentication/applykey/auth_apply_key_process.c:135-160 | refines its step function on the abstract state: the list walk counts the started instances of a business |
| `ApplyKeyService.NegoService.FindByRequest` | core/authentication/applykey/auth_apply_key_process.c:162-193 | refines its step function on the abstract state: the list walk finds the first instance of a request |
| `ApplyKeyService.NegoService.FindByConnection` | core/authentication/applykey/auth_apply_key_process.c:195-226 | refines its step function on the abstract state: the list walk finds the first instance of a connection |
| `ApplyKeyService.NegoService.CreateInstance` | core/authentication/applykey/auth_apply_key_process.c:548-580 | refines its step function on the abstract state: refuses at the limit, else the new node is first and its timer runs |
| `ApplyKeyService.NegoService.DeleteInstance` | core/authentication/applykey/auth_apply_key_process.c:343-370 | refines its step function on the abstract state: the first node of the request goes, the rest keeps its order |
| `ApplyKeyService.NegoService.UpdateAllResults` | core/authentication/applykey/auth_apply_key_process.c:429-471 | refines its step function on the abstract state: one pass marks every sibling and queues one result for each, in list order |
| `ApplyKeyService.NegoService.GenSucceeded` | core/authentication/applykey/auth_apply_key_process.c:473-491 | refines its step function on the abstract state: tells the siblings only if all three events were seen |
| `ApplyKeyService.NegoService.GenFailed` | core/authentication/applykey/auth_apply_key_process.c:493-504 | refines its step function on the abstract state: tells every sibling the failure |
| `ApplyKeyService.NegoService.ServeTimer` | core/authentication/applykey/auth_apply_key_process.c:506-515 | refines its step function on the abstract state: a timer that fires fails its request, if it is still listed |
| `ApplyKeyService.NegoService.ServeResult` | core/authentication/applykey/auth_apply_key_process.c:372-427 | refines its step function on the abstract state: looks the instance up again, calls back and deletes |
| `ApplyKeyService.NegoService.StartHichain` | core/authentication/applykey/auth_apply_key_process.c:1006-1046 | refines its step function on the abstract state: starts only without a started sibling and if the tie-break allows |
| `ApplyKeyService.NegoService.GenerateKey` | core/authentication/applykey/auth_apply_key_process.c:1228-1253 | refines its step function on the abstract state: the whole request path with its rollbacks |
| `ApplyKeyService.NegoService.DeviceIdReceived` | core/authentication/applykey/auth_apply_key_process.c:1048-1079 | refines its step function on the abstract state: the server side of a request, with the failure broadcast |
| `ApplyKeyService.NegoService.AuthDataReceived` | core/authentication/applykey/auth_apply_key_process.c:1081-1108 | refines its step function on the abstract state: a hichain failure on data is broadcast |
| `ApplyKeyService.NegoService.CloseAckReceived` | core/authentication/applykey/auth_apply_key_process.c:1110-1132 | refines its step function on the abstract state: a client answers the ack, a server does not |
| `ApplyKeyService.NegoService.KeyReturnedByHichain` | core/authentication/applykey/auth_apply_key_process.c:643-663 | refines its step function on the abstract state: an overlong key is ignored, any other one replaces the last |
| `ApplyKeyService.NegoService.FinishedByHichain` | core/authentication/applykey/auth_apply_key_process.c:729-775 | refines its step function on the abstract state: account check, flag, filing, ack, completion, in this order |
| `ApplyKeyService.NegoService.ConnectionLost` | core/authentication/applykey/auth_apply_key_process.c:1170-1182 | refines its step function on the abstract state: finds by connection, deletes by request, tells nobody |
| `ApplyKeyStore.MapKeyInjective` | core/authentication/applykey/auth_apply_key_manager.c:190-195 | for underscore-free hashes two slot names are equal if and only if business and user are |
| `ApplyKeyStore.MapKeyCollides` | core/authentication/applykey/auth_apply_key_manager.c:190-195 | with underscores in the hashes two different businesses share a slot |
| `ApplyKeyStore.OperationsAreSeparate` | core/authentication/applykey/auth_apply_key_manager.c:395-452 | an insert is accepted exactly for a 32-byte key and a slot name below 100 characters, a delete exactly if a lookup finds something, each with the code of its refusal; a lookup sees exactly the insert or delete on its own slot and nothing of another business or user; a refused operation changes nothing |
| `ApplyKeyStore.MapKeyFields` | core/authentication/applykey/auth_apply_key_manager.c:190-195 | a slot name is the udid hash, the account hash, the user and the kind between three underscores, in this order |
| `ApplyKeyStore.DecimalReads` | core/authentication/applykey/auth_apply_key_manager.c:190-195 | the two numbers are printed as their decimal digits, with a minus sign if negative and no leading zero |
| `ApplyKeyStore.SaveThenRecover` | core/authentication/applykey/auth_apply_key_process.c:1260-1273 | saving any map and recovering it into an empty one gives exactly the entries with time <= now <= time + 15552000000 (180 days in milliseconds), each with its value |
| `ApplyKeyStore.ReplayStopsAtBroken` | core/authentication/applykey/auth_apply_key_manager.c:317-351 | a broken element keeps what was replayed before it and reports failure |
| `ApplyKeyStore.ApplyKeyManager.SaveAll` | core/authentication/applykey/auth_apply_key_manager.c:236-292 | the pack loop writes every entry exactly once |
| `ApplyKeyStore.ApplyKeyManager.InsertKey` | core/authentication/applykey/auth_apply_key_manager.c:395-427 | inserts or refuses, and saves the whole map after a success |
| `ApplyKeyStore.ApplyKeyManager.DeleteKey` | core/authentication/applykey/auth_apply_key_manager.c:429-452 | deletes or refuses, and saves the whole map after a success |
| `ApplyKeyStore.ApplyKeyManager.Clear` | core/authentication/applykey/auth_apply_key_manager.c:460-469 | empties map and file |
| `ApplyKeyStore.ApplyKeyManager.Recover` | core/authentication/applykey/auth_apply_key_manager.c:353-393 | replays the file once per process and drops a file that does not parse |
| `ApplyKeyStore.InsertRestartRecover` | core/authentication/applykey/auth_apply_key_process.c:1260-1273 | insert, restart, recover, look up: found exactly if the key has 32 bytes, the slot name fits and time <= now <= time + 15552000000 |
| `BrProxyRuns.DataIsAFifo` | br_proxy/br_proxy_server_manager.c:570-613 | in every run and for every (brMac, uuid, user): delivered followed by pending is exactly received, in order |
| `BrProxyRuns.ListsStayKeyed` | br_proxy/br_proxy_server_manager.c:718-820 | in every run: one proxy per (brMac, uuid, appIndex, userId), one session per (brMac, uuid, pid), a proxy behind every session, every counter equal to its list's length |
| `BrProxyRuns.CloseAllClosesAll` | br_proxy/br_proxy_server_manager.c:179-228 | after any run, closing everything leaves no session and no proxy and loses no pending data |
| `BrProxyRuns.DeliveriesGoToListeners` | br_proxy/br_proxy_server_manager.c:1690-1714 | in every run every step only appends deliveries, and only to sessions of the item's address that listen for data |
| `BrProxyRuns.StepKeeps` | br_proxy/br_proxy_server_manager.c:1503-2065 | every handler keeps keys, counters and issued channel ids |
| `BrProxyRuns.StepFifo` | br_proxy/br_proxy_server_manager.c:1716-1862 | every handler keeps the queue equation of every key |
| `BrProxyRuns.FailedReopenKeepsNewRequest` | br_proxy/br_proxy_server_manager.c:1286-1331 | the run that does not roll back: a caller opens, opens again and that fails; its session has the new request id, its proxy the old one, and no proxy has the new one |
| `BrProxyChannels.OpenDistinctIff` | br_proxy/br_proxy_server_manager.c:1421-1553 | an open gives two sessions one channel id if and only if a process in the background opens for the first time while its application's proxy is enabled with a channel id some session has |
| `BrProxyChannels.StepDistinctIff` | br_proxy/br_proxy_server_manager.c:1503-2065 | no other handler ever does |
| `BrProxyChannels.DistinctThroughoutIff` | br_proxy/br_proxy_server_manager.c:901-978 | channel ids tell sessions apart at every point of a run if and only if no open in it is such a one |
| `BrProxyChannels.ForegroundIdsDistinct` | br_proxy/br_proxy_server_manager.c:1286-1331 | in particular in every run whose opens all come from the foreground user |
| `BrProxyChannels.SecondProcessSharesId` | br_proxy/br_proxy_server_manager.c:1421-1487 | the failing run, for every address, caller and second process: open, success, the user leaves, the second process opens, and both sessions have channel id 1 |
| `BrProxyChannels.OpenLastIff` | br_proxy/br_proxy_server_manager.c:1421-1553 | an open leaves two addresses last connected if and only if it comes from the background, its proxy is new or not enabled, and another address is last connected |
| `BrProxyChannels.StepLastIff` | br_proxy/br_proxy_server_manager.c:1503-2065 | no other handler ever does |
| `BrProxyChannels.OneLastThroughoutIff` | br_proxy/br_proxy_server_manager.c:1063-1089 | all last-connected proxies are of one address at every point of a run if and only if no open in it is such a one |
| `BrProxyChannels.ForegroundOneLast` | br_proxy/br_proxy_server_manager.c:1063-1089 | in particular in every run whose opens all come from the foreground user |
| `BrProxyChannels.BackgroundMarksTwo` | br_proxy/br_proxy_server_manager.c:1421-1487 | the failing run: two opens from the background leave both addresses last connected |
| `BrProxyListeners.SetListenerExactly` | br_proxy/br_proxy_server_manager.c:1650-1688 | for every state, channel, kind and direction: accepted exactly for the owner of a known channel and one of the two kinds, with the code of each refusal; then the flag of that kind of the first session of the channel says what was asked and every other field, session and proxy is as before, data included unless reception is switched on |
| `BrProxyListeners.SwitchedOffGetsNothing` | br_proxy/br_proxy_server_manager.c:2039-2065 | in every run with distinct channel ids so far: after the owner switched data reception off, nothing is delivered to that channel id until it is switched on again, whatever happens in between |
| `BrProxyListeners.SwitchOffQuietIff` | br_proxy/br_proxy_server_manager.c:1650-1688 | switching off silences the channel id if and only if no other session that has it listens |
| `BrProxyEffects.ForegroundOpenDoes` | br_proxy/br_proxy_server_manager.c:1503-1553 | a foreground open that succeeds: the owner's proxy carries the caller's identity and the new request id, and so does the caller's session, or a new session is in front under the next channel id; nothing else changes |
| `BrProxyEffects.ForegroundOpenFails` | br_proxy/br_proxy_server_manager.c:1286-1331 | an open returns the identity error, the open error or success in this order |
| `BrProxyEffects.BackgroundOpenDoes` | br_proxy/br_proxy_server_manager.c:1421-1487 | an open from the background: an enabled proxy lends its request and channel id to the session, any other gets new ones and counts as last connected, and the proxy goes on virtually |
| `BrProxyEffects.OpenFailedDoes` | br_proxy/br_proxy_server_manager.c:1217-1255 | a failed channel: an enabled proxy goes on virtually, a recovering one stays, otherwise the session goes |
| `BrProxyEffects.OpenSucceededElse` | br_proxy/br_proxy_server_manager.c:1135-1191 | a success report without session or proxy does nothing, and for another user's proxy only marks it virtual |
| `BrProxyEffects.OpenSucceededForNobody` | br_proxy/br_proxy_server_manager.c:1135-1191 | a success report whose session's application has no proxy of the request marks the link last connected and enables and connects nothing |
| `BrProxyEffects.DisconnectedDoes` | br_proxy/br_proxy_server_manager.c:1914-1951 | a lost link only disconnects the first proxy of the link; an unpaired device empties both lists |
| `BrProxyEffects.ReconnectedDoes` | br_proxy/br_proxy_server_manager.c:681-716 | a link that is back connects that proxy and ends its virtual and recovery state |
| `BrProxyEffects.UserSwitchedDoes` | br_proxy/br_proxy_server_manager.c:344-372 | a user in front: the first last-connected proxy of that user is to be recovered, and nothing else changes |
| `BrProxyEffects.ClientDiedDoes` | br_proxy/br_proxy_server_manager.c:952-978 | a dead client loses its first session and nothing else changes |
| `BrProxyEffects.RevokedDoes` | br_proxy/br_proxy_server_manager.c:230-259 | a revoked permission closes the channel of the process's first session exactly as its owner would |
| `BrProxyEffects.UninstallDoes` | br_proxy/br_proxy_server_manager.c:2285-2334 | an uninstall takes exactly the application's sessions and keeps the order of the rest |
| `BrProxyEffects.PendingDoes` | br_proxy/br_proxy_server_manager.c:1716-1759 | item by item: what is pending for an address and a user is exactly the items of that address and user, in order, and the others are exactly the rest |
| `BrProxyEffects.DataGoesToFirstListener` | br_proxy/br_proxy_server_manager.c:1690-1714 | handed-over data, with all that was pending before it, goes to the first session of the link that listens |
| `BrProxyProps.CloseAllExactly` | br_proxy/br_proxy_server_manager.c:204-228 | for any list contents: proxies end empty; sessions end empty if and only if no stored channel id is the reserved one, else everything from the first such session stays |
| `BrProxyProps.CloseRemovesFirst` | br_proxy/br_proxy_server_manager.c:1593-1618 | closing the first session removes exactly it, whatever shares its channel id, or nothing if the id is the reserved one |
| `BrProxyProps.FailedOpenRollsBack` | br_proxy/br_proxy_server_manager.c:1286-1331 | a failed open leaves the proxies exactly as before, and the sessions exactly as before if and only if the caller had none for the address or its session already had the new request id |
| `BrProxyProps.SessionUndone` | br_proxy/br_proxy_server_manager.c:901-978 | deleting the fresh channel id undoes adding the session |
| `BrProxyProps.ClosedIsDisabled` | br_proxy/br_proxy_server_manager.c:1593-1618 | a close succeeds exactly for a stored channel id and its owner's token or an inner call, with the code of each refusal; then the first session of the id goes, the first proxy of its request is switched off, and nothing else changes |
| `BrProxyProps.EnableDrains` | br_proxy/br_proxy_server_manager.c:2039-2065 | enabling DATA_RECEIVE succeeds exactly for the owner of a known channel and then nothing is pending for the current user |
| `BrProxyProps.OpenedIsConnected` | br_proxy/br_proxy_server_manager.c:1135-1191 | a successful open leaves the proxy enabled, connected and last connected with its session's channel id, and no proxy of another address or request last connected |
| `BrProxyProps.ConnectKeeps` | br_proxy/br_proxy_server_manager.c:1286-1331 | connecting keeps keys and counters on every path |
| `BrProxyProps.OpenInBackgroundKeeps` | br_proxy/br_proxy_server_manager.c:1421-1487 | so does the open of a background user |
| `BrProxyProps.UninstallKeeps` | br_proxy/br_proxy_server_manager.c:2285-2334 | so does an uninstall |
| `BrProxyProps.DrainKeepsFifo` | br_proxy/br_proxy_server_manager.c:1809-1822 | draining one key keeps the queue equation of every key |
| `BrProxyProps.DeliveryNeedsRunningApp` | br_proxy/br_proxy_server_manager.c:1824-1912 | valid data always joins the queue, and is handed over at once if and only if the application runs, the running process has a session for the link and some session listens |
| `BrProxyService.Server.WalkSessions` | br_proxy/br_proxy_server_manager.c:850-899 | refines its step function on the abstract state: first-match walk over the sessions |
| `BrProxyService.Server.WalkProxies` | br_proxy/br_proxy_server_manager.c:615-642 | refines its step function on the abstract state: first-match walk over the proxies |
| `BrProxyService.Server.GetChannelInfo` | br_proxy/br_proxy_server_manager.c:1015-1061 | refines its step function on the abstract state: by channel id, else by request id, else nothing |
| `BrProxyService.Server.RemoveSession` | br_proxy/br_proxy_server_manager.c:952-978 | refines its step function on the abstract state: the first match goes and the counter follows |
| `BrProxyService.Server.SetVirtual` | br_proxy/br_proxy_server_manager.c:1193-1215 | refines its step function on the abstract state: marks the proxy virtual |
| `BrProxyService.Server.UpdateConnectState` | br_proxy/br_proxy_server_manager.c:681-716 | refines its step function on the abstract state: connected or disconnected |
| `BrProxyService.Server.Disable` | br_proxy/br_proxy_server_manager.c:822-848 | refines its step function on the abstract state: the proxy of a request is disabled |
| `BrProxyService.Server.AddOrRefreshProxy` | br_proxy/br_proxy_server_manager.c:718-820 | refines its step function on the abstract state: refresh the owner's proxy or put a new one first |
| `BrProxyService.Server.AddOrReopenSession` | br_proxy/br_proxy_server_manager.c:901-950 | refines its step function on the abstract state: reopen the caller's session or put a new one first |
| `BrProxyService.Server.UpdateRequestId` | br_proxy/br_proxy_server_manager.c:1257-1284 | refines its step function on the abstract state: new request id, old one returned |
| `BrProxyService.Server.ConnectPeerDevice` | br_proxy/br_proxy_server_manager.c:1286-1331 | refines its step function on the abstract state: connect with both rollbacks |
| `BrProxyService.Server.OpenForBackgroundUser` | br_proxy/br_proxy_server_manager.c:1421-1487 | refines its step function on the abstract state: the open of a user that is not in front |
| `BrProxyService.Server.OpenProxy` | br_proxy/br_proxy_server_manager.c:1503-1553 | refines its step function on the abstract state: the whole open |
| `BrProxyService.Server.MarkLastConnect` | br_proxy/br_proxy_server_manager.c:1063-1089 | refines its step function on the abstract state: one pass over all proxies |
| `BrProxyService.Server.OnOpenSuccess` | br_proxy/br_proxy_server_manager.c:1135-1191 | refines its step function on the abstract state: the success callback |
| `BrProxyService.Server.OnOpenFail` | br_proxy/br_proxy_server_manager.c:1217-1255 | refines its step function on the abstract state: the failure callback |
| `BrProxyService.Server.CloseProxy` | br_proxy/br_proxy_server_manager.c:1593-1618 | refines its step function on the abstract state: token check, disable, delete |
| `BrProxyService.Server.CloseAllConnect` | br_proxy/br_proxy_server_manager.c:179-228 | refines its step function on the abstract state: the counted close loop and the proxy loop |
| `BrProxyService.Server.UninstallApp` | br_proxy/br_proxy_server_manager.c:2285-2334 | refines its step function on the abstract state: the deleting walk |
| `BrProxyService.Server.RevokePermission` | br_proxy/br_proxy_server_manager.c:230-259 | refines its step function on the abstract state: closes the first session of the process |
| `BrProxyService.Server.OnDisconnected` | br_proxy/br_proxy_server_manager.c:1914-1951 | refines its step function on the abstract state: closes everything when unpaired, then disconnects the proxy |
| `BrProxyService.Server.OnUserSwitched` | br_proxy/br_proxy_server_manager.c:344-372 | refines its step function on the abstract state: marks the user's last connected proxy for recovery |
| `BrProxyService.Server.TakeData` | br_proxy/br_proxy_server_manager.c:1716-1759 | takes the oldest item of a key and leaves the other keys alone |
| `BrProxyService.Server.DrainTo` | br_proxy/br_proxy_server_manager.c:1809-1822 | refines its step function on the abstract state: the drain loop ends and hands over everything pending, oldest first |
| `BrProxyService.Server.OnDataReceived` | br_proxy/br_proxy_server_manager.c:1824-1912 | refines its step function on the abstract state: queue, and drain when the application runs and listens |
| `BrProxyService.Server.SetListenerState` | br_proxy/br_proxy_server_manager.c:2039-2065 | refines its step function on the abstract state: the listener flags and the drain behind them |
| `Looper.PostKeepsOrder` | core/common/message_handler/message_handler.c:298-349 | posting keeps the queue sorted and puts a message behind all that are due no later, so equal times are served in posting order |
| `Looper.WithoutKeepsOrder` | core/common/message_handler/message_handler.c:388-416 | removing keeps it sorted |
| `Looper.MessageQueue.PostMessageAtTime` | core/common/message_handler/message_handler.c:298-349 | the insertion walk is that insertion and keeps the size |
| `Looper.MessageQueue.RemoveMessages` | core/common/message_handler/message_handler.c:388-416 | the removing walk drops exactly the matching messages |
| `Looper.MessageQueue.TakeDue` | core/common/message_handler/message_handler.c:93-150 | one turn serves the head exactly if it is due, and nothing left is due earlier |
| `ConnRequests.ResultsPlusTimeouts` | core/authentication/src/auth_connection.c:302-451 | from any state with nothing of the id queued or listed, after a connect whose command is prompt, and at every point until the id is used again: results had since plus timeouts armed equal what the connect is owed (one on Wi-Fi, USB and session-key links), and while it is listed its timeout is armed and it has had no result; other requests may reuse ids and be as late as they like |
| `ConnRequests.ResultsBalance` | core/authentication/src/auth_connection.c:302-451 | over whole runs, however often an id comes round again once nothing of it is left: all its results plus the timeouts armed for it equal what its connects are owed together, a sum that the inputs alone decide |
| `ConnRequests.AnsweredIsIdle` | core/authentication/src/auth_connection.c:302-451 | as soon as a connect has had what it is owed, nothing of its id is queued or listed, so the id is free again |
| `ConnRequests.UnusedIsIdle` | core/authentication/src/auth_connection.c:804-850 | nothing of an id is queued or listed in a run that never connected it |
| `ConnRequests.EveryConnectIsAnsweredOnce` | core/authentication/src/auth_connection.c:804-850 | under the same condition on the request alone: once the looper has caught up, which takes at most two turns per event, an accepted Wi-Fi, USB or session-key connect has had exactly one result, however many results came late or twice, and its id is free again |
| `ConnAnswers.EveryResultIsExplained` | core/authentication/src/auth_connection.c:302-451 | in every run: a result has a connection if and only if its code is success; a success comes from a socket that came up, by a report or as a reused one, and was listed for that request, under the type of its path (session key, else USB if listed on USB, else Wi-Fi), or is the immediate one of a session link; a timeout code from a served timeout of that request; a failure code from a command without a socket or a listed socket that went down |
| `ConnAnswers.TurnTells` | core/authentication/src/auth_connection.c:302-451 | the other way round, in any state: a served timeout and a command without a socket are told at once with their codes, a command with one lists the request behind all others, and a result is told with its own code to the first request listed with its socket, or to nobody |
| `ConnRequests.SuccessNamesItsSocket` | core/authentication/src/auth_connection.c:412-451 | in every run whatever, a success carries a socket its own request was listed with |
| `ConnRequests.ConnectKeeps` | core/authentication/src/auth_connection.c:804-850 | a connect keeps every other request where it stands, whatever its own id and times |
| `ConnRequests.ConnectStarts` | core/authentication/src/auth_connection.c:804-850 | a connect with a prompt command, of an id of which nothing is left, starts where its link says: armed with the command in front, armed, or answered at once |
| `ConnRequests.CommandKeeps` | core/authentication/src/auth_connection.c:346-409 | so does any served command, with and without a socket to reuse |
| `ConnRequests.ResultedKeeps` | core/authentication/src/auth_connection.c:412-451 | so does any result, also one for no request |
| `ConnRequests.TimedOutKeeps` | core/authentication/src/auth_connection.c:302-320 | so does any timeout; a prompt request's own is never served in front of its command |
| `ConnLimits.PromptCommandIffOneResult` | core/authentication/src/auth_connection.c:804-850 | after every run that leaves nothing of the id, and for every continuation with any connects of other ids: a connect is told at most one result if and only if its command was posted less than the timeout after the timeout was armed |
| `ConnLimits.LateCommandAnsweredTwice` | core/authentication/src/auth_connection.c:302-409 | the failing half for every such state: turns of the looper at one clock reading that report to the request twice |
| `ConnLimits.ReusedIdIsStranded` | core/authentication/src/auth_connection.c:412-451 | why nothing of the id may be left: with a second connect of a listed id, the first one's result takes both timeouts back and the second stays listed with no timeout |
| `ConnLimits.RunKeepsOrder` | core/common/message_handler/message_handler.c:298-416 | the queue is sorted by due time in every run |
| `ConnService.ConnManager.FindConnRequestByFd` | core/authentication/src/auth_connection.c:154-163 | refines its step function on the abstract state: first request of a socket |
| `ConnService.ConnManager.FindConnRequestByRequestId` | core/authentication/src/auth_connection.c:165-174 | refines its step function on the abstract state: first request of an id |
| `ConnService.ConnManager.ConnectTimeout` | core/authentication/src/auth_connection.c:302-320 | refines its step function on the abstract state: delete and report |
| `ConnService.ConnManager.ConnectCmd` | core/authentication/src/auth_connection.c:346-409 | refines its step function on the abstract state: refuse, or list and perhaps post the result |
| `ConnService.ConnManager.ConnectResult` | core/authentication/src/auth_connection.c:412-451 | refines its step function on the abstract state: disarm, report, delete |
| `ConnService.ConnManager.ConnectAuthDevice` | core/authentication/src/auth_connection.c:804-850 | refines its step function on the abstract state: arm, then post, or disarm again |
| `ConnService.ConnManager.LoopOnce` | core/authentication/src/auth_connection.c:302-451 | refines its step function on the abstract state: one served event |
| `AuthDataCodec.PackAuthData` | core/authentication/src/auth_connection.c:222-249 | null checks, size check on the wrapped size, head, copy into the wrapped rest; in memory that goes on behind the buffer, nothing beyond the stated reach is touched |
| `AuthDataCodec.PackSucceedsIff` | core/authentication/src/auth_connection.c:217-249 | packing succeeds exactly when head and data fit and a byte is left behind the head, or the sum wrapped and the buffer is shorter than a head; for lengths below 2^32 - 24 only the first |
| `AuthDataCodec.PackStaysInBufferIff` | core/authentication/src/auth_connection.c:217-249 | the size check keeps packing inside the buffer, for every size of it, if and only if the announced length is below 2^32 - 24 |
| `AuthDataCodec.WrapIsAccepted` | core/authentication/src/auth_connection.c:229-244 | the smallest length for which it does not, with a buffer one byte short of a head |
| `AuthDataCodec.UnpackAuthData` | core/authentication/src/auth_connection.c:251-274 | accepts exactly the buffers that hold the head and the announced data, and then returns that head and the place of that data |
| `AuthDataCodec.BodyFitsIff` | core/authentication/src/auth_connection.c:268-272 | the wrapped size check is the unwrapped one |
| `AuthDataCodec.UnpackInvertsPack` | core/authentication/src/auth_connection.c:222-274 | what was packed is what is unpacked, whatever follows it |
| `AuthDataCodec.PackInvertsUnpack` | core/authentication/src/auth_connection.c:222-274 | an accepted buffer starts with the packing of what it unpacks to |
| `AuthDataCodec.DecodeInvertsEncode` | core/authentication/src/auth_connection.c:232-267 | every head survives the little-endian words, negative fields included |
| `AuthDataCodec.EncodeInvertsDecode` | core/authentication/src/auth_connection.c:232-267 | every 24 bytes are the encoding of the head they decode to |
| `AuthDataCodec.ConnIdRoundTrip` | core/authentication/src/auth_connection.c:77-133 | type and socket come back for all int32 pairs, negatives included |
| `AuthDataCodec.ConnIdFromHalves` | core/authentication/src/auth_connection.c:77-133 | every 64-bit id is the id of its halves |
| `AuthDataCodec.UpdateFdIsRegenerate` | core/authentication/src/auth_connection.c:128-133 | changing the socket is generating the id afresh |
| `AuthDataCodec.HeadLayout` | core/authentication/src/auth_connection.c:222-249 | each of the 24 bytes of a head: type, module, sequence number, flag and length in this order, lowest byte first, two's complement |
| `AuthDataCodec.ConnIdLayout` | core/authentication/src/auth_connection.c:77-83 | the id in numbers: the type as uint32 times 2^32 plus the socket as uint32 |
| `AuthSeq.SeqLayout` | core/authentication/src/auth_common.c:233-270 | every value ever returned is the latest stamp above the masked counter and side |
| `AuthSeq.SeqIsInt64` | core/authentication/src/auth_common.c:252-270 | as an int64 it is the stamp times 2^24 plus the low part, less 2^64 if the top bit is set |
| `AuthSeq.CRemMeans` | core/authentication/src/auth_connection.c:637 | the receiver's remainder by two is zero for an even number and a unit with the sign of an odd one |
| `AuthSeq.SeqEqualIff` | core/authentication/src/auth_common.c:252-270 | two calls of a run return the same value if and only if place in the epoch, side and stamp agree |
| `AuthSeq.SeqDistinctInEpoch` | core/authentication/src/auth_common.c:252-270 | within an epoch of 2^23 calls no value repeats, including the masked wrap |
| `AuthSeq.SideRecovered` | core/authentication/src/auth_connection.c:637 | the receiver's remainder test recovers the sender's side, also for negative values |
| `AuthSeq.StampAfter` | core/authentication/src/auth_common.c:233-250 | the low 40 bits of the unique id are the latest hash and time stamp and nothing older |
| `AuthSeq.AuthIdLayout` | core/authentication/src/auth_common.c:291-309 | every auth id is a left-over bit, the stamp and the place in the epoch counted from one; none is zero |
| `AuthSeq.AuthIdEqualIff` | core/authentication/src/auth_common.c:291-309 | two calls of a run return the same id if and only if place, stamp and left-over bit agree |
| `AuthSeq.AuthIdTopBit` | core/authentication/src/auth_common.c:272-309 | bits 7 to 30 are the hash and time of the epoch in every epoch whose refresh succeeded, the first included; bit 31 is clear in the first epoch and later the low bit of the previous time stamp when both refreshes succeeded |
| `AuthSeq.SeqSource.UpdateUniqueId` | core/authentication/src/auth_common.c:233-250 | the byte loop absorbs four hash bytes and the time stamp, or changes nothing |
| `AuthSeq.SeqSource.GenSeq` | core/authentication/src/auth_common.c:252-270 | reset, refresh, step and mask |
| `AuthSeq.SeqSource.UpdateAuthIdUniqueId` | core/authentication/src/auth_common.c:272-289 | the byte loop absorbs two hash bytes and the time stamp, or changes nothing |
| `AuthSeq.SeqSource.GenAuthIdSeq` | core/authentication/src/auth_common.c:291-309 | reset, refresh, step and mask on 32 bits |
| `SendQueue.SendsInOrder` | br_proxy/br_proxy_module.c:375-454 | at every rest point of every run: what left the list is exactly the earlier enqueued tasks, each once, in order; starts equal completions plus at most one in flight; nothing waits unless something is in flight |
| `SendQueue.CompletionsDrain` | br_proxy/br_proxy_module.c:466-498 | one completion per waiting or running task settles everything: the queue never stalls |
| `SendQueue.StepDecides` | br_proxy/br_proxy_module.c:404-454 | in every step a task that leaves the list is rejected exactly if no work could be created for it |
| `SendQueue.ProcessKeeps` | br_proxy/br_proxy_module.c:404-454 | the processing loop keeps the order, also through rejected tasks |
| `SendQueue.TaskQueue.ProcessTaskQueue` | br_proxy/br_proxy_module.c:404-454 | the loop on the linked list refines the processing function and keeps the list well formed |
| `SendQueue.TaskQueue.SendDataAsync` | br_proxy/br_proxy_module.c:584-601 | the new cell goes behind the tail and the loop runs |
| `SendQueue.TaskQueue.AsyncWorkComplete` | br_proxy/br_proxy_module.c:466-498 | the task is settled and the loop runs |
| `SendQueue.TaskQueue.PopHead` | br_proxy/br_proxy_module.c:408-422 | unlinks the first cell and clears the tail with the last one |
| `SendQueue.TaskQueue.Append` | br_proxy/br_proxy_module.c:584-599 | links a cell behind the tail |
| `AclSlots.AgreementIff` | core/authentication/src/auth_deviceprofile.cpp:1124-1137 | every lookup of the class, in every profile list, reads what was written if and only if the udids differ, the two ends are indistinguishable to the class, or no profile of the class can match |
| `AclSlots.SlotAgreement` | core/authentication/src/auth_deviceprofile.cpp:1255-1299 | for distinct udids, any profile list, both orientations and both roles: a lookup of the class that was written finds the same profile as before and reads the key id and time just written, unless expiry replaces the key id |
| `AclSlots.CompareMeans` | core/authentication/src/auth_deviceprofile.cpp:968-1075 | a comparison holds exactly if the profile is of the kind, its accesser is alike the end that stands for it and its accessee alike the other one (udid and user, and account or token as the kind asks), and for one account neither account is the anonymous one; in both orientations |
| `AclSlots.SameTokenMeans` | core/authentication/src/auth_deviceprofile.cpp:960-966 | token ids count as equal exactly if they differ by a multiple of 2^32 |
| `AclSlots.OwnProfileIsFound` | core/authentication/src/auth_deviceprofile.cpp:1124-1299 | a list that holds the profile made of the ACL's own two ends, in either orientation: a lookup succeeds and an update matches that profile and, for two devices, writes exactly the slot of the local end (the source on the server, the sink on the client) |
| `AclSlots.LookupClears` | core/authentication/src/auth_deviceprofile.cpp:1139-1190 | a lookup succeeds exactly if some profile matches, and changes the list only when the key is no longer usable: both key ids of that profile become -1 and nothing else changes |
| `AclSlots.SwappedCompare` | core/authentication/src/auth_deviceprofile.cpp:968-1075 | the swapped comparison is the same-side comparison of the swapped ACL |
| `AclSlots.OtherEndAgrees` | core/authentication/src/auth_deviceprofile.cpp:1155-1299 | describing the pair from the other end in the other role changes nothing written, found or read |
| `AclSlots.UpdateFrame` | core/authentication/src/auth_deviceprofile.cpp:1255-1299 | an update touches one slot of matching profiles and nothing else |
| `AclSlots.ProfileStore.UpdateDpAcl` | core/authentication/src/auth_deviceprofile.cpp:1255-1299 | the update loop writes every matching profile and reports empty, match or no match |
| `AclSlots.ProfileStore.GetAccessUkId` | core/authentication/src/auth_deviceprofile.cpp:1124-1190 | the lookup loop stops at the first match, reads the local slot and clears both key ids when expired |
| `AccountAuth.ListedIffArmed` | core/authentication/accountgroup/auth_account_group_manager.c:185-246 | in every run in which hichain does not report the timeout's own code for this request: it is listed if and only if exactly one timeout is armed for it |
| `AccountAuth.PairedIff` | core/authentication/accountgroup/auth_account_group_manager.c:233-319 | that holds of all requests over all runs if and only if an error callback is registered and hichain never reports the timeout's own code |
| `AccountAuth.ListedIsDueInTime` | core/authentication/accountgroup/auth_account_group_manager.c:185-207 | in such a run a listed request has a message due exactly ten seconds after it began |
| `AccountAuth.EveryReportIsTold` | core/authentication/accountgroup/auth_account_group_manager.c:283-319 | over every run the callbacks, but for timeouts, are exactly the finishes with data and the errors that have a callback, each once and in order |
| `AccountAuth.StepTells` | core/authentication/accountgroup/auth_account_group_manager.c:233-319 | an input tells what it reports, or the timeout it serves to a listed request, and nothing else; without data or callback nothing changes at all |
| `AccountAuth.NoTimeoutAfterTerminal` | core/authentication/accountgroup/auth_account_group_manager.c:283-319 | for any table, codes and armed messages: once a request is off the list no timeout fires for it until it begins again |
| `AccountAuth.TerminalDisarms` | core/authentication/accountgroup/auth_account_group_manager.c:283-319 | in every run a terminal callback or a refusal takes the request off the list and leaves nothing armed for it |
| `AccountAuth.NeverEarlyIff` | core/authentication/accountgroup/auth_account_group_manager.c:233-319 | no run reports a timeout within the ten seconds after the request last began if and only if no error callback is registered or hichain never reports the timeout's own code |
| `AccountAuth.ReportedThenBegunFiresEarly` | core/authentication/accountgroup/auth_account_group_manager.c:233-319 | the failing run, for every id and every second begin up to ten seconds after the first: begin, the timeout's own code, begin again, and the first message ends the second attempt |
| `AccountAuth.CleanNeverEarly` | core/authentication/accountgroup/auth_account_group_manager.c:233-319 | for one request: without that code for it, whatever is reported for others, no run reports its timeout early |
| `AccountAuth.EarlyTimeoutIff` | core/authentication/accountgroup/auth_account_group_manager.c:233-246 | in every run: turns of the looper can report a timeout within the ten seconds after the request last began if and only if a message due that early is still armed for it |
| `AccountAuth.BeginsStaleIff` | core/authentication/accountgroup/auth_account_group_manager.c:185-207 | a request begins with such a message exactly when one from an earlier begin at an earlier clock is still armed |
| `AccountAuth.OnlyTimeoutCodesLeaveStale` | core/authentication/accountgroup/auth_account_group_manager.c:300-319 | only the timeout's own code, reported by hichain for that very request, can leave one behind |
| `AccountAuth.AccountAuthManager.CreateInstance` | core/authentication/accountgroup/auth_account_group_manager.c:185-207 | refines its step function on the abstract state: list and arm once |
| `AccountAuth.AccountAuthManager.DeleteInstance` | core/authentication/accountgroup/auth_account_group_manager.c:209-231 | refines its step function on the abstract state: the first node goes |
| `AccountAuth.AccountAuthManager.OnFinished` | core/authentication/accountgroup/auth_account_group_manager.c:283-298 | refines its step function on the abstract state: delete, disarm, report |
| `AccountAuth.AccountAuthManager.OnError` | core/authentication/accountgroup/auth_account_group_manager.c:300-319 | refines its step function on the abstract state: delete, disarm unless it is the timeout, report |
| `AccountAuth.AccountAuthManager.LoopOnce` | core/authentication/accountgroup/auth_account_group_manager.c:233-246 | refines its step function on the abstract state: a timeout reports only for a listed request |
| `OpenRendezvous.OpenerReturnsPosted` | br_proxy/br_proxy_module.c:50-105 | in every interleaving an opener that finishes, and whose wait did not come back by itself, returns the channel id and result of one call made for its session, and with one call exactly that call's |
| `OpenRendezvous.WokenReturnsPostedIff` | br_proxy/br_proxy_session_manager.c:184-231 | a woken opener, spurious wake-ups included, returns a posted pair if and only if some call for its session has run its update; after a signal it always does |
| `OpenRendezvous.SpuriousReturnsNothing` | br_proxy/br_proxy_session_manager.c:184-231 | a wait that comes back by itself before any call returns channel 0 as a success |
| `OpenRendezvous.NoLostWakeUp` | br_proxy/br_proxy_session_manager.c:184-263 | an opener is never blocked once a call for its session has signalled, waiting after the signal does not block, and a woken opener always gets its result |
| `OpenAnswers.CallIsReturned` | br_proxy/br_proxy_session_manager.c:103-263 | in every reachable state: an opener ready to wait and one call for its session, in either order, end with the opener returning that call's channel id and result, its node gone and nobody else touched |
| `OpenAnswers.CallArrives` | br_proxy/br_proxy_session_manager.c:103-263 | a call leaves its pair with the flag up at the node of its session, wakes a blocked opener and moves no other |
| `OpenAnswers.FailureEnds` | br_proxy/br_proxy_module.c:50-105 | a new session is opening with an empty node; a refused opening and a wait that runs out fail the opener; completing takes its node away |
| `OpenAnswers.GoneIsNotFound` | br_proxy/br_proxy_session_manager.c:103-126 | a call for a session that is gone changes nothing but its own record |
| `OpenRendezvous.StepKeeps` | br_proxy/br_proxy_session_manager.c:103-263 | every locked section of every thread keeps the rendezvous invariant |
| `OpenRendezvous.SessionIdsDistinct` | br_proxy/br_proxy_session_manager.c:29-44 | session ids are positive int32 values and 2^31 - 2 in a row are all different |
| `OpenRendezvous.SessionManager.GetSessionId` | br_proxy/br_proxy_session_manager.c:29-44 | the wrapping counter |
| `OpenRendezvous.SessionManager.UpdateListBySessionId` | br_proxy/br_proxy_session_manager.c:103-126 | writes the first node of the session and reports whether there is one |
| `OpenRendezvous.SessionManager.BrProxyPostCond` | br_proxy/br_proxy_session_manager.c:233-263 | raises the flag of the first node and reports whether there is one |
| `OpenRendezvous.SessionManager.AddSessionToList` | br_proxy/br_proxy_session_manager.c:70-101 | the list of the begin step: every later walk of the session finds the fresh node, flag down, and sessions stay unique |
| `OpenRendezvous.SessionManager.DeleteSessionById` | br_proxy/br_proxy_session_manager.c:155-182 | the list of the completing step: no node of the session is left, and the counter follows |

## Left out

- AuthDataCodec.PackAuthData: when the copy fails, says only that the head is in place and nothing behind the buffer changed; what the failed copy leaves in the rest of the buffer is the library's business, and so is any upper limit of its own on the room it accepts.
- ConnRequests.ResultsPlusTimeouts: asks that nothing of the request's own id is left and its own command is prompt; covers Wi-Fi, USB, session-key, session and unknown links; BR, BLE, SLE and P2P results come straight from the connection library with no request to guard them, so one result is not promised there.
- Channel structures, their send and close callbacks, retry counts, stored proxy information, application start-up and the client notifications of the BR proxy: recorded nowhere in the lists the results speak about.
- Overflow of the int32 channel-id counter and of list counters.
- The JSON forms, hex conversion, hashing, encryption, IPC, N-API and Taihe glue, permission checks, logging and event reports: foreign calls or formats behind the parameters above.
- The not-trusted cache and the other queries of the device-profile adapter: easy members beside the slot agreement.
- Enum conversions, error-code tables, initialisation and teardown.
