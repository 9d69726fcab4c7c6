# immurok daemon: a verified model

This project models the security core of the immurok fingerprint daemon and its client libraries, and proves what they
promise. A fingerprint device is reached over BLE by one worker task. Request handlers for PAM, for wrapped agent commands,
for fingerprint-gated commands and for pairing race with that worker through shared flags, oneshot channels and two
`Notify` permits. Around this sit the smaller cores: unpairing one of two host slots, the key mirror on disk, chunked key
transfer, the enrollment driver, the wire codecs, the managed block in `~/.ssh/config` and the log tail.

The modules, from the core outwards:

- **Link**, **Worker**: the worker's shared state. `Link.Route` is one notification's effect, branch by branch;
  `Worker.BleState` is the object itself, with the wait loops of commands, gates and authentications. A wait loop takes the
  choices `select!` makes as a sequence, so every interleaving of results, notifications, cancels and deadlines is a
  possible argument.
- **Coordinator**: the shared slot, pre-auth window, lock suppression, gate flag and pairing progress.
- **Daemon**: worker and handlers as one step machine. A run is any sequence of actions; an action that is not possible at
  the time changes nothing. `on_fp_match` and the lock request are split into their separate steps, so other tasks
  interleave with them. The machine keeps an append-only log of what happened.
  **DaemonHistory** reads facts off a log, **DaemonApprovals**, **DaemonLedger**, **DaemonWaits**, **DaemonSlot** and
  **DaemonPairing** hold the invariants, **DaemonTheorems** what follows from them for every run, **DaemonRuns**,
  **DaemonCancels** and **DaemonDialogs** what a reached state can still lead to, **DaemonAnswers** and **DaemonProgress** what
  it must be able to lead to: an OK for whom the finger was meant, and an end for everyone.
- **Pairing**, **SlotClear**, **KeyMirror**, **ChunkTransfer**, **Enroll**, **FpStatus**, **LogRing**, **SshConfig**: the protocols.
- **KeyReaders**, **KeyFormats**, **SshFraming**, **KeyEntries**, **OtpFields**, **Base32**, **Wire**: the codecs.

HMAC verification is a bit that comes with each frame (whether it is genuine under the stored pairing), the curve's public
key derivation and the pairing secret are function parameters, time is a natural number of milliseconds.

## Where the code falls short of a promise

Each of these is a lemma here, with the exact condition under which it happens.

- The gate flag is checked before a cancel is notified, but it stays up until the worker has left the gate. In every
  reachable state a checked cancel can be left stored, and kill the gate of a request that has not even arrived, if and only
  if a gate is in force (`DaemonCancels.GateCancelStrands`; a complete run in `DaemonRuns.LateCancelKillsNextGate`).
- The handlers of gated commands notify without checking the flag, which its own comment rules out: their cancel can kill a
  later gate if and only if their request still races (`DaemonCancels.HandlerCancelStrands`).
- `auth_dialog_cancel` has no flag at all: the cancel of one request can deny another's authentication, one not yet arrived
  included, if and only if the cancelled request still races, wherever its own authentication is
  (`DaemonCancels.DialogCancelReachesOthers`; a complete run in `DaemonRuns.DismissalDeniesNextRequest`). It can stop its own
  authentication if and only if that is still in flight (`DaemonDialogs.DialogCancelReachesItself`).
- A decided PAM handler clears whatever sender is in the slot. If a touch has approved it and another request has claimed
  the slot since, that other request is denied (`DaemonSlot.WhomClearingDenies`, `DaemonSlot.FinishedHandlerDeniesAnother`).
- Claiming a pairing resets its progress to idle, which is what an unclaimed one shows: a second PAIR:START is refused if and
  only if the device has already asked for its button (`DaemonPairing.SecondStartIsRefused`), and before that both are
  queued (`DaemonPairing.TwoStartsAreQueued`).
- Naming one's own slot as the other host's, while the device presents the other slot, ends with the host paired and its
  slot gone (`SlotClear.GhostOnlyByNamingOwnSlot`).
- CLEARED for the other host's slot is reported on any first answer that begins with 0x00: it can be relied upon if and only
  if the link makes up no success (`SlotClear.OtherClearedMeansErased`, the failing input in `SlotClear.StrayFrameReportsClear`).
- A sync cut off after the SSH file was saved, or one that skipped an entry, leaves a digest that hits later on
  (`KeyMirror.CutOffSyncGoesStale`, `KeyMirror.SkippedReadSticks`); `KeyMirror.Sound`, a condition on the faults, the hits and
  the lines, holds if and only if the sync leaves every digest backed (`KeyMirror.SoundIffBacked`).
- An OpenSSH key is refused when its scalar's minimal mpint is shorter than 32 bytes, one key in 512
  (`KeyReaders.OpenSshReadsBack`).
- Disabling the SSH agent block appends a newline to a file without a complete block if and only if the file mentions the
  sentinel (`SshConfig.DisableWithoutBlock`; both kinds of such a file in `SshConfig.MentionGrows`).
- Reading a key entry never ends if and only if, from some request on, the device answers with nothing but empty chunks of an
  entry longer than what has been read (`ChunkTransfer.EndlessIffStarved`).
- Names with a NUL character come back cut at it (`OtpFields.FieldReadsBack`).

Where the documentation says a stray gate cancel can never reach a later gate, the model follows the code.

## Model

| member | source | states |
|---|---|---|
| Link.RouteKeepsCoherent | crates/immurok-daemon/src/ble.rs:887-1081 | whatever frame arrives, each pending flag stays up exactly while its sender is held, gate and authentication stay exclusive and fewer than three mismatches are on the count while either is open |
| Link.MatchNeedsGenuineIdle | crates/immurok-daemon/src/ble.rs:1085-1121 | a match reaches the coordinator if and only if it is an 11-byte 0x21 frame whose HMAC verified and no gate, authentication or pairing gate was open; it changes no link state |
| Link.EffectMeans | crates/immurok-daemon/src/ble.rs:887-1065 | by the bytes of the frame and the waits open, exactly when a lock request, enrollment news with their three bytes in order, a pairing stage, a verified gate or a counted mismatch with the attempts left is passed on |
| Link.AsyncNeverResolves | crates/immurok-daemon/src/ble.rs:905-998 | none of the six asynchronous frame shapes, any 0x34 frame included, resolves a pending command, gate or authentication |
| Link.RouteAllKeepsPairing | crates/immurok-daemon/src/ble.rs:942-998 | no frame stream opens or closes a pairing wait |
| Link.FirstAnswerMeans | crates/immurok-daemon/src/ble.rs:1077-1080 | the first answer of a stream is its first non-empty, non-asynchronous frame, and there is none exactly when no such frame came |
| Link.CommandGetsFirstAnswer | crates/immurok-daemon/src/ble.rs:887-1081 | with only a command waiting, any frame stream changes exactly one thing: the command is resolved by the stream's first answer |
| Link.ResponseIsFirstAnswer | crates/immurok-daemon/src/ble.rs:942-998 | the same for the response channel while a pairing button wait is open |
| Link.VerdictMeans | crates/immurok-daemon/src/ble.rs:1012-1075 | a verdict exists exactly when some frame settles the wait, and is the outcome of the first that does: a 0x00, an error or the third 0x07 |
| Link.VerdictNeverFlips | crates/immurok-daemon/src/ble.rs:1012-1075 | further frames never change a verdict |
| Link.GateEndsOnVerdict | crates/immurok-daemon/src/ble.rs:1012-1065 | over every frame stream since it opened, a gate holds the stream's verdict as its result, or is still open with the mismatches counted |
| Link.AuthEndsOnVerdict | crates/immurok-daemon/src/ble.rs:1032-1075 | the same for an authentication |
| Worker.BleState.RouteNotification | crates/immurok-daemon/src/ble.rs:887-1081 | the imperative routing leaves exactly the state, and asks for exactly the effect, of `Link.Route` |
| Worker.BleState.AbortPending | crates/immurok-daemon/src/ble.rs:872-881 | every open gate, authentication and button wait gets its failure value, a waiting command an error, and no sender or flag stays behind |
| Worker.BleState.SendCommandInner | crates/immurok-daemon/src/ble.rs:1412-1451 | for every interleaving, the answer returned is the first answer among the notifications routed since the command was armed, or the timeout if the deadline was picked first |
| Worker.AnswerIsFirst | crates/immurok-daemon/src/ble.rs:1438-1450 | an answer so returned is never empty and never an asynchronous frame |
| Worker.BleState.WaitForGate | crates/immurok-daemon/src/ble.rs:1508-1555 | the gate wait ends on the verdict of the frames since it opened, on a cancel or on its deadline, leaves no sender armed, and writes GATE_CANCEL to the device exactly on a cancel |
| Worker.BleState.SendFpGatedInner | crates/immurok-daemon/src/ble.rs:1478-1556 | command and gate together, with every early exit and the GATE_CANCEL write |
| Worker.BleState.WaitForAuth | crates/immurok-daemon/src/ble.rs:1821-1857 | the authentication wait ends on the verdict, or with false on a cancel or the deadline, and writes GATE_CANCEL exactly on a cancel |
| Worker.BleState.DoAuthRequest | crates/immurok-daemon/src/ble.rs:1808-1857 | the imperative AUTH_REQUEST and its wait yield what `Worker.Authenticated` specifies, which `Worker.AuthIffGrant` pins down, and write GATE_CANCEL exactly on a cancel |
| Worker.GatedNeedsGrant | crates/immurok-daemon/src/ble.rs:1486-1555 | a gated command succeeds only if the device's first answer was a success, or a success frame came before any failure settled the gate |
| Worker.GatedIffGrant | crates/immurok-daemon/src/ble.rs:1486-1555 | for every sequence of picks it succeeds if and only if the first answer is a success, or asks for a finger and a later pick finds the gate settled by a success frame, with no earlier pick ending it |
| Worker.AuthNeedsGrant | crates/immurok-daemon/src/ble.rs:1814-1857 | an authentication yields true only on the same condition; no cancel, deadline, third mismatch or error does |
| Worker.AuthIffGrant | crates/immurok-daemon/src/ble.rs:1808-1857 | for every sequence of picks an authentication yields true at a given pick if and only if that pick takes a first answer of 0x00, or a first answer of 0x11 came and it finds the frames since settled by a success with no end before; false if and only if it finds them settled otherwise, or is the cancel or the deadline; and an error exactly otherwise |
| Worker.FingerDecides | crates/immurok-daemon/src/ble.rs:1808-1857 | worked out on bytes: 0x11 then 0x00 authenticates, 0x11 then 0x06 does not, and the same for a gated command behind 0x11 or 0x10 |
| Worker.FastReplyCarriesPayload | crates/immurok-daemon/src/ble.rs:1486-1494 | a gated command answered at once hands on everything behind the status byte |
| Coordinator.UnlockNeverAdmitsSudo | crates/immurok-daemon/src/coordinator.rs:34-38 | no spelling of a sudo service passes the window a screen unlock arms, and a sudo window admits it exactly until its deadline |
| Coordinator.WindowsAdmit | crates/immurok-daemon/src/socket.rs:1410-1413 | the agent window admits exactly sudo, sudo_local and sudo-i, in any spelling, for 10 s, and the unlock window exactly polkit-1, login and gdm-password for 3 s |
| Coordinator.LowerMeans | crates/immurok-daemon/src/coordinator.rs:314-328 | spelling: A to Z and the Kelvin sign are lowered, every other character stays |
| Coordinator.ArmMeans | crates/immurok-daemon/src/coordinator.rs:310-331 | a window admits a service exactly while it lasts and if some service it was armed for has the same lower case |
| Coordinator.Coordinator.SetPreAuth | crates/immurok-daemon/src/coordinator.rs:310-316 | the new window replaces the old one and admits, in any spelling, exactly the services it was armed for until its deadline |
| Coordinator.Coordinator.ConsumePreAuth | crates/immurok-daemon/src/coordinator.rs:321-331 | admits exactly in-set services before the deadline, and consumes nothing |
| Coordinator.Coordinator.TrySetPendingPam | crates/immurok-daemon/src/coordinator.rs:337-347 | claims the slot if and only if it is empty, and never overwrites |
| Coordinator.Coordinator.DenyPendingPam | crates/immurok-daemon/src/coordinator.rs:358-363 | empties the slot and tells whoever was in it |
| Coordinator.Coordinator.OnFpMatch | crates/immurok-daemon/src/coordinator.rs:268-306 | one touch tells the request in the slot and empties it; no sudo service is admitted at any later time that was not before; on a locked screen that was approved or unlocked exactly the three follow-up services are admitted for 3 s, otherwise the window stays; the flow time is now exactly if the slot was taken or an unlock tried |
| Coordinator.TouchMeans | crates/immurok-daemon/src/coordinator.rs:268-306 | the same of the specification of one touch, and that nothing else changes |
| Coordinator.Coordinator.HandleLockRequest | crates/immurok-daemon/src/coordinator.rs:408-430 | locks, and clears the window, exactly when enabled, unlocked and outside the suppression time |
| Coordinator.Coordinator.CancelActiveGate | crates/immurok-daemon/src/coordinator.rs:579-586 | notifies if and only if the gate flag is up |
| Coordinator.Coordinator.TryBeginPairing | crates/immurok-daemon/src/coordinator.rs:255-265 | an attempt in flight keeps its progress; anything else is claimed and reset |
| DaemonApprovals.RunKeeps | crates/immurok-daemon/src/socket.rs:672-758 | in every run, whatever a handler or the worker holds in a request's favour has its cause in the log |
| DaemonApprovals.ApprovalsHaveCauses | crates/immurok-daemon/src/socket.rs:672-758 | in every run, each OK:AUTHENTICATED or OK:APPROVED goes to a request accepted before for a cause of its own: a slot approval sent to it, its own command's first answer being a success, or the frames routed since its own authentication opened having settled it with a success |
| DaemonAnswers.YesIsAnswered | crates/immurok-daemon/src/socket.rs:672-758 | the converse: in every state, a racing PAM or agent request that the slot or the worker has said yes to can, with no cancel in between, be answered OK |
| DaemonAnswers.TouchIsAnswered | crates/immurok-daemon/src/coordinator.rs:268-285 | in every reachable state without an open gate, authentication or pairing gate, a verified touch leads to an OK for the racing request in the slot |
| DaemonAnswers.GrantIsAnswered | crates/immurok-daemon/src/ble.rs:1808-1857 | in every reachable state in which a racing request's own authentication is open, a success frame leads to an OK for it |
| DaemonAnswers.TouchedSudoIsAnswered | crates/immurok-daemon/src/socket.rs:672-758 | a complete run in which a sudo request is touched and answered OK |
| DaemonAnswers.AgentCarriesSudo | crates/immurok-daemon/src/socket.rs:1340-1414 | a complete run in which an agent request is granted by its own authentication and answered OK, and a sudo request rides its window |
| DaemonAnswers.WindowRunsOut | crates/immurok-daemon/src/socket.rs:632-645 | and one in which a sudo request comes ten seconds later and does not |
| DaemonAnswers.TouchUnlocks | crates/immurok-daemon/src/coordinator.rs:286-296 | a complete run in which a touch unlocks the screen and the login that follows rides the window |
| DaemonAnswers.TouchAddsUp | crates/immurok-daemon/src/coordinator.rs:268-306 | with nothing in between, the machine's steps of a touch leave the coordinator exactly as `OnFpMatch` does |
| DaemonAnswers.LockClearsWindow | crates/immurok-daemon/src/coordinator.rs:408-430 | from every state that listens, a 0x23 frame clears the window exactly if the feature is on, the screen open and the last authentication, if any, at least 3 s ago, as `HandleLockRequest` has it |
| DaemonAnswers.AnswerLeadsOn | crates/immurok-daemon/src/ble.rs:1478-1506 | in every reachable state in which a command waits for its answer, the next frame that is no notification decides, by kind and first byte, whether it is replied to, its gate opens or its authentication opens |
| DaemonAnswers.GateIsSettled | crates/immurok-daemon/src/ble.rs:1508-1555 | in every reachable state with a gate open, a success passes it and an error or the third mismatch fails it; the reply says so, the gate closes and the worker is back at its queue |
| DaemonAnswers.AuthIsSettled | crates/immurok-daemon/src/ble.rs:1821-1857 | the same for an authentication |
| DaemonAnswers.PermitDenies | crates/immurok-daemon/src/ble.rs:1535-1541 | a stored permit ends the gate or authentication it is for: it is used up, the wait closed, the request told no and the worker back at its queue |
| DaemonAnswers.DeadlineDenies | crates/immurok-daemon/src/ble.rs:1542-1550 | so does the deadline of whatever the worker waits for |
| DaemonAnswers.DroppedLinkEndsAll | crates/immurok-daemon/src/ble.rs:872-881 | a link that drops while the worker is at its queue leaves nothing armed and changes nothing else |
| DaemonAnswers.SlotIsForOne | crates/immurok-daemon/src/socket.rs:676-683 | a handler that may claim the slot gets it if it is empty and is turned away at once if it is not, with nothing else changed |
| DaemonAnswers.WindowIsAsked | crates/immurok-daemon/src/socket.rs:632-645 | a PAM request inside the window is answered at once, one outside goes on to the slot |
| DaemonProgress.NoRequestIsStuck | crates/immurok-daemon/src/socket.rs:672-758 | from every reachable state every request, of whatever kind and wherever its handler is, can be brought to its end without a cancel: no handler waits for a reply that cannot come |
| DaemonTheorems.ApprovalsNeverOutnumberTouches | crates/immurok-daemon/src/coordinator.rs:268-285 | at every point of every run, slot approvals are at most as many as verified 0x21 frames routed while no gate, authentication or pairing gate was open |
| DaemonTheorems.AnsweredOnce | crates/immurok-daemon/src/socket.rs:749-758 | in every run, no request is answered OK:AUTHENTICATED or OK:APPROVED twice |
| DaemonTheorems.AnswersNeverOutnumberTouches | crates/immurok-daemon/src/socket.rs:672-758 | at every point of every run, the requests answered OK without a success of their own command are at most as many as those verified 0x21 frames: no touch answers two |
| DaemonTheorems.SudoWindowsAreBridged | crates/immurok-daemon/src/socket.rs:1398-1414 | in every run, a PRE_AUTH approval of a sudo service at t has an AGENT_APPROVE accepted for a cause of its own that armed its window at t' with t' <= t < t' + 10 s, and no window was armed and no lock executed in between |
| DaemonLedger.RunKeeps | crates/immurok-daemon/src/coordinator.rs:310-331 | in every run, window, stored permit, gate flag and gate in force are those the log implies |
| DaemonTheorems.CancelledGatesWereNotified | crates/immurok-daemon/src/coordinator.rs:579-586 | in every run, gates cancelled plus cancels stored are at most the `gate_cancel` notifications |
| DaemonTheorems.KillsAreNotified | crates/immurok-daemon/src/ble.rs:1535-1541 | a cancelled gate was the one in force and died of a notification no other gate had died of; a checked one was sent while a gate was in force |
| DaemonTheorems.IdleCancelIsInert | crates/immurok-daemon/src/socket.rs:996-1012 | in every reachable state without a gate, a checked cancel notifies nobody and changes nothing |
| DaemonCancels.GateCancelStrands | crates/immurok-daemon/src/coordinator.rs:570-586 | in every reachable state without a stored permit, a checked cancel can be left stored with the worker back in its main loop, and can kill the gate of a request that arrives only later, if and only if a gate is in force, undecided, decided or being wound down |
| DaemonCancels.HandlerCancelStrands | crates/immurok-daemon/src/socket.rs:898-925 | in every reachable state without a stored permit, the unchecked cancel of a gated command's handler can kill the gate of a request that arrives only later if and only if its own request still races |
| DaemonTheorems.CancelledAuthsWereNotified | crates/immurok-daemon/src/ble.rs:1842-1848 | in every run, authentications cancelled plus dialog cancels stored are at most the dialog cancels sent |
| DaemonTheorems.AuthKillsAreNotified | crates/immurok-daemon/src/ble.rs:1842-1848 | a cancelled authentication was the one in force and died of a dialog cancel no other authentication had died of |
| DaemonCancels.DialogCancelReachesOthers | crates/immurok-daemon/src/socket.rs:717-746 | in every reachable state without a stored permit, a request's dialog cancel can deny another request's authentication, even one that arrives only later, if and only if the request still races |
| DaemonDialogs.DialogCancelReachesItself | crates/immurok-daemon/src/ble.rs:1808-1848 | in every reachable state without a stored permit, a racing request's dialog cancel can still stop its own authentication if and only if that is queued, on the wire without an answer that decides it, or being waited for; in all other states it reaches nothing but other requests |
| DaemonRuns.DismissalDeniesNextRequest | crates/immurok-daemon/src/socket.rs:1350-1390 | a complete run in which an agent request is denied by the cancel of an earlier one, sent before it arrived |
| DaemonRuns.LateCancelKillsNextGate | crates/immurok-daemon/src/coordinator.rs:570-586 | a complete run in which the second gate is cancelled though nothing was cancelled since it opened |
| DaemonPairing.InFlightIsTheWorkers | crates/immurok-daemon/src/ble.rs:1607-1617 | in every run the progress is in flight through every button wait and only while the worker carries out a pairing, and then nothing but that pairing's own steps and the frames that reach its button wait change it |
| DaemonPairing.SecondStartIsRefused | crates/immurok-daemon/src/socket.rs:1025-1045 | in every run a PAIR:START is refused, the progress kept and nothing queued, if and only if the progress is in flight; otherwise it is queued and the progress reset |
| DaemonPairing.ButtonIsAsked | crates/immurok-daemon/src/ble.rs:1609-1617 | a device that asks for its button is shown waiting for it, to a second host as waiting for a finger first |
| DaemonPairing.FingerIsAsked | crates/immurok-daemon/src/ble.rs:1617-1625 | old firmware's request for a finger opens the pairing gate, before the first touch and after each mismatch |
| DaemonPairing.NextCommandIsSent | crates/immurok-daemon/src/ble.rs:1560-1679 | the next command of a pairing goes out with no wait of the last one left open |
| DaemonPairing.ButtonIsShown | crates/immurok-daemon/src/ble.rs:942-998 | in every reachable button wait the progress follows the device's reports: the press, the accepted finger, and nothing else |
| DaemonPairing.EndIsShown | crates/immurok-daemon/src/ble.rs:1560-1679 | however a pairing ends, progress and reply say how, and no pairing wait stays open |
| DaemonPairing.TwoStartsAreQueued | crates/immurok-daemon/src/coordinator.rs:251-265 | a complete run in which two pairings are queued one behind the other |
| DaemonWaits.WaitsAgree | crates/immurok-daemon/src/ble.rs:1462-1556 | in every run: flags match senders, gate and authentication are never both open, each is open only while the worker waits for it, a waiting worker has its wait open or its result in hand, and nothing is open in the main loop |
| DaemonSlot.NoClaimIsOrphaned | crates/immurok-daemon/src/coordinator.rs:337-347 | in every run, a racing request holds the slot if and only if it has not been told yet |
| DaemonSlot.WhomClearingDenies | crates/immurok-daemon/src/coordinator.rs:358-363 | in every run, a decided handler denies itself exactly while its own channel is unresolved, and otherwise the live request that claimed the slot since |
| DaemonSlot.FinishedHandlerDeniesAnother | crates/immurok-daemon/src/socket.rs:749-752 | a complete run in which an approved sudo request denies an agent request |
| Pairing.WaitPairButton | crates/immurok-daemon/src/ble.rs:1690-1753 | for every sequence of picks at any times the wait ends as specified over the frames that came in, with nothing left open |
| Pairing.ButtonWaitIsBounded | crates/immurok-daemon/src/ble.rs:1705-1742 | if no pick comes more than d after the deadline in force, every turn of the wait, ended or still going, is within 35 s + d, or twice that once an accepted fingerprint was reported, however many more are; it never times out before its window is over |
| Pairing.DeadlineMeans | crates/immurok-daemon/src/ble.rs:1705-1738 | the deadline in force is always 35 s after the wait began or, from its first report on, after the accepted fingerprint |
| Pairing.ButtonWaitIff | crates/immurok-daemon/src/ble.rs:1690-1753 | for every sequence of picks the wait ends at a given pick and with a given result if and only if that pick is the first to find one: the first real answer, a missed window or long press if that was the first terminal button event, or the deadline |
| Pairing.WaitPairFpGate | crates/immurok-daemon/src/ble.rs:1755-1801 | the old fingerprint gate over the routed frames: the command is armed again after every mismatch, all rounds share one deadline, and nothing is left open |
| Pairing.FpGateDecides | crates/immurok-daemon/src/ble.rs:1783-1796 | it ends with exactly the first answer taken that is no mismatch, if at most two mismatches came before it, and passes unless that is a timeout, an error or a busy device; it gives up exactly on three mismatches ahead of any other answer |
| Pairing.OneAnswerTaken | crates/immurok-daemon/src/ble.rs:1770-1783 | an answer frame that comes in alone since the command was armed is taken by the next pick of the answer |
| Pairing.InitLeadsTo | crates/immurok-daemon/src/ble.rs:1587-1625 | the answer to PAIR_INIT decides: 0x30 0xF0 the button wait, 0x11 the fingerprint gate, 0x30 0xF1 a refusal, anything else is the answer itself |
| Pairing.CompletesIff | crates/immurok-daemon/src/ble.rs:1627-1660 | an attempt pairs with a key and a secret if and only if its answer is 0x30 and that 33-byte key, the confirmation begins with 0x31 0x00 and the secret derives from the key; it is retried exactly on 0xE1 |
| Pairing.FpGateIsBounded | crates/immurok-daemon/src/ble.rs:1764-1781 | it never times out before its one deadline, and never passes over it |
| Pairing.Host.DoPair | crates/immurok-daemon/src/ble.rs:1560-1679 | for every device behaviour at most four PAIR_INITs go out, all but the last refused for the connection parameters and followed by a pause; a pairing is stored, and the device counts as verified, if and only if the last attempt brought a 0x30 frame with a 33-byte key, then 0x31 0x00, and a secret; otherwise the old pairing and its file stay; the progress shown follows the slot status read before |
| SlotClear.StatusReadsBack | crates/immurok-common/src/dual_host.rs:21-51 | the decoder reads back a device's slot status, and a second host is one whose active slot is empty while the other is taken |
| SlotClear.Daemon.HandleSlotClear | crates/immurok-daemon/src/socket.rs:1180-1222 | local state and answer of every request, against every device and link |
| SlotClear.Daemon.ClearOwnSlot | crates/immurok-daemon/src/socket.rs:1140-1174 | local state and answer of the own-slot path |
| SlotClear.OwnClearLeavesNoGhost | crates/immurok-daemon/src/socket.rs:1113-1222 | over whole requests of a connected host that name no slot, or the one a valid status frame reports as active: none ends with the host still paired while that run erased its slot, whatever the device does and the link loses or garbles, and the pairing survives exactly on an explicit refusal that got through, with nothing changed anywhere |
| SlotClear.OwnClearAnswers | crates/immurok-daemon/src/socket.rs:1140-1174 | when the device presents the slot it reported: which of the four answers is given, by what the device did and whether its answer got through |
| SlotClear.WhyNothingIsSent | crates/immurok-daemon/src/socket.rs:1180-1204 | INVALID_SLOT, DUAL_HOST_UNSUPPORTED, SLOT_STATUS_FAILED, NOT_CONNECTED and CLEARED_LOCAL_ONLY, each exactly by the connection, the slot named and the bytes of the status frame |
| SlotClear.GhostOnlyByNamingOwnSlot | crates/immurok-daemon/src/socket.rs:1205-1222 | over whole requests, paired with an erased slot happens exactly when the request named a slot that holds this host's own key while the status frame reports the other one as active, and the device carried it out |
| SlotClear.NamingOwnSlotLeavesGhost | crates/immurok-daemon/src/socket.rs:1205-1222 | such a request, worked out |
| SlotClear.LineSplits | crates/immurok-common/src/dual_host.rs:191-201 | the client sees the daemon's answer kind and its status up to the next colon |
| SlotClear.FailureIsNeverCleared | crates/immurok-common/src/dual_host.rs:163-201 | no error text is read as any kind of success |
| SlotClear.ClearedIsRead | crates/immurok-common/src/dual_host.rs:191-201 | the client decodes a full clear if and only if the daemon answered CLEARED |
| SlotClear.OtherClearedIff | crates/immurok-daemon/src/ble.rs:1486-1555 | over whole requests that name the slot the status frame does not report: the host stays as it is, and whatever frames arrive the answer is CLEARED exactly when a success arrives that the gated command takes, whatever the device did, and SLOT_CLEAR_FAILED otherwise |
| SlotClear.OtherClearedMeansErased | crates/immurok-daemon/src/socket.rs:1205-1222 | over any link, which may turn what the device sends into any stretch of frames and picks, CLEARED means for every host, device and mood that the other slot is erased, if and only if the link makes up no success while the device says no |
| SlotClear.HonestMakesUpNothing | crates/immurok-daemon/src/ble.rs:1486-1555 | a link that passes on what the device sends, and nothing else, makes up no success |
| SlotClear.StrayFrameReportsClear | crates/immurok-daemon/src/ble.rs:1486-1492 | a stray 0x00 ahead of the answer: CLEARED with the slot untouched |
| SlotClear.ClearedMeansConfirmed | crates/immurok-daemon/src/socket.rs:1140-1222 | over whole requests, CLEARED about the slot in use means the device erased it and said so, and about the other slot that it is gone unless the link made up a success; there is no third way |
| KeyMirror.Mirror.SyncSshKeys | crates/immurok-daemon/src/ble.rs:1138-1226 | files and digests after a sync, for every combination of hits, misses and faults |
| KeyMirror.SyncMirrors | crates/immurok-daemon/src/ble.rs:1138-1226 | from a disk whose digests are backed by some earlier state of the device, one complete sync leaves both files exactly as a full re-read would, in every mix of hit and miss |
| KeyMirror.FullReadMeans | crates/immurok-daemon/src/ble.rs:1307-1399 | what a full re-read is: every SSH and name line carries the index of the slot it was read from and is what that slot yields, indices increase strictly, and every slot that yields a line is there |
| KeyEntries.SshEntryMeans | crates/immurok-daemon/src/ble.rs:1320-1337 | an entry of at least 80 bytes, and no other, yields a line: its own index, the name up to the NUL and a blob that ends in the point with both halves turned round, byte by byte |
| KeyEntries.NameEntryMeans | crates/immurok-daemon/src/ble.rs:1355-1392 | an entry that fills its name field of 30 or 32 bytes, and no other, yields a line: its own index and category, the name up to the NUL, and for OTP the service behind it |
| KeyMirror.SoundIffBacked | crates/immurok-daemon/src/ble.rs:1138-1239 | over any backed disk a sync leaves every digest backed if and only if it is sound: a guard on the faults, the digests that hit and the lines written |
| KeyMirror.ReadIsFull | crates/immurok-daemon/src/ble.rs:1336-1341 | a category's read is full if and only if no usable entry's read failed |
| KeyMirror.CompleteSyncMirrors | crates/immurok-daemon/src/ble.rs:1138-1239 | after any history of key changes and sound syncs, given that the checksum distinguishes the states that occurred, a complete sync leaves the files of a full re-read |
| KeyMirror.CutOffSyncGoesStale | crates/immurok-daemon/src/ble.rs:1158-1180 | a sync cut off after saving the SSH file makes later complete syncs keep the wrong keys once the device returns to the old ones |
| KeyMirror.SkippedReadSticks | crates/immurok-daemon/src/ble.rs:1336-1341 | after any number of later complete syncs the file is still what the read left, which is the full list if and only if no usable entry was skipped |
| ChunkTransfer.StagesExactly | crates/immurok-daemon/src/socket.rs:1944-2030 | the chunk loop stages exactly the payload if and only if it has at most 295 bytes, where the offset byte does not wrap |
| ChunkTransfer.AcceptedImportsStage | crates/immurok-daemon/src/socket.rs:1837-1931 | every payload the three import commands take is staged exactly, chunk k at offset 59 k, which never wraps |
| ChunkTransfer.PacketsMean | crates/immurok-daemon/src/socket.rs:1970-1985 | packet k is the category, 0xFF, the low byte of 59 k and the payload's bytes from there, at most 59, and there are as many as that takes |
| ChunkTransfer.PacketsFitTheLink | crates/immurok-daemon/src/socket.rs:1980-1991 | no packet is over 62 bytes |
| ChunkTransfer.ImportKey | crates/immurok-daemon/src/socket.rs:1944-2030 | what is sent, whether it is committed, and exactly which outcome, for every device answer: a low battery on writing or committing, the offset refused, a lost write, a full keystore, the slot |
| ChunkTransfer.CommitsOnlyWholeKeys | crates/immurok-daemon/src/socket.rs:1986-2030 | a commit is only sent over a staging area that holds the whole payload |
| ChunkTransfer.ReadChunks | crates/immurok-daemon/src/ble.rs:1267-1299 | the read loop after any number of requests |
| ChunkTransfer.AfterRequests | crates/immurok-daemon/src/ble.rs:1281-1296 | a read loop still running holds at most 254 bytes, so its one-byte offset never wraps |
| ChunkTransfer.EndsForAReason | crates/immurok-daemon/src/ble.rs:1281-1296 | a read loop that ended did so on a refusal, or on the chunk with which at least the announced total was there, and yields exactly that many of the bytes held |
| ChunkTransfer.NonEmptyChunksTerminate | crates/immurok-daemon/src/ble.rs:1281-1296 | a device that serves non-empty chunks is read within 255 requests |
| ChunkTransfer.EndlessIffStarved | crates/immurok-daemon/src/ble.rs:1281-1296 | the loop never ends if and only if, from some request on, every answer is an empty chunk with a total above what is held |
| ChunkTransfer.ReadsBack | crates/immurok-daemon/src/ble.rs:1267-1299 | from a device that serves an entry in non-empty pieces exactly that entry is read |
| ChunkTransfer.ImportedKeyReadsBack | crates/immurok-daemon/src/ble.rs:1267-1299 | import followed by read-back yields the imported payload |
| Enroll.Drive | crates/immurok-client/src/enroll_session.rs:91-172 | Started first, then exactly the events of the successful non-idle polls with adjacent repeats removed, then the terminal event of a timeout, a lost link or the bitmap, if that is how it ended; it ends in the first round that gives a reason to, and for that reason |
| Enroll.OutcomeAgrees | crates/immurok-client/src/enroll_session.rs:91-172 | at most one terminal event, only as the last, Complete exactly on success, a failure exactly on failure, none on a cancel |
| Enroll.IdleMarkMeans | crates/immurok-client/src/enroll_session.rs:130-145 | the idle stretch behind a bitmap check began with an idle poll and nothing but idle answers and failed polls came since |
| Enroll.IdleIsChecked | crates/immurok-client/src/enroll_session.rs:128-145 | conversely, between two idle polls at least 3 s apart with nothing but idle answers and failed polls between, the bitmap is looked at |
| FpStatus.NewsReadsBack | crates/immurok-client/src/fingerprint.rs:85-106 | the three bytes the daemon keeps of an enrollment notification are what the client reads from the FP:STATUS line, for all values |
| FpStatus.SilenceReadsIdle | crates/immurok-client/src/fingerprint.rs:85-93 | without a notification the line reads as idle |
| FpStatus.ErrorIsNoReading | crates/immurok-client/src/fingerprint.rs:85-89 | no error text is a reading |
| FpStatus.NotificationIsReported | crates/immurok-client/src/enroll_session.rs:75-169 | from the device's frame through routing, the daemon's line and the client's poll to the event reported, for every status byte: the next frame to press is at least 1 and at most the total, and an unknown status is a failure |
| Enroll.DedupHasNoRepeats | crates/immurok-client/src/enroll_session.rs:147-150 | no two reported readings in a row are equal |
| Enroll.PollsAreBounded | crates/immurok-client/src/enroll_session.rs:109-121 | at most 2401 polls whenever every sleep moves the clock by at least 150 ms |
| LogRing.LogSink.Emit | crates/immurok-daemon/src/logbuf.rs:51-71 | the ring is the last 500 of the old lines and the new non-empty ones, and each of these is broadcast |
| LogRing.PushKeepsLast | crates/immurok-daemon/src/logbuf.rs:62-67 | the bounded push keeps the ring the last 500 lines pushed |
| LogRing.NothingIsLost | crates/immurok-daemon/src/socket.rs:457-497 | for every interleaving of pushes, broadcasts and a viewer that subscribes before its snapshot, each line is in the snapshot, live, reported as dropped, still on its way, or was followed by 500 newer ones before the snapshot |
| LogRing.StreamIsInOrder | crates/immurok-daemon/src/socket.rs:473-488 | the live stream repeats nothing and keeps the order of the broadcasts |
| LogRing.CatchesUp | crates/immurok-daemon/src/socket.rs:473-497 | a viewer that keeps reading gets every broadcast since it subscribed, or is told that it missed it, and then only if at least 256 newer ones were there |
| LogRing.SnapshotFirstLoses | crates/immurok-daemon/src/socket.rs:464-467 | the other order loses a line emitted in between |
| SshConfig.StripBlock | crates/immurok-common/src/ssh_config.rs:34-54 | the drained line vector is the specified text |
| SshConfig.StripMeans | crates/immurok-common/src/ssh_config.rs:34-54 | wherever in the file the block is, its lines go and the lines above and below stay, less the newlines at either end; without a complete block the text is left as it is |
| SshConfig.ConfigFile.EnableAgent | crates/immurok-common/src/ssh_config.rs:71-87 | the file after enabling |
| SshConfig.ConfigFile.DisableAgent | crates/immurok-common/src/ssh_config.rs:91-108 | the file after disabling, a missing one staying missing |
| SshConfig.OneBlockOnTop | crates/immurok-common/src/ssh_config.rs:71-87 | after any sequence of enables the file is the last path's block on top of the former text, less its outer newlines from the second time on |
| SshConfig.ExactlyOneBlock | crates/immurok-common/src/ssh_config.rs:21-26 | after any sequence of enables exactly one line opens a block, the first; the block's closing line is the first of its kind, and the only one if the user's text has none |
| SshConfig.DisableRestores | crates/immurok-common/src/ssh_config.rs:91-108 | disabling then restores the former text up to its outer newlines |
| SshConfig.EnableSettles | crates/immurok-common/src/ssh_config.rs:68-87 | enabling for the same path is a fixed point from the second application on, from the first if and only if there is nothing to trim |
| SshConfig.DisableWithoutBlock | crates/immurok-common/src/ssh_config.rs:91-108 | a file without a complete block is left alone if and only if it does not mention the sentinel; otherwise it grows by a newline |
| KeyReaders.ParseOpenSshKey | crates/immurok-client/src/ssh_import.rs:38-88 | terminates on every byte string with all indices in range, reports the first failing check, and yields 32 and 64 bytes on success |
| KeyReaders.OpenSshReadsBack | crates/immurok-client/src/ssh_import.rs:38-88 | inverts the reference encoder (section 5 of RFC 4251) exactly when the scalar's minimal mpint has 32 or 33 bytes, and refuses the key otherwise |
| KeyFormats.OpenSshIff | crates/immurok-client/src/ssh_import.rs:38-88 | the reader yields a key if and only if the file is an unencrypted container of one P-256 key with equal check numbers, its point uncompressed and its private number spelled in 32 bytes or with a zero in front |
| KeyReaders.DerTagLen | crates/immurok-client/src/ssh_import.rs:92-116 | tag, length and content of the DER element, within the data, for every byte string |
| KeyFormats.DerIff | crates/immurok-client/src/ssh_import.rs:92-116 | a tag, length and content offset are read if and only if they stand there: in short form, or with a big-endian length, of which 64 bits count, and all of the content within the data |
| KeyReaders.ParseSec1 | crates/immurok-client/src/ssh_import.rs:121-164 | terminates on every byte string and yields 32 and 64 bytes on success |
| KeyReaders.Sec1ReadsBack | crates/immurok-client/src/ssh_import.rs:121-164 | inverts the reference encoder (section 3 of RFC 5915) with and without parameters and public key |
| KeyFormats.Sec1Iff | crates/immurok-client/src/ssh_import.rs:121-164 | the reader yields a key if and only if the file is a sequence that begins with a version and 32 bytes of scalar, and the point is the one found behind them or, with none there, derived |
| KeyFormats.LastKeyCounts | crates/immurok-client/src/ssh_import.rs:143-158 | of several public key elements the last one counts, whatever stands before it |
| KeyFormats.OthersDoNotCount | crates/immurok-client/src/ssh_import.rs:155-157 | an element of any other tag changes nothing |
| SshFraming.SignResponseBody | crates/immurok-daemon/src/ssh_agent.rs:459-481 | parsing the body as a signature (section 3.1.2 of RFC 5656) yields the little-endian values of the two halves of the device's 64 bytes |
| SshFraming.CollectSignature | crates/immurok-daemon/src/ssh_agent.rs:405-457 | what four KEY_RESULT requests assembled, or the sign reply, if 64 bytes long |
| SshFraming.FourRequestsSuffice | crates/immurok-daemon/src/ssh_agent.rs:405-457 | a device that serves at least 16 bytes a time is read within the limit |
| SshFraming.StringReadsBack | crates/immurok-daemon/src/ssh_agent.rs:652-698 | an appended string is read back wherever it stands |
| SshFraming.MpintIsString | crates/immurok-daemon/src/ssh_agent.rs:663-678 | an appended mpint is a string whose number is the unsigned value of the bytes, never negative |
| SshFraming.ReadSshString | crates/immurok-daemon/src/ssh_agent.rs:680-698 | the string at the cursor, and where the cursor is left when it is cut short |
| SshFraming.IdentitiesAnswer | crates/immurok-daemon/src/ssh_agent.rs:181-199 | the answer built for a list of cached keys |
| SshFraming.IdentitiesReadBack | crates/immurok-daemon/src/ssh_agent.rs:181-199 | the identities answer lists exactly the cached keys and names, in order |
| SshFraming.ImportedPointReachesTheAgent | crates/immurok-client/src/ssh_import.rs:190-212 | an imported point comes back from the little-endian payload, the conversion and the key blob as the same point |
| KeyEntries.ConvertEndianness64 | crates/immurok-daemon/src/keystore.rs:160-174 | each 32-byte half reversed in place, anything else unchanged |
| KeyEntries.SwapHalvesTwice | crates/immurok-daemon/src/keystore.rs:160-174 | the conversion undoes itself |
| OtpFields.TruncateUtf8 | crates/immurok-client/src/keys_import.rs:47-56 | the longest prefix within the limit that ends on a character boundary |
| OtpFields.TruncationKeepsWholeCharacters | crates/immurok-client/src/keys_import.rs:47-56 | that prefix is the encoding (section 3 of RFC 3629) of as many whole characters as fit |
| OtpFields.PadField | crates/immurok-client/src/keys_import.rs:253-261 | the field is the truncated text and zeros up to its width |
| OtpFields.FieldReadsBack | crates/immurok-daemon/src/ble.rs:1375-1380 | the mirror reads a field back as the truncated text if and only if that has no NUL |
| OtpFields.BuildOtpEntryPayload | crates/immurok-client/src/keys_import.rs:263-278 | the payload is name field, service field and secret, at their fixed offsets |
| OtpFields.ApiEntryReadsBack | crates/immurok-client/src/keys_import.rs:281-293 | an API entry's name comes back as its longest prefix of at most 31 bytes, and the value starts right behind the field |
| OtpFields.OtpEntryReadsBack | crates/immurok-client/src/keys_import.rs:263-278 | name and service come back as their longest prefixes of at most 29 bytes, and the secret starts at byte 60 |
| Base32.Decode | crates/immurok-client/src/keys_import.rs:20-44 | despite its 32-bit accumulator the result is the text's bit stream (section 6 of RFC 4648) cut to whole bytes, of length floor(5n/8); it fails exactly on a symbol outside the alphabet |
| Base32.AlphabetRead | crates/immurok-client/src/keys_import.rs:31-35 | the symbols are the 32 of the alphabet (section 6 of RFC 4648), in its order, and no others |
| Base32.DecodingIsUnique | crates/immurok-client/src/keys_import.rs:20-44 | that specification determines the bytes |
| Base32.DecodeInvertsEncode | crates/immurok-client/src/keys_import.rs:20-44 | decoding inverts the reference encoder |
| Base32.CaseVanishes | crates/immurok-client/src/keys_import.rs:22-26 | case makes no difference |
| Base32.SkippedCharactersVanish | crates/immurok-client/src/keys_import.rs:22-26 | nor do whitespace and padding anywhere |

## Left out

- BlueZ, D-Bus, GATT discovery, the Python helper, logind and `loginctl`: external effects; what remains of them is whether a write went out, whether the screen is locked and whether an unlock succeeded.
- Cryptography, base64, hex and JSON: bits, parameters and values; the mirror's JSON files are the values they hold.
- Dialogs, terminal texts and prompts, the PAM module: user interface.
- Owner check, peer credentials, service switches and the connected and verified checks in front of an authentication: one-branch policy; the machine starts where they have passed.
- OTA transfer and firmware update: pass-through.
- The session setup (status, challenge, first sync) before the worker's main loop: it uses the modelled command wait in sequence.
- Daemon: in the machine a pairing command moves freely between its commands and waits, a superset of what it does; module Pairing has its order. A dropped link is seen in the main loop only, as in the code; the reconnect that follows is the same worker with nothing pending.
- Daemon: a handler that reads a secret holds the pending slot for one gated command; the plain reads that follow it are other requests.
- Pairing.WaitPairButton: observes a given number of picks, as every wait here does; a branch picked before it is ready is passed over.
- Pairing.Host.DoPair: the progress that frames report during the button wait is in `Daemon.DeliverStep`; the answers to its plain commands come with the attempt, as `Worker.Answer` yields them.
- Enroll.Drive: observes a given number of rounds, since the code sets no bound of its own without a clock that advances.
- ChunkTransfer.ReadChunks: observes a given number of requests for the same reason.
- KeyMirror.Mirror.SyncSshKeys: the device's keys do not change while one sync runs, and files load as they were saved.
- SlotClear.ClearedMeansConfirmed: the text after SLOT_STATUS_FAILED and SLOT_CLEAR_FAILED is left empty; SlotClear.FailureIsNeverCleared covers every text.
- Lower-casing of letters outside ASCII: a service name whose lower case is not ASCII is left as it is, and is in no service set either way.
- Coordinator.Coordinator.CancelActiveGate: the check of the flag and the notification are one step, while the code loads the flag and then notifies; a gate that closes in between would store one more permit, which `DaemonCancels.GateCancelStrands` already allows for while that gate is in force. The GATE_CANCEL command that is queued when no gate is in force is a plain request of the machine.
- Slot status lines for the user interface, key listings, settings, `split_otp_fields`, URI and CSV import: would add easy members.
- LogRing: the log file beside the ring, and lines that are not valid UTF-8.
