# TAPLE core, modelled and verified

TAPLE is a permissioned ledger. Every *subject* is a chain of numbered, hash-linked events. Its owner takes each event
through evaluation, approval and validation quorums; validators countersign a proof of it; witnesses replicate the chain,
either by applying the next event directly or by catching up to a *last event* that came with a certificate (LCE). This project models the
parts of `core/src` that make this safe, and proves what they keep.

`dafny verify dfyconfig.toml` checks everything (Dafny 4.11).

## How it is laid out

Handlers that change maps, a database or a buffer are methods of classes (`Ledger` and `Database`, `EventCompleter`,
`Validation`, `ApprovalManager`, `Distribution`, `Writer`, `Reader`), with the loops the code has. The `ensures` of each
handler says that the whole new state is a function of the old one; the main results are lemmas about those functions and
about arbitrary runs of them.

| files | what they are about |
|---|---|
| Json, Codec, CodecIO, CodecCanonical, CodecFormat | the Borsh form of JSON values, on which state hashes rest, and its bytes |
| Protocol, Subjects, SubjectHistory, Quorum, Verify | messages, subjects and the reference replay, what a chain tells of its subject, counting signers, the event check |
| Store, LedgerSteps, LedgerHandlers, LedgerAdmission | stored rows, the ledger's handlers as functions and as methods, and what they accept and change in terms of signatures, governance and rows |
| LedgerInvariant, LedgerPreserved, LedgerCatchUp, LedgerRefusals | the replica invariant, and exactly when each handler keeps it |
| LedgerRuns, LedgerClosing, LedgerRestart | runs, catch-up progress, when catch-up can still reach its head, restart |
| Validator, ValidatorAnswers, Agreement, AgreementPrefix | validation registers, what is signed under whose key, no fork, one history, agreement of replicas at equal and at different sns |
| Completer, CompleterHandlers, CompleterEvents, CompleterEvaluations, CompleterVotes, CompleterValidations, CompleterUpdates, Genesis | the owner's side: phases, agreement with the verifier, how evaluation, vote and validation end, governance updates, new subjects |
| CompleterRuns, CompleterFrames, JointRuns, Delivery | what the completer's steps keep, whole runs of completer and ledger together, and what other nodes make of what is handed over |
| Approver, ApproverHandlers, ApproverAnswers | approval requests, their indexes, and what is answered |
| Namespaces, Roles, GovernanceReplay | containment, role resolution, quorums, historic governance |
| Witnesses | merging witness signatures |

## What is taken for granted

Digests, signatures and JSON Patch are uninterpreted functions (`Protocol.Crypto`); where a result needs it, digests are
collision free, a signature is on one content only, and an empty patch changes nothing. Governance's answers are functions
of the metadata, which names the version. Each handler is one step, because every manager takes its commands one by one.

Runs of the ledger are *orderly* (`LedgerRuns.Orderly`). The condition can be read from message and replica before the call,
and `LedgerRuns.StepKeepsIff` proves of every accepted message, and of every catch-up event accepted or not, that it is
exactly what keeping the invariant takes. Beyond it, a subject that exists is not started again as this node's own, and an
own event is certified and built on an up-to-date replica, which `JointRuns` proves of everything this node's completer hands
over. Nothing is taken for granted of the events themselves.

Joint runs of completer and ledger are *guarded* (`JointRuns.Guard`): requests are for subjects that are up to date and that
governance answers for, what comes from elsewhere is orderly and not about a subject this node has an event of in progress,
this node starts subjects with its own signature only (core/src/event/event_completer.rs:536-538), and a governance advances
only while no event under it is in progress.

## Where the code departs from its evident intent

Each of these is proved, as an exact condition where there is one.

- The direct path never compares an event's own predecessor hash (`LedgerPreserved.NextEventLinkedIff`).
- An owner who is not the creator can end a subject's life on its own node only: the completer asks for the owner, every other
  ledger for the creator (`Delivery.NewOwnersEndOfLife`, `Delivery.DeliveredExactly`).
- The certificate of any event admits any later one: certificate and event are compared only when catch-up gets there, and a
  head with the proof of something else is never reached (`LedgerClosing.UnrelatedCertificateBlocks`,
  `LedgerClosing.ClosesExactly`).
- An end of life marked rejected is carried out by the direct path (`LedgerPreserved.RejectedEolIsCarriedOut`).
- Nothing looks at the sn of an external genesis, so one with another sn than 0 is accepted and stored there
  (`LedgerPreserved.ExternalGenesisKeepsIff`).
- An event at the head's sn deletes itself (`LedgerPreserved.SameSnLosesHead`).
- A catch-up event is stored, and its request finished, before its hash link is compared; and it is applied before the
  head's proof is compared (`LedgerRefusals.IntermediateExactly`, `LedgerRefusals.WrongTransferIsStored`,
  `LedgerRefusals.RequestIsSpent`). One that is linked but not of the head's ancestry makes the head unreachable
  (`LedgerClosing.ClosesExactly`, `LedgerClosing.ForgeryBlocks`).
- An event directly above the current sn becomes a head that catch-up cannot pass while another head waits, and so
  does an event at sn 1 that meets its genesis (`LedgerPreserved.LaterEventKeepsIff`,
  `LedgerPreserved.ExternalGenesisKeepsIff`).
- An end of life reached by catch-up leaves the sn behind (`LedgerCatchUp.EolSourcingLagsBehind`).
- Start-up fails whenever more than one event, or one directly above, is stored beyond the subject's sn
  (`LedgerRestart.RecoversExactlyWhen`): after a refused stored event and after an end of life reached by catch-up.
- A subject still waiting for its genesis is forgotten by a restart (`LedgerRestart.RestartKeepsIff`).
- An own genesis asks governance for the initial state at its present version, not the event's
  (`LedgerPreserved.OwnGenesisKeepsIff`).
- Evaluations are grouped by a hash without the patch, though signed with it (`CompleterEvents.EvaluatorsHold`).
- Validations collected before a governance update are kept for the new proof (`CompleterUpdates.HandOverAfterUpdate`), and a
  transfer under validation makes the update fail (`CompleterUpdates.UpdateBlockedIff`).
- Answers to an evaluation asked for before a governance update are still counted, although a comment says they are not
  (core/src/event/event_completer.rs:859), and what they complete is of no use (`CompleterUpdates.FormerAnswersAreWasted`).
- A failed evaluation's patch is applied all the same, and nobody makes sure that it applies
  (`JointRuns.FailedStillApplies` in `JointRuns.CompleterAgrees`).
- The JSON reader accepts forms the writer never writes (`CodecCanonical.WrittenBackExactly`).
- A validator refuses the very request it signed once the event moved the subject to a new key (`Validator.ResendIsSigned`).
- An approver files a second request with a higher sn for a subject, and is then blocked for it (`Approver.TwoPendingBlock`).
- Governance replay applies rejected patches and forgets transfers (`GovernanceReplay.HistoricAgreesIff`,
  `GovernanceReplay.HistoricOwnerIsTheCreator`).

## Model

| member | source | states |
|---|---|---|
| `Codec.RoundTrip` | core/src/commons/models/value_wrapper.rs:32-151 | for every JSON value of any depth whose lengths fit 32 bits, whose texts are UTF-8 and whose floats are finite, decoding its encoding followed by any bytes gives the value back and leaves exactly those bytes |
| `Codec.EncodeInjective` | core/src/commons/models/value_wrapper.rs:32-83 | two values with the same encoding are the same value |
| `Codec.StateHashDeterminesState` | core/src/commons/models/value_wrapper.rs:25-30 | so an injective digest of the encoding tells any two states apart |
| `Codec.EncodePrefixFree` | core/src/commons/models/value_wrapper.rs:32-83 | no encoding is a proper prefix of another |
| `Codec.DecodeOk` | core/src/commons/models/value_wrapper.rs:86-151 | whatever bytes are read, a value that comes out is well formed again: finite floats, UTF-8, object keys in order |
| `Codec.DecodeEncodeDecode` | core/src/commons/models/value_wrapper.rs:86-151 | reading, writing and reading again gives the value first read |
| `Codec.ReadFormNotUnique` | core/src/commons/models/value_wrapper.rs:106-109 | an input that is read and not written back the same: the u64 tag on a number that fits an i64 |
| `CodecCanonical.WrittenBackExactly` | core/src/commons/models/value_wrapper.rs:32-151 | for all bytes that can be read: they are written back the same exactly when they are canonical, that is, at every depth the u64 tag is on numbers from 2^63 on only and object keys strictly ascend |
| `CodecFormat.FloatsRead` | core/src/commons/models/value_wrapper.rs:95-105 | of a float the reader refuses a NaN, stops at an infinity, and reads everything else as it is |
| `CodecFormat.WireFormat` | core/src/commons/models/value_wrapper.rs:32-83 | the bytes themselves: which tag each kind of value and of number carries, numbers and lengths least significant byte first, texts after their length, elements in order, and of each entry the key before the value |
| `CodecIO.Writer.Serialize` | core/src/commons/models/value_wrapper.rs:32-83 | the writer, field by field and with its loops over elements, appends exactly the encoding |
| `CodecIO.Reader.Deserialize` | core/src/commons/models/value_wrapper.rs:86-151 | the reader, with its loops, consumes and returns exactly what the decoding says, and fails where it fails |
| `CodecIO.WriteThenRead` | core/src/commons/models/value_wrapper.rs:32-151 | a value written to a buffer and read from it comes back |
| `Verify.RunVerifyEvalAppr` | core/src/commons/models/event.rs:147-241 | the loops over evaluators and approvers accept exactly when the stages hold: distinct allowed signers, every signature over the content rebuilt from the event, quorum or negative quorum reached |
| `Verify.CheckStage` | core/src/commons/models/event.rs:171-197 | the loop over one signature set decides exactly whether its stage holds |
| `Verify.NoTwoOutcomes` | core/src/commons/models/event.rs:202-240 | an approved and a rejected event from one approval request both accepted means an allowed approver signed both answers |
| `Quorum.Majority` | core/src/governance/inner_governance.rs:270-271 | a majority is the least number that is more than half, and within the signers when there are any |
| `LedgerHandlers.Ledger.VerifySignatures` | core/src/ledger/ledger.rs:2965-3002 | the loop that skips bad, foreign and repeated signatures counts exactly the distinct allowed signers whose signature verifies |
| `LedgerHandlers.Ledger.CheckEvent` | core/src/ledger/ledger.rs:2898-2919 | signers and quorums of both stages, the panic when a quorum exceeds its signers, and the verdict of the event check, as one function of the event |
| `LedgerHandlers.Ledger.Genesis` | core/src/ledger/ledger.rs:181-286 | new database, state map and kind map after an own genesis, as a function of the old ones |
| `LedgerHandlers.Ledger.EventValidated` | core/src/ledger/ledger.rs:303-550 | the same for an own validated event, for each kind of request |
| `LedgerHandlers.Ledger.ExternalEvent` | core/src/ledger/ledger.rs:552-2084 | the same for an external event: genesis, next event, later event, and event of an unknown subject, with their refusals |
| `LedgerHandlers.Ledger.NextEvent` | core/src/ledger/ledger.rs:749-841 | the same for the branch that applies the next event directly, after comparing its proof with it |
| `LedgerHandlers.Ledger.LaterEvent` | core/src/ledger/ledger.rs:1407-1490 | the same for the branch that makes a later event the head, in place of a higher one, on the strength of any certificate |
| `LedgerHandlers.Ledger.EventSourcing` | core/src/ledger/ledger.rs:2682-2881 | the same for applying a stored event after checking its hash link |
| `LedgerHandlers.Ledger.ExternalIntermediateEvent` | core/src/ledger/ledger.rs:2086-2436 | the same for a catch-up event, including the writes that come before its checks |
| `LedgerAdmission.FactPassesExactly` | core/src/ledger/ledger.rs:2898-2919 | a fact passes the event check exactly when distinct evaluators governance names signed the response rebuilt from event and subject, as many as the quorum or, for a failure, as refuse it, and distinct approvers did the like where approval was required or the answer is no |
| `LedgerAdmission.KnownExactly` | core/src/ledger/ledger.rs:552-2084 | an external event of a subject held up to c is accepted exactly when it is new, event and request are signed, this node keeps the subject, which is active, its signer may ask for it and it is endorsed or plain as its kind demands, enough validators signed the proof, and: as the next event its proof is of it on this subject and it can be carried out; as a later one it is of no governance, not above the head, and no end of life beside a head |
| `LedgerAdmission.WhyKnownRefused` | core/src/ledger/ledger.rs:552-1740 | which refusal it gets first, in the order of the checks, and that a refusal changes nothing |
| `LedgerAdmission.UnknownExactly` | core/src/ledger/ledger.rs:1534-1657 | of a subject nothing is known of it is accepted exactly when it is new and signed, this node keeps the subject, the proof is of no governance and validated, and a transfer is plain; nobody looks at the signer of a fact, nor at its evaluators |
| `LedgerAdmission.GenesisExactly` | core/src/ledger/ledger.rs:1046-1163 | an external genesis is accepted exactly when it is new and signed, this node keeps the subject and does not have it, it was not evaluated as failed, its signer may create and governance knows the initial state; kind, owner, creator and state are then as it says |
| `LedgerAdmission.OwnGenesisExactly` | core/src/ledger/ledger.rs:181-286 | an own genesis is taken in exactly when the key pair is there and governance answers at its present version, and the subject holds that pair |
| `LedgerAdmission.ReachesStoreExactly` | core/src/ledger/ledger.rs:2092-2230 | a catch-up event is stored exactly when it is new and signed, is the one wanted, and is an endorsed fact or a plain transfer; who signed it is not looked at |
| `LedgerAdmission.NextLeaves` | core/src/ledger/ledger.rs:1317-1396 | all that taking in the next event changes: its row and certificate, the request, the key pair a transfer to this node moves into the subject; the certificate before it stays with a governance only |
| `LedgerAdmission.LaterLeaves` | core/src/ledger/ledger.rs:1407-1490 | all that taking in a later event changes: it is the head with its certificate and proof, and the old head with its certificate, or the last event's certificate, is gone |
| `LedgerAdmission.OwnLeaves` | core/src/ledger/ledger.rs:303-550 | all that taking in an own event changes: as for the next event, but the key pair row of a transfer to this node stays |
| `LedgerAdmission.OwnExactly` | core/src/ledger/ledger.rs:303-550 | an own event is refused exactly when it is a fact other than the next or cannot be carried out, and panics exactly when it could but the subject waits for its genesis |
| `LedgerAdmission.CatchUpLeaves` | core/src/ledger/ledger.rs:2126-2290 | all that taking in a catch-up event changes: its row, the request, the key pairs it and the head use, and the kept proof when the head was next |
| `LedgerAdmission.SourcedExactly` | core/src/ledger/ledger.rs:2682-2881 | a stored event is applied exactly when it names the stored event before it and, carried out, is no creation and applicable, or, rejected, is the subject's next |
| `SubjectHistory.ReplayTells` | core/src/commons/models/state.rs:137-210 | the subject at the end of any chain, told without applying events: created and named as event 0 says, owned by the signer of the last transfer carried out and with the key it names, active unless an end of life was carried out, in the state the approved facts alone lead to |
| `SubjectHistory.StoredTells` | core/src/ledger/ledger.rs:181-2436 | so of every stored subject that keeps the invariant |
| `LedgerInvariant.NextEffectApplies` | core/src/ledger/ledger.rs:1327-1332 | the direct path changes the subject as the reference meaning of the event does, up to private keys, exactly when it is not an end of life of an active subject marked rejected; transfers marked rejected it never sees |
| `LedgerInvariant.OwnEffectApplies` | core/src/ledger/ledger.rs:332-550 | the path of own events does so exactly when a transfer or end of life marked rejected would change nothing |
| `LedgerCatchUp.SourcingApplies` | core/src/ledger/ledger.rs:2714-2881 | so does catch-up, after finding that the event names its stored predecessor, and it writes nothing but the subject |
| `LedgerPreserved.RejectedEolIsCarriedOut` | core/src/ledger/ledger.rs:1659-1833 | the failing input: an end of life that evaluation and approval let pass with a vote against it closes the subject on the direct path, where its events say it goes on |
| `LedgerCatchUp.EolSourcingLagsBehind` | core/src/ledger/ledger.rs:2682-2712 | an end of life reached by catch-up closes the subject but leaves its sn one behind the reference |
| `LedgerPreserved.NextEventLinkedIff` | core/src/ledger/ledger.rs:2539-2607 | the direct path stores a hash-linked event exactly when proof and event name the same predecessor, because it only looks at the proof |
| `LedgerPreserved.NextEventKeepsIff` | core/src/ledger/ledger.rs:1317-1396 | an accepted next event keeps the replica invariant exactly when proof and event name the same predecessor and it is no rejected end of life of an active subject |
| `LedgerPreserved.LaterEventKeepsIff` | core/src/ledger/ledger.rs:1407-1490 | an accepted later event keeps it exactly when it leaves a gap above the current sn, is not at the head's sn, is no end of life and, when rejected, names the subject its request names; that its certificate is of it nothing compares before catch-up ends |
| `LedgerPreserved.SameSnLosesHead` | core/src/ledger/ledger.rs:1464-1478 | the event just stored survives exactly when the old head was not at its sn |
| `LedgerPreserved.ExternalUnknownKeepsIff` | core/src/ledger/ledger.rs:1534-1657 | the first event of an unknown subject that comes with a certificate keeps it exactly when its sn is not 0, it is no end of life and, when rejected, it names the subject its request names |
| `LedgerPreserved.ExternalGenesisKeepsIff` | core/src/ledger/ledger.rs:1046-1163 | an accepted external genesis, whose sn nothing looks at, keeps it exactly when its sn is 0 and no event at sn 1 waits as head |
| `LedgerPreserved.ExternalKeepsIff` | core/src/ledger/ledger.rs:552-2084 | all of these together, for any event at all: the one condition on event, proof and replica that decides whether accepting it keeps the invariant |
| `LedgerPreserved.OwnGenesisKeepsIff` | core/src/ledger/ledger.rs:181-286 | an accepted own genesis keeps it exactly when its sn is 0, the subject is not beyond one, no head is at sn 1, and governance gives at its present version the initial state it gives at the event's version |
| `LedgerPreserved.OwnEventKeepsIff` | core/src/ledger/ledger.rs:303-550 | an accepted own event keeps it exactly when it directly follows and names its predecessor, would change nothing if it is a transfer or end of life marked rejected, and, without a head, is certified together with the signatures already stored |
| `LedgerPreserved.OwnEventKeeps` | core/src/ledger/ledger.rs:303-550 | an own event built on the up-to-date replica and certified keeps the invariant and never panics, even when its patch is refused |
| `LedgerCatchUp.IntermediateKeeps` | core/src/ledger/ledger.rs:2086-2436 | an accepted catch-up event is the one wanted, is stored, keeps the invariant and brings the replica one closer to its head, or onto it |
| `LedgerRefusals.IntermediateExactly` | core/src/ledger/ledger.rs:2086-2436 | a catch-up event is accepted exactly when it passes the checks made before the store and then fits in (link, patch or key pair, and the head when that is next); the invariant is kept exactly when it is not stored or fits in; refused in between it stays stored with its request finished |
| `LedgerRefusals.WrongTransferIsStored` | core/src/ledger/ledger.rs:2170-2230 | the failing input: a transfer at the wanted sn with its flags in order and a wrong predecessor, signed by anyone, is refused, stays stored and breaks the invariant |
| `LedgerRefusals.RequestIsSpent` | core/src/ledger/ledger.rs:2092-2098 | after that even the right event with that request is refused as repeated, by either path |
| `LedgerClosing.ClosedIsAncestry` | core/src/ledger/ledger.rs:2126-2434 | whatever events close the gap, what was stored before is the beginning of every linked chain that ends in the head |
| `LedgerClosing.ClosesExactly` | core/src/ledger/ledger.rs:2126-2434 | given the head's signed ancestry: catch-up can still reach the head exactly when the stored events are the beginning of it, each missing event passes its own checks on the ancestry's own subject, no two share a request or a needed key pair, and the proof that came with the head is of the head |
| `LedgerClosing.ClosedHeadWasCertified` | core/src/ledger/ledger.rs:2230-2290 | whatever is sent, catch-up ends on a head only if the kept proof names that event's hash, predecessor, subject and sn |
| `LedgerClosing.UnrelatedCertificateBlocks` | core/src/ledger/ledger.rs:579-1044 | the failing input: a transfer with its flags in order, further on than the next sn, with a certified proof of anything else becomes the head of a replica that is up to date or unknown, and no catch-up ever gets there |
| `LedgerClosing.ForgeryBlocks` | core/src/ledger/ledger.rs:2126-2290 | a linked event that is not of the head's ancestry, once taken, makes the true one refused and the head unreachable for good |
| `LedgerClosing.FromNothingCloses` | core/src/ledger/ledger.rs:2319-2434 | a node that holds nothing but a head can reach it exactly when, besides that, the genesis of its ancestry passes the checks of a genesis |
| `LedgerRuns.StepKeepsIff` | core/src/ledger/ledger.rs:181-2436 | of any message that is accepted, and of any catch-up event: the node keeps the invariant of every subject exactly when the message fits, a condition on message and replica and nothing taken for granted of the event |
| `LedgerRuns.StepKeeps` | core/src/ledger/ledger.rs:181-2436 | every orderly step, accepted or refused, on any subject, keeps the invariant of every subject of the node |
| `LedgerRuns.ReachableInv` | core/src/ledger/ledger.rs:181-2436 | after any orderly run from an empty database every stored subject is the reference replay of its stored, hash-linked events 0..=sn, heads wait with a certificate (of whatever event) strictly beyond a gap, and without current sn there is no subject |
| `LedgerRuns.RunExtends` | core/src/ledger/ledger.rs:2175-2288 | over any orderly run the current sn never falls and no event up to it is changed or dropped |
| `LedgerRuns.CatchUpProgress` | core/src/ledger/ledger.rs:2126-2434 | k accepted catch-up events close exactly k of the gap; when the gap is closed the state is (head, none), before that it is (wanted - 1 + k, head), and no more are accepted than were missing |
| `LedgerRuns.LaterLceLowersGap` | core/src/ledger/ledger.rs:1433-1490 | a second later event is never accepted above the first, and leaves a smaller, positive gap exactly when it leaves one and is not at the head's sn |
| `LedgerRestart.Init` | core/src/ledger/ledger.rs:96-161 | the loop over stored subjects succeeds exactly when each can be recovered and governance answers, and then the maps are those recovered |
| `LedgerRestart.RecoversExactly` | core/src/ledger/ledger.rs:114-158 | for every replica that keeps the invariant and has its subject the last two stored events give back exactly its state |
| `LedgerRestart.RecoversExactlyWhen` | core/src/ledger/ledger.rs:114-158 | for whatever is stored of a subject at c with its events 0 to c: start-up recovers it exactly when beyond c there is nothing, or one event with a gap before it, and then as (c, that event); otherwise it fails on the sn |
| `LedgerRestart.RefusedAfterStoreFailsStart` | core/src/ledger/ledger.rs:2175-2273 | after any catch-up event that was refused once stored, every start-up fails |
| `LedgerRestart.ClosedByCatchUpFailsStart` | core/src/ledger/ledger.rs:2682-2712 | so does every start-up after an end of life reached by catch-up |
| `LedgerRestart.RestartKeepsIff` | core/src/ledger/ledger.rs:96-161 | a restart never fails on a node that keeps the invariant, and keeps it exactly when no subject was still waiting for its genesis |
| `Validator.Validation.HandleValidationEvent` | core/src/validation/validation.rs:46-152 | answer and new register as a function of the old register, the present governance version and the request |
| `Validator.Validation.CheckSignatures` | core/src/validation/validation.rs:264-287 | the collection of previous signers accepts exactly distinct-signer quorums of allowed validators with no bad signature among them |
| `Validator.NeverEquivocates` | core/src/validation/validation.rs:154-262 | over any run two proofs signed for one subject and sn are similar, at sn 0 equal, and proofs signed for consecutive sns are hash-linked and continue each other |
| `Validator.RegisterNeverFalls` | core/src/validation/validation.rs:160-171 | the registered sn of a subject never falls, and at the same sn the registered proof stays similar |
| `Validator.ResendIsSigned` | core/src/validation/validation.rs:163-169 | a request just signed is signed again exactly when the proof names the key that signed the request: not after a transfer to a new key |
| `ValidatorAnswers.NextIsSigned` | core/src/validation/validation.rs:154-287 | the proof after the registered one is signed exactly when it is for the present version, comes with the registered proof, continues it in everything, and is sealed with the key that one names |
| `ValidatorAnswers.LaterIsSigned` | core/src/validation/validation.rs:154-287 | a proof further on, or of a subject not registered, is signed exactly when a quorum of the previous proof's validators had signed that, it is continued in everything, and the seal is with the key it names |
| `ValidatorAnswers.SameIsSignedAgain` | core/src/validation/validation.rs:160-171 | the registered event is signed again exactly when the proof is the same up to the governance version and sealed with the key it names itself |
| `ValidatorAnswers.GenesisIsSigned` | core/src/validation/validation.rs:195-226 | a genesis proof is signed exactly when it is for the version it names as its first, or for an already registered one is that very proof, and is sealed with its own key |
| `ValidatorAnswers.WhyRefused` | core/src/validation/validation.rs:76-171 | which refusal a request gets: a version too high or too low by its own name, then the seal, then the order of events |
| `ValidatorAnswers.OldKeySeals` | core/src/validation/validation.rs:154-287 | over any run, of two signed proofs of consecutive events the later was sealed with the key the earlier names, and with its own key only to be signed again |
| `Agreement.CommonValidator` | core/src/ledger/ledger.rs:2965-3002 | two certificates whose quorums cannot be met by disjoint sets share a validator allowed by both who signed both |
| `Agreement.MajorityMeets` | core/src/governance/inner_governance.rs:265-277 | majority quorums of one governance version always meet |
| `Agreement.NoFork` | core/src/ledger/ledger.rs:2965-3002 | two certified proofs of one subject whose quorums meet have a common signer, and agree on the event at one sn and link at consecutive sns unless every common signer broke the rules of the validation manager |
| `Agreement.OneHistory` | core/src/ledger/ledger.rs:2714-2881 | two linked chains that end in the same event have identical event contents from genesis on |
| `Agreement.SameLastEvent` | core/src/ledger/ledger.rs:2714-2881 | two nodes up to date on the same event, by whatever path, hold the same events from genesis on and the same subject up to private keys |
| `Agreement.ReplicasAgree` | core/src/ledger/ledger.rs:303-2436 | two nodes up to date at the same sn, by whatever path, whose certificates share one honest signer, hold the same events and the same subject up to private keys |
| `Agreement.AgreeForever` | core/src/ledger/ledger.rs:303-2436 | and whatever each receives afterwards they keep agreeing on those events |
| `Validator.SignedAreRooted` | core/src/validation/validation.rs:172-262 | over any run, whatever a validator signs beyond genesis continues a proof it signed itself or saw certified |
| `AgreementPrefix.EndorsedOnce` | core/src/ledger/ledger.rs:2965-3002 | at one sn a quorum of validators stands behind one event only, even when they signed different proofs of it |
| `AgreementPrefix.EndorsedPredecessor` | core/src/validation/validation.rs:172-287 | if a quorum stands behind an event, one stands behind the predecessor it names |
| `AgreementPrefix.PrefixAgreement` | core/src/ledger/ledger.rs:303-2436 | of two replicas up to date at different sns the shorter history is the beginning of the longer, and its subject is what the longer one had there |
| `CompleterHandlers.EventCompleter.NewEvent` | core/src/event/event_completer.rs:528-807 | the new flow state as a function of the old one for facts, transfers and ends of life |
| `CompleterHandlers.EventCompleter.CountSignatures` | core/src/event/event_completer.rs:1634-1649 | the loop counts, for one response hash, the entries for success and for failure |
| `CompleterHandlers.EventCompleter.EvaluatorSignatures` | core/src/event/event_completer.rs:809-1097 | the new flow state after an evaluation: recorded, counted, and on to approval or validation |
| `CompleterHandlers.EventCompleter.ApproverSignatures` | core/src/event/event_completer.rs:1099-1299 | the new flow state after a vote |
| `CompleterHandlers.EventCompleter.ValidationSignatures` | core/src/event/event_completer.rs:1301-1503 | the new flow state after a validation, and what is handed to the ledger |
| `CompleterHandlers.EventCompleter.NewGovernanceVersion` | core/src/event/event_completer.rs:283-384 | the new flow state of one affected subject after a governance update |
| `CompleterEvents.EvaluatorsHold` | core/src/event/event_completer.rs:911-960 | the evaluators counted at a quorum satisfy a verifier exactly when all of them evaluated to the last response's patch, which the grouping hash leaves out, and with a quorum of zero only if it succeeded |
| `CompleterEvents.EvaluatedEventVerifies` | core/src/event/event_completer.rs:1038-1052 | an event that needs no approval passes another node's check exactly when, besides, governance's version is still the one evaluated for |
| `CompleterEvents.DecidedEventVerifies` | core/src/event/event_completer.rs:1203-1255 | an approved or rejected event passes exactly when governance's version is still the proposal's and the proposal's evaluators hold |
| `CompleterEvaluations.FactIsAsked` | core/src/event/event_completer.rs:495-807 | a fact is put to all its evaluators exactly when it is signed and new, the subject active, owned and idle, the signer is this node or may invoke, and governance tells version and evaluators that can reach their quorum |
| `CompleterEvaluations.EvaluationStep` | core/src/event/event_completer.rs:809-1097 | an answer that counts moves the subject on exactly when with it as many evaluators as the quorum, or for failure as refuse it, have reported its result: to approval if asked for, else to validation, with this response and all their signatures; until then the subject waits and this evaluator is not asked again |
| `CompleterEvaluations.AgreementMovesOn` | core/src/event/event_completer.rs:809-1097 | agreeing answers, whoever gives them, move the subject on exactly when with those that agreed before they are as many as are needed |
| `CompleterEvaluations.AllAgreeingClose` | core/src/event/event_completer.rs:809-1097 | if all evaluators agree evaluation is over by the last answer |
| `CompleterValidations.PlainIsPutToAll` | core/src/event/event_completer.rs:386-437 | a transfer or end of life is put to all validators exactly when it is signed and new, the subject active, owned and idle, the key pair of a transfer to this node is there, an end of life is the owner's, and the last event, its certificate, the version and the validators are known; event and proof as they are written |
| `CompleterValidations.ValidationStep` | core/src/event/event_completer.rs:1301-1503 | a validation that counts hands the event over exactly when with it the validators are as many as the quorum, with all their signatures, and leaves nothing of it; until then this validator is not asked again; one that does not count changes nothing |
| `CompleterValidations.ValidatorsHandOver` | core/src/event/event_completer.rs:1301-1503 | validators all different hand the event over exactly when they come to the quorum, in whatever order, with the signatures that made it |
| `CompleterRuns.StepKeeps` | core/src/event/event_completer.rs:495-1503 | every message keeps the flow invariant over the database as it is, and what it hands to the ledger carries out a request that this node could take, follows the stored subject, passes the check of evaluation and approval, and comes with a certified proof of it |
| `Delivery.DeliveredExactly` | core/src/ledger/ledger.rs:552-2084 | brought to any node that stands on the same event with the same public subject, a hand-over is accepted exactly when the signer of an end of life is the creator, the signer of a fact is the owner or may invoke, its patch applies, and a transfer to that node finds its key pair |
| `Delivery.NewOwnersEndOfLife` | core/src/ledger/ledger.rs:1703-1708 | the failing input: the end of life an owner asks for who is not the creator is built, put to validation and taken in by its own ledger, and refused by every other node with the same subject whatever certificate comes with it |
| `CompleterFrames.StepTidy` | core/src/event/event_completer.rs:495-1503 | every entry belongs to the one phase its subject is in, and a hand-over leaves nothing of its subject in the flow |
| `JointRuns.FlowFrame` | core/src/event/event_completer.rs:495-1503 | a flow survives any change of the database at subjects that have none |
| `JointRuns.StepKeeps` | core/src/event/event_completer.rs:495-1503 | every step of completer and ledger together, hand-overs taken in as own events and begun requests filed, keeps both invariants |
| `JointRuns.CompleterAgrees` | core/src/event/event_completer.rs:1301-1503 | over any guarded run of completer and ledger from a new node, with many events of many subjects under changing governance versions: the ledger's invariant holds; every event under validation passes the check of evaluation and approval; every hand-over is certified, orderly, and taken in by its own ledger exactly when it can be carried out; and any other node that stands on the same event accepts it exactly when, besides, an end of life is not asked for by an owner who is not the creator, after which both stand together again |
| `JointRuns.BegunOnce` | core/src/event/event_completer.rs:506-513 | over any guarded run, a request work has once begun on is refused ever after, even if its event came to nothing |
| `CompleterRuns.HandedIsOrderly` | core/src/event/event_completer.rs:1452-1487 | what is handed over for an up-to-date subject is what the ledger invariant asks of an own event |
| `CompleterVotes.VoteStep` | core/src/event/event_completer.rs:1173-1204 | a counted vote either closes the vote with its own answer at that answer's quorum, or leaves votes and remaining approvers a partition of all approvers with one fewer to ask |
| `CompleterVotes.VoteDecides` | core/src/event/event_completer.rs:1099-1299 | when all have voted the vote is closed, approved exactly when the votes in favour make the quorum, in every order |
| `CompleterVotes.OpenAsksSomeone` | core/src/event/event_completer.rs:1183-1204 | an open vote always has someone left to ask |
| `CompleterUpdates.HandOverAfterUpdate` | core/src/event/event_completer.rs:283-377 | from a governance update to the hand-over: the signers that count for the present proof are exactly those that signed since the update, so the hand-over is certified exactly when they are as many as the quorum, though kept signatures of former proofs can make it come earlier |
| `CompleterUpdates.UpdateBlockedIff` | core/src/event/event_completer.rs:290-300 | an update fails at a subject because of its request exactly when the request kept is no fact |
| `CompleterUpdates.PlainEventBlocksUpdate` | core/src/event/event_completer.rs:386-437 | a transfer or end of life whose validation has begun is such a request |
| `CompleterUpdates.SurvivesUpdate` | core/src/event/event_completer.rs:302-377 | a fact under validation at an update passes the event check under the new proof's version exactly when those who evaluated and approved it are still allowed to and still enough |
| `CompleterUpdates.UpdateRestarts` | core/src/event/event_completer.rs:288-300 | a fact request that is kept starts again at evaluation under the present version, and votes on what was proposed for it are refused |
| `CompleterUpdates.UpdateFailsWithRequest` | core/src/event/event_completer.rs:288-300 | where a kept request cannot start again the update fails as the request does, and an event under validation is not validated again |
| `CompleterUpdates.FormerAnswersAreWasted` | core/src/event/event_completer.rs:813-1052 | answers to the evaluation asked for before the update are still counted, and an event they complete without need of approval passes no node's check |
| `Genesis.CreatedIsTakenIn` | core/src/event/event_completer.rs:534-618 | what a creator builds is accepted as external genesis by any node that lacks the subject, which then has the creator as owner and keeps the replica invariant exactly unless an event at sn 1 waits as head |
| `Genesis.CreatedIsValidated` | core/src/validation/validation.rs:195-226 | a validator without a register signs the creator's proof exactly when its governance version and the signing key are the creator's |
| `Genesis.CreatedExactly` | core/src/event/event_completer.rs:534-640 | a creator builds event and proof exactly when the request is its own, it has the keys, and governance lets it create and knows the initial state; both are as they are written |
| `ApproverHandlers.ApprovalManager.SplitPending` | core/src/database/layers/approvals.rs:95-169 | the loop of both index reads separates exactly the pending ids from the rest |
| `ApproverHandlers.ApprovalManager.ProcessApprovalRequest` | core/src/approval/inner_manager.rs:177-317 | answer and new collections as a function of the old ones |
| `ApproverHandlers.ApprovalManager.GenerateVote` | core/src/approval/inner_manager.rs:319-367 | the same for a vote |
| `ApproverHandlers.ApprovalManager.NewGovernanceVersion` | core/src/approval/inner_manager.rs:129-175 | the loop deletes exactly the pending requests of the governance from the entities and both indexes |
| `Approver.StepKeeps` | core/src/approval/inner_manager.rs:129-367 | every step keeps entities and indexes consistent and every answered entity as it is, and what it answers is what it stores |
| `Approver.NewVersionKeeps` | core/src/approval/inner_manager.rs:129-175 | a governance update deletes a stored request exactly when it is pending and of that governance, and keeps the invariant |
| `Approver.AnswersOnce` | core/src/approval/inner_manager.rs:129-367 | over any run of requests, votes, governance updates and obsoletions, any two responses given for one request are the same |
| `Approver.TwoPendingBlock` | core/src/approval/inner_manager.rs:226-240 | a new request is refused for a full queue exactly when its subject has two pending ones |
| `ApproverAnswers.VoteIsTheUsers` | core/src/approval/inner_manager.rs:319-367 | a user's vote is given exactly when the request is stored, unanswered and of a fact or creation, and what is signed, sent to the asker and stored is that vote |
| `ApproverAnswers.FiledExactly` | core/src/approval/inner_manager.rs:216-280 | a request seen for the first time is taken in exactly when it is for governance's present version and at most one other of its subject is pending, that for an earlier event |
| `ApproverAnswers.WhyNotFiled` | core/src/approval/inner_manager.rs:216-280 | which refusal a request not taken in gets: the first that holds, in the order of the checks |
| `ApproverAnswers.NewRequestIsAnswered` | core/src/approval/inner_manager.rs:280-317 | taken in, it is answered at once exactly when the node does not leave votes to its user, and with a yes exactly when it always accepts; not taken in, no entity changes |
| `ApproverAnswers.AskedAgain` | core/src/approval/inner_manager.rs:204-217 | asked again, an answered request gets the answer it got, sent to the first asker, and an unanswered one none |
| `Namespaces.ContainsIsSegmentPrefix` | core/src/governance/inner_governance.rs:591-614 | a namespace contains another exactly when it is empty or its dot-separated segments are a prefix of the other's |
| `Namespaces.ContainsIsPartialOrder` | core/src/governance/inner_governance.rs:591-614 | containment is reflexive, transitive and antisymmetric on all strings, with the empty one on top |
| `Roles.GetMembers` | core/src/governance/inner_governance.rs:550-584 | the loop succeeds exactly when every id is a key and neither ids nor names repeat, and then lists exactly the rows |
| `Roles.GetSignersAux` | core/src/governance/inner_governance.rs:108-174 | despite its early return the loop gives exactly the keys granted by some matching role; it errs exactly when a faulty matching role comes before any that admits all members |
| `Roles.GetSigners` | core/src/governance/inner_governance.rs:178-232 | never empty: exactly the members some role that is about the subject lets sign, or the owner alone when there are none |
| `Roles.OrderDoesNotMatter` | core/src/governance/inner_governance.rs:108-174 | what is granted does not depend on the order of the roles |
| `Roles.GrantedExactly` | core/src/governance/inner_governance.rs:108-174 | the keys granted are those of members whom some role lets sign that carries the stage's name, is for the schema, and is for a namespace whose segments begin the subject's |
| `Roles.InvokedExactly` | core/src/governance/inner_governance.rs:327-388 | the same of who may create or invoke, members or not |
| `Roles.FaultExactly` | core/src/governance/inner_governance.rs:108-174 | the signers are not told exactly when a role that is about the subject names no key or no member, and no role before it lets all members sign |
| `Roles.UnknownNameExactly` | core/src/governance/inner_governance.rs:327-388 | who may invoke is not told exactly when such a role has an unknown name, and none before it lets the key in |
| `Roles.RolesReachDown` | core/src/governance/inner_governance.rs:591-614 | a role for a namespace is for every namespace below it and for none above it |
| `Roles.IssueCreateInfo` | core/src/governance/inner_governance.rs:327-388 | true exactly when some role that is about the subject lets the invoker in; it errs exactly when an unknown name comes before |
| `Roles.ReachableExactly` | core/src/governance/inner_governance.rs:270-277 | a quorum lies between one and all signers always by majority, and otherwise exactly for a fixed number within the signers or a fraction in (0, 1] |
| `GovernanceReplay.GovernanceEventSourcing` | core/src/governance/inner_governance.rs:477-512 | the loop succeeds exactly when the recursive replay does and gives its subject |
| `GovernanceReplay.HistoricAgreesIff` | core/src/governance/inner_governance.rs:494-504 | the historic governance has, at every version up to n, the properties and sn the ledger's subject had then, exactly when every event but approved facts carries a patch that would have changed nothing |
| `GovernanceReplay.ApprovedChainAgrees` | core/src/governance/inner_governance.rs:477-512 | on chains of approved facts, transfers and ends of life, shortcut and replay agree with the ledger at every version |
| `GovernanceReplay.HistoricOwnerIsTheCreator` | core/src/governance/inner_governance.rs:490-504 | the replay never moves the owner, so the fallback signer of earlier versions is always the creator |
| `GovernanceReplay.AnsweredExactly` | core/src/governance/inner_governance.rs:477-512 | a governance is answered for at its present version as it is stored, at an earlier one exactly when its first events are stored and their patches apply one after the other, then in the state they lead to, and at a later one never |
| `Witnesses.Distribution.StartDistribution` | core/src/distribution/inner_manager.rs:245-295 | records and outgoing message as a function of the old records |
| `Witnesses.Distribution.CheckBatch` | core/src/distribution/inner_manager.rs:497-506 | the loop accepts a batch exactly when every signer is a target and every signature is on the stored event |
| `Witnesses.Distribution.SignaturesReceived` | core/src/distribution/inner_manager.rs:451-537 | records and outgoing message as a function of the old records and the batch |
| `Witnesses.RunKeeps` | core/src/distribution/inner_manager.rs:245-537 | over any run, with the ledger writing in between, every held signature verifies against the event at the recorded sn and is this node's own or came when its signer was a target |
| `Witnesses.LedgerLeavesWitnessed` | core/src/distribution/inner_manager.rs:245-270 | a ledger that never rewrites what it has replayed leaves the events being witnessed as they are |
| `Witnesses.ProvidedVerify` | core/src/distribution/inner_manager.rs:357-381 | every signature given to another node was asked for and verifies |
| `Witnesses.MergedExactly` | core/src/distribution/inner_manager.rs:451-537 | what is held after any batches is what was held before and whatever came in acceptable batches |
| `Witnesses.OrderDoesNotMatter` | core/src/distribution/inner_manager.rs:451-537 | so under fixed targets the order of batches does not matter |
| `Witnesses.CancelExactly` | core/src/distribution/inner_manager.rs:507-530 | the request is cancelled exactly when every target but this node has signed, and otherwise asks for exactly those missing |
| `Witnesses.StartAsksAll` | core/src/distribution/inner_manager.rs:245-295 | a stored event is held with this node's signature alone, and exactly the witnesses governance names and the owner are asked, this node apart |
| `Witnesses.MergedWhen` | core/src/distribution/inner_manager.rs:451-537 | a batch is merged exactly when it is for the event being witnessed and every signature is a witness's or the owner's on that event |

## Left out

- LedgerRuns.ReachableInv: speaks of orderly runs, because `LedgerRuns.StepKeepsIff` proves that an accepted message outside them breaks the invariant; own events and repeated own geneses apart, as said above.
- LedgerRuns.RunExtends: speaks of orderly runs, for the same reason.
- Agreement.ReplicasAgree: starts at sn 1, because no certificate of a genesis event is kept by the nodes that receive it.
- AgreementPrefix.PrefixAgreement: assumes that the proofs shown to validators name the predecessor their event names, because validators never see the event.
- JointRuns.CompleterAgrees: asks that evaluators report the same patch for the same result and that no governance advances under an event in progress, because `CompleterEvents` proves that both are needed; so the completer's reaction to a governance update is no message of a joint run, and which events survive one is `CompleterUpdates.SurvivesUpdate` and its neighbours instead.
- CompleterHandlers.EventCompleter.NewGovernanceVersion: is one affected subject's part, without the loop; that the subject is among the affected ones is assumed, since for events after genesis the source files the governance under itself instead of the subject (core/src/event/event_completer.rs:793-796).
- CompleterHandlers.EventCompleter.NewEvent: the `Create` branch is `Genesis.Create` instead, and the request it begins work on is filed as known (core/src/event/event_completer.rs:801) by `JointRuns.Began`, because the handler as a method does not own the database.
- CompleterVotes.VoteDecides: asks that governance answers and the last certificate is stored, because otherwise no event can be built whatever the votes.
- Genesis.CreatedIsTakenIn: the difference between the empty document and the initial state is a parameter, because the crate that computes it is not part of this model.
- LedgerHandlers.Ledger.ExternalEvent: witness and preauthorization lookups are one parameter, and the ledger's obsoletion of approvals is a step of the approver instead.
- Roles.ReachableExactly: percentages are real numbers, so floating-point rounding of `PERCENTAGE` is not captured.
- Integer widths of sn and of counters: sn is unbounded and has no wrap-around; the one unsigned subtraction that panics (quorum above signers) is modelled.
- Subjects, entities and events are values inside the stores, because the stores hold serialized copies: no aliasing between them exists in the code.
- Derivators: one digest and one signature scheme stand for all of them.
- Own signatures on events, proofs and proposals are not built, except those of approvers and witnesses; only their verification is modelled.
- The completer's `Create` branch is modelled up to the event and its proof; its phases under validation are not.
- Database failures other than a missing entry, and which fault a loop over a hash set meets first.
- The pending list of approvals, which only serves listing.
- Outgoing requests for missing events, notifications and logging; of outgoing messages only those of the distribution and the hand-over to the ledger are kept.
- The witness cache of `InnerDistributionManager::init`, and distribution's reaction to governance updates.
- Evaluator, contracts, network, message transport, API, settings and key generation.
- Allocation by declared length and recursion depth in the JSON reader.
- JSON Schema texts and the reading of roles, members and policies from JSON; they are data types here.
