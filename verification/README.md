# Kawa, verified

A Dafny model of Kawa's event log and the machinery around it, with its central
promises proved for every input, every run and every reachable state.

Kawa keeps typed events in per-origin hash chains, replicates them between nodes through
a trust gate, and derives projections (plans, works, dependency edges, claim standings)
that are meant to be functions of the facts and of nothing else. Authority over two
operations, fork resolution and policy succession, rests on quorum-signed configurations
and receipts read back from the same log.

## How the model is laid out

| file | what it holds |
|---|---|
| `Text.dfy` | code-point order, decimals, and a canonical document rendering proved injective; the digest is that rendering, so collision freedom is a theorem |
| `Vocabulary.dfy` | payloads, envelopes, the versioned hash preimages, envelope verification |
| `Hlc.dfy` | the clock stamp's grammar, the causal total order, the clock object |
| `Support.dfy` | what a claim's standing means, and the explicit-stack search that decides it |
| `Fold.dfy`, `Confluence.dfy`, `Convergence.dfy`, `Schedules.dfy` | the projections as a step machine (arrive, insert, reduce, truncate), its invariant, the closed form every complete schedule reaches, and the exact places where the schedule shows |
| `Newest.dfy` | what every complete run shows, said on the stamps themselves |
| `Reducers.dfy` | the reducers as an object updating its tables in place, proved against that step relation |
| `Trust.dfy` | the trust registry: values, runs, and the object |
| `Authority.dfy` | configurations, the backward and the forward walk, receipts |
| `Contract.dfy` | the bounded authority model, lifted from three nodes to every size |
| `Replication.dfy`, `Ledger.dfy`, `Freezing.dfy`, `Pull.dfy`, `Emission.dfy`, `Gate.dfy` | one delivered event, what a batch keeps, the once-only ledger of reductions, fork freezing, one anti-entropy pull, the write path, the receipt-gated operations |
| `Admitting.dfy`, `Policies.dfy` | over batches and whole runs: what it takes for an envelope to be held, for its bytes to be kept and for a rival to become evidence; where every policy in the lineage came from |
| `Node.dfy`, `Runs.dfy` | the store object with its methods, and whole runs of a node over any interleaving of its operations |
| `DeadEnds.dfy`, `Witnesses.dfy` | what a refused resolution leaves, which refrozen fork points can still be released, and concrete runs that exhibit both |
| `Plan.dfy`, `Fairness.dfy`, `Candidates.dfy`, `Neighborhood.dfy`, `Distances.dfy` | bounded retrieval: budgets, balanced evidence, candidate windows, the capped expansion |
| `Mirror.dfy`, `Sections.dfy` | the fast-export rewriter and the heading-stack splitter |

Tables are maps and sets, one transaction is one step, and an insert that ignores
conflicts is insert-if-absent. Signatures are an arbitrary set of attestations that
verify. Wall-clock readings are arguments. `dafny verify dfyconfig.toml` checks the whole
project.

## Where the code and its description part

Each of these is a theorem here, with its condition; where a run or an input shows it, the
member that exhibits it is named.

- A work's execution is a function of the facts only when it is not policy-sensitive: when
  one work's dependency declarations carry both policies, the row read first decides
  (`Convergence.ArrivalOrderIsIrrelevant` one way; `Schedules.PolicySensitivityShows` gives
  the two runs for every such work).
- A link's `resolved` flag depends on arrival order exactly when its target is held only
  as a stub (`Schedules.ResolvedIsHeld`; `Schedules.StubEndpointShows` gives the two runs).
- A pull is taken back whole exactly when it brings the bytes of a held stub that already
  carries its cleartext scope: the update trigger refuses that upgrade and the batch is one
  transaction (`Pull.PullLands`). `Pull.RelayPlants` shows how such a stub comes to be held.
- Establishing a policy bundle that was in the lineage before leaves the lineage with no
  head, exactly then (`Gate.EstablishKeepsOneHead`; bundles a, b, a again:
  `Witnesses.ReturningPolicyLeavesNoHead`).
- A fork point that is resolved and then frozen again by another rival can be released
  exactly when the receipt that resolved it authorizes that once more
  (`DeadEnds.ReleasableNow`): its policy is in force, its configuration is the head of its
  key and a quorum of its signers is active (`DeadEnds.ReleasableExactly`). When the policy
  has been superseded, the configuration succeeded or blocked by a rival, or too few
  members are left unrevoked, it stays frozen for ever (`DeadEnds.RefrozenForever`). Runs
  that can release such a point and, one step later, never again:
  `Witnesses.SuccessionTraps`, `Witnesses.RevocationTraps`.
- A refused resolution of a point leaves revocations behind for some order of its rows
  exactly when the receipt authorizes it, another receipt resolved one row, and a frozen row
  names an unrevoked rival against the chosen head (`Gate.RefusalLeavesTrace` for the walk,
  `DeadEnds.RefusalCanStrike` for the step; a run: `Witnesses.RefusalStrikes`).
- A rival envelope that already has an evidence row freezes its origin for the rest of the
  batch but not durably (`Freezing.DurableFreeze`; a run:
  `Witnesses.OldRivalFreezesOnlyTheBatch`).
- Registering a key under another node's genesis incarnation breaks incarnation attribution
  when that node next rotates from a key that was never bound (`Trust.AttributionStep`; a
  history: `Trust.AttributionCanBreak`).
- A wide viewer loses sight of unscoped events exactly when eight of its scopes sort before
  the public sentinel (`Candidates.PublicIsConsulted`; eight such scopes:
  `Candidates.PublicCanBeLeftOut`).
- A configuration in a receipt's line can be overwritten in the proof store by another that
  carries its digest. That takes a VALID receipt's standing away exactly when the newcomer
  cannot play the old one's part in the line (`Authority.OverwriteDecides`).
- The head of a key can be taken away by fewer signatures than its own quorum, where an
  ancestor asked for fewer (`Witnesses.AncestorsQuorumMovesHead`); configurations that fewer
  than a quorum of the named parent's members attest never move it
  (`Authority.UnsupportedMoveNothing`).
- The forward walk never meets a digest again, so no input takes its cycle branch
  (`Authority.CurrentConfiguration` carries it as `assert false`).

## Model

| member | source | states |
|---|---|---|
| Vocabulary.PayloadDigestInjective | kawa/domain/ids.py:35-46 | no two payloads share a committed digest |
| Vocabulary.IdentityCommits | kawa/domain/ids.py:49-93 | two verified envelopes with one identity agree on every committed field, on the bytes and on the cleartext scope, across both envelope versions |
| Hlc.RoundTrip | kawa/domain/ids.py:129-150 | a rendered stamp parses back exactly when the store can hold it and the node is named |
| Hlc.ParseMeans | kawa/domain/ids.py:129-150 | a stamp is read if and only if it is two decimal numerals the store can hold and a name, set off by the first two dots, and reads as those |
| Hlc.KeyTotal | kawa/domain/ids.py:216-252 | the causal order is total and irreflexive |
| Hlc.KeyTransitive | kawa/domain/ids.py:216-252 | the causal order is transitive |
| Hlc.KeyFollowsClock | kawa/domain/ids.py:216-252 | a reading past another comes after it; at one reading the origin decides in code-point order, then the id |
| Hlc.Clock.Tick | kawa/domain/ids.py:270-276 | the next reading is the least one past the last and not behind the wall clock |
| Hlc.Clock.Update | kawa/domain/ids.py:278-291 | a merge is past both clocks and is the least such reading at the newest physical time |
| Support.IsGrounded | kawa/projections/reducers.py:384-397 | the stack search answers exactly whether a supports-path runs from an observation through claims that are not superseded, cycles included |
| Support.StandingDependsOnLinksIntoClaims | kawa/projections/reducers.py:360-417 | standing depends only on links into claims, so unresolved endpoints elsewhere cannot move it |
| Support.VerdictReads | kawa/projections/reducers.py:360-417 | any supersession retires its claim; otherwise a claim is disputed if and only if an observation or a claim not superseded contradicts it |
| Support.SupportSpreads | kawa/projections/reducers.py:384-397 | a claim is supported if and only if an observation supports it, or a supported claim that is not superseded does |
| Support.NothingSupportsItself | kawa/projections/reducers.py:384-397 | without observations nothing is supported, cycles included |
| Convergence.EveryScheduleConverges | kawa/projections/reducers.py:218-336 | every interleaving of arrivals, inserts, reductions and rebuilds, once every fact is reduced, is in the closed form of the fact set |
| Convergence.ArrivalOrderIsIrrelevant | kawa/projections/reducers.py:246-293 | two complete runs over the same facts agree on quarantine, edge states, plans, standings, row presence and identity, and on execution of every work that is not policy-sensitive |
| Schedules.PolicySensitivityShows | kawa/projections/reducers.py:253-257 | for every policy-sensitive work two complete runs over the same facts end blocked and ready: the other half of the equivalence |
| Schedules.RebuildReproduces | kawa/projections/reducers.py:588-609 | truncating and replaying over full fact tables, in any order, lands on the states incremental application reached |
| Schedules.ResolvedIsHeld | kawa/projections/reducers.py:226-231 | without a stub at the target, the resolved flag says whether the target is held |
| Schedules.SourceKnownIsHeld | kawa/projections/reducers.py:232-246 | without a stub at the source, the source's scope is filled in exactly when the source is held |
| Schedules.StubEndpointShows | kawa/projections/reducers.py:301-310 | with one, two runs over the same envelopes end with the flag set and clear |
| Newest.NewestResultShows | kawa/projections/reducers.py:50-57 | in every complete run a derived, unretired work shows the outcome of its result with the greatest (physical, logical, origin, id) among those that keep their key |
| Newest.NewestDerivationShows | kawa/projections/reducers.py:114-147 | its row repeats its newest derivation |
| Newest.RetirementShows | kawa/projections/reducers.py:128-131 | a retired work shows its retirement, whatever else is known |
| Newest.ReadinessShows | kawa/projections/reducers.py:420-452 | without results it is ready if and only if all its dependencies came out (ALL), or one did or there is none (ANY) |
| Newest.NewestResultOnEdge | kawa/projections/reducers.py:29-42 | an edge shows the retirement of its dependency or else the outcome of that one's newest result |
| Newest.NewestPlanShows | kawa/projections/reducers.py:173-194 | a plan shows its newest creation and the lifecycle of its newest lifecycle fact |
| Newest.OldestKeepsKey | kawa/projections/reducers.py:59-94 | a result is quarantined if and only if an older result of the work carries its occurrence key |
| Newest.RowNamesOldest | kawa/projections/reducers.py:69-111 | and the row of a quarantined result names the work, the key and the oldest result that carries it |
| Reducers.Projector.RequarantineOccurrence | kawa/projections/reducers.py:69-111 | in place: all but the causally first consumer of an occurrence key are quarantined, rows already there kept |
| Reducers.Projector.RecomputeWorkState | kawa/projections/reducers.py:114-147 | in place: the row becomes current for the facts, every other row untouched |
| Reducers.Projector.PropagateToDependents | kawa/projections/reducers.py:150-170 | in place: exactly the edges onto the work are re-resolved and their dependents' rows renewed |
| Reducers.Projector.RecomputePlanState | kawa/projections/reducers.py:173-194 | in place: the plan row is the closed function of the facts |
| Reducers.Projector.RecomputeStanding | kawa/projections/reducers.py:360-417 | in place: the standing table equals its graph definition |
| Reducers.Projector.Reduce | kawa/projections/reducers.py:218-336 | in place: one reduction is one step of the abstract machine |
| Reducers.Projector.Deliver | kawa/projections/reducers.py:218-336 | inserting and reducing one fact at a time keeps the invariant and stays in closed form |
| Reducers.Projector.Rebuild | kawa/projections/reducers.py:588-609 | truncation and replay in any order end in closed form |
| Trust.ForwardOnly | kawa/domain/trust.py:201-215 | over every run and continuation a key's node never changes and a revoked (key, seq) stays revoked |
| Trust.ScopedRevocation | kawa/domain/trust.py:156-178 | a scoped revocation withdraws trust from the fork on and spares the trunk |
| Trust.LineageAcyclicWithinNode | kawa/domain/trust.py:115-142 | incarnation parent chains are acyclic and stay within one node |
| Trust.AttributionStep | kawa/domain/trust.py:180-199 | an operation keeps keys on incarnations of their own node unless it falls back on a squatted genesis, exactly |
| Trust.AttributionCanBreak | kawa/domain/trust.py:74-93 | a two-step history from the empty registry where it does |
| Trust.GrantStep | kawa/domain/trust.py:99-113 | granting adds exactly the scope, revoking removes exactly it, no other node's grants move |
| Trust.RotationStep | kawa/domain/trust.py:180-199 | an accepted rotation leaves an active old key rotated at every position, the new one active for the node on the old one's incarnation, and no other key moved |
| Trust.EnrolmentStep | kawa/domain/trust.py:74-97 | an accepted enrolment binds its key, active everywhere, to the incarnation named or the genesis, and moves no other |
| Trust.SuccessionStep | kawa/domain/trust.py:115-142 | an accepted succession binds a new key to a new incarnation under its recorded parent, and moves no other |
| Trust.RevocationStep | kawa/domain/trust.py:156-178 | what total and scoped revocation leave of a key at every position; no other key moves |
| Trust.RotatedUntilRevived | kawa/domain/trust.py:180-199 | over every run a key judged rotated is judged active again only after an accepted enrolment of it or rotation to it |
| Trust.AcceptedExactly | kawa/domain/trust.py:74-199 | an operation is carried out if and only if it binds no key of another node or revoked, joins no other node's incarnation, and a succession starts afresh under a recorded parent |
| Trust.TrustRegistry.Enroll | kawa/domain/trust.py:74-97 | in place: refusals in order, and the registry after |
| Trust.TrustRegistry.Rotate | kawa/domain/trust.py:180-199 | in place: refusals in order, and the registry after |
| Trust.TrustRegistry.SucceedIncarnation | kawa/domain/trust.py:115-142 | in place: refusals in order, and the registry after |
| Trust.TrustRegistry.Revoke | kawa/domain/trust.py:156-178 | in place: scoped and global revocation, and escalation from one to the other |
| Authority.CoordinateBinds | kawa/domain/authority.py:53-70 | two configurations sharing a coordinate differ at most in member order and proof |
| Authority.CollectSigners | kawa/domain/authority.py:110-131 | the loop collects exactly the distinct allowed signers whose signatures verify |
| Authority.VerifyConfiguration | kawa/domain/authority.py:206-248 | VALID exactly on a rooted, unrivalled line of valid links, and only if each step is attested by a quorum of the parent's members and the root by all of its own; INCOMPLETE exactly when an ancestor is missing |
| Authority.SuccessionExactly | kawa/domain/authority.py:171-188 | a succession is accepted if and only if it is sound, keeps the members, is the next epoch, and its proof carries a quorum of the parent's members with attested signatures |
| Authority.GenesisExactly | kawa/domain/authority.py:191-203 | a genesis if and only if it is sound, of epoch zero, and its proof carries every one of its members |
| Authority.CurrentConfiguration | kawa/domain/authority.py:251-281 | a head exactly when one complete forward line exists, attested quorum by quorum down to a unanimous root; INCOMPLETE exactly without a facially valid genesis while the key is held |
| Authority.UnsupportedMoveNothing | kawa/domain/authority.py:171-188 | configurations attested by fewer than a quorum of the members of the parent they name, or would-be geneses not attested by all of their own, leave the head where it is, however many arrive |
| Witnesses.AncestorsQuorumMovesHead | kawa/domain/authority.py:171-188 | fewer signatures than the head's own quorum do move it where an ancestor asked for fewer |
| Authority.ForwardImpliesBackward | kawa/domain/authority.py:251-281 | the forward head is VALID for the backward walk and has no successor |
| Authority.BackwardImpliesForward | kawa/domain/authority.py:206-248 | a VALID configuration without a successor is the forward head for its genesis key |
| Authority.LineShape | kawa/domain/authority.py:171-203 | along a valid line epoch equals depth and the members never change |
| Authority.VerifyReceipt | kawa/domain/authority.py:285-326 | the three-state verdict, by what is held; VALID only for the head's own receipt, of its key and epoch, attested by a quorum of the head's members whose keys stand active |
| Authority.QuorumExactly | kawa/domain/authority.py:319-326 | the quorum is met if and only if the proof carries that many members of the configuration whose keys stand active |
| Authority.IncompleteReads | kawa/domain/authority.py:285-326 | INCOMPLETE if and only if the named configuration is not held, or it is of the key and epoch asked and no held genesis of that key is attested by all its members |
| Authority.OneAuthority | kawa/domain/authority.py:285-326 | at any moment at most one configuration can exercise a key |
| Authority.SupersededForever | kawa/domain/authority.py:171-188 | once a configuration has a facially valid successor no receipt under it is VALID in any grown store |
| Authority.CurrencyNeverReturns | kawa/domain/authority.py:251-281 | a configuration that was the head and is not any more is not the head in any grown store |
| Authority.NoiseIsInert | kawa/domain/authority.py:136-152 | adding a configuration that is no valid genesis and no valid successor changes no verdict on a held receipt |
| Authority.OverwriteDecides | kawa/domain/authority.py:136-152 | a configuration that overwrites a member of a VALID receipt's line under its digest keeps the verdict if and only if it plays the same part in the line |
| Authority.AdditionDecides | kawa/domain/authority.py:136-152 | one whose digest is off that line, new or not, keeps it if and only if it is no second genesis for the key and no rival successor on the line |
| Authority.DriftedKeyIsInert | kawa/domain/authority.py:171-188 | a line whose tip changed its authority key exercises nothing |
| Authority.QuorumLossIsPermanent | kawa/domain/authority.py:318-326 | once fewer than a quorum of members are unrevoked no receipt is VALID after any further trust history |
| Contract.ContractIsSafe | formal/check_authority.py:68-143 | on every pool, quorum and node set the legit configurations form one parent chain with all but the tip superseded, and no violation is reachable |
| Contract.AreComparable | formal/check_authority.py:114-124 | the two ancestor loops decide comparability |
| Contract.Check | formal/check_authority.py:146-160 | the worklist search finds a reachable bad state exactly when there is one |
| Contract.WithoutUniqueSuccession | formal/check_authority.py:68-111 | without unique succession any two rival children split the brain |
| Contract.WithoutNonEquivocation | formal/check_authority.py:68-111 | without non-equivocation one configuration accepts two operations |
| Contract.ConflictingCertsName | formal/check_authority.py:366-398 | two conflicting certificates share at least f + 1 signers, all Byzantine |
| Contract.FaultBoundIsExact | formal/check_authority.py:329-438 | conflicting certificates or rival successions can form if and only if more than f members are Byzantine, for every f |
| Contract.ConsumedOnce | formal/check_authority.py:534-601 | with the consume-once guard at most one authorization exists across all configurations |
| Contract.SuccessionReauthorizes | formal/check_authority.py:534-601 | without it every legitimate succession re-authorizes the effect |
| Replication.GapFree | kawa/storage/replication.py:93-98 | an origin's held positions are exactly 1..head |
| Replication.BatchKeepsLog | kawa/storage/replication.py:206-384 | any batch keeps every stored row verified and chained, and changes or drops no committed envelope |
| Admitting.NextIsHeldExactly | kawa/storage/replication.py:321-384 | at the next position of a stream that stands, an envelope that chains is held if and only if it verifies, is attested by a key active at its position and bound to its origin, is timely and scope-honest; its bytes if and only if they are wanted |
| Admitting.CommittedWasAdmissible | kawa/storage/replication.py:321-384 | for every batch each position newly held is that of a delivered event meeting all of those conditions, and holds its very envelope |
| Admitting.NewBytesWereWanted | kawa/storage/replication.py:253-284 | bytes newly held after a batch are those of a delivered, verified event of that identity, asked for or not withholdable |
| Admitting.NewEvidenceWasVouched | kawa/storage/replication.py:285-320 | each evidence row a batch adds is of a delivered, verified event of another identity, attested by a key active now and bound to the origin, classified by the two incarnations |
| Admitting.ReasonsHold | kawa/storage/replication.py:206-386 | an event is reported refused at most once, under its own name, for a reason that holds of it |
| Admitting.AdmittedIsStored | kawa/storage/replication.py:253-384 | an event is reported admitted if and only if its row is new or gained its bytes |
| Admitting.RejectionEndsStream | kawa/storage/replication.py:240-248 | every refusal but that of a payload ends its stream for the batch |
| Admitting.FallenStaysFallen | kawa/storage/replication.py:236-248 | and an ended stream stays as it is to the end of the batch |
| Ledger.BatchKeepsLedger | kawa/storage/replication.py:253-284 | over any interleaving of stub, full, repeated and unrequested deliveries the reduced events are exactly the materialized ones, each once |
| Ledger.LedgerConverges | kawa/storage/replication.py:356-379 | whatever reductions a ledger records, they leave every projection in closed form over the materialized events |
| Ledger.LedgerHasRun | kawa/storage/replication.py:356-379 | and such a run of the reducers exists |
| Ledger.ReplicasAgree | kawa/storage/replication.py:206-386 | two replicas holding the bytes of the same events agree on every projection meant to be a function of the facts |
| Pull.SharedHeadAgrees | kawa/domain/ids.py:49-93 | two stores sharing a head hash agree on every earlier envelope |
| Pull.ForksNeverRejoin | kawa/storage/replication.py:321-326 | chains that differ somewhere share no later envelope |
| Pull.PullLands | sql/0015_attestation_backfill.sql:33-41 | a pull commits exactly when it brings the bytes of no held stub that already carries its cleartext scope; otherwise the whole of it is taken back |
| Pull.PullReachesSource | kawa/storage/replication.py:389-411 | a pull that commits holds the union of positions, refuses nothing, and materializes exactly v1 payloads past the frontier and payloads whose scope is offered, backfilled stubs included, byte for byte |
| Pull.PullStaysWithinGrant | kawa/storage/replication.py:389-411 | the bytes a pull brings are v1 payloads and payloads of scopes both granted and, where scopes are named, named: all such past the frontier, and on held stubs only where scopes are named |
| Pull.AsksForNothingHeld | kawa/storage/replication.py:389-411 | a pull asks for each position at most once, and never for one whose bytes are held |
| Pull.RelayPlants | kawa/storage/replication.py:321-355 | an envelope without bytes that passes the gate with a cleartext scope is stored with it: how such a stub comes to be held |
| Pull.FrontierIsMaximum | kawa/storage/replication.py:93-98 | the frontier after a pull is the pointwise maximum if it commits and the old one if it does not |
| Freezing.FreezeHasCause | kawa/storage/replication.py:285-320 | an origin freezes in a batch only through an authenticated rival at a held position of a stream that still stood |
| Freezing.RivalFreezes | kawa/storage/replication.py:285-320 | and every such rival freezes it for the rest of the batch |
| Freezing.FrozenIsUntouched | kawa/storage/replication.py:236-248 | while an origin is frozen no batch inserts, upgrades or re-judges anything of it |
| Freezing.DurableFreeze | kawa/storage/replication.py:304-318 | the durable freeze grows by the rival's origin unless that rival already has a row |
| Freezing.BatchKeepsForks | kawa/storage/replication.py:300-320 | every evidence row names the held event and a different rival, and resolved rows at one point share one head and one receipt |
| Emission.EmitSucceeds | kawa/storage/emit.py:78-134 | the exact condition, checkable before the call, under which a draft is recorded |
| Emission.EmitKeepsLog | kawa/storage/emit.py:67-149 | a minted envelope extends its origin's chain by one and keeps the log and ledger invariants |
| Node.Store.EmitAndReduce | kawa/application/services.py:73-80 | in place: one emit and its reduction; nothing is written when it is refused, a stamp the reduction cannot order included; its stamp is past every earlier reading, and its fact outranks every materialized one the clock had reached |
| Node.Store.AdmitBatch | kawa/storage/replication.py:206-386 | in place: the loop with its cached heads computes the specified admission or takes it back whole when a write is refused, keeps every invariant, and leaves the clock, merged at each event's own wall reading, past every appended stamp |
| Node.Store.ResolveFork | kawa/storage/authority_gate.py:93-139 | in place: a refusal before the walk changes nothing; a refusal on it leaves the evidence and exactly the revocations of the rows before it, in the order they came; a release revokes every rival key from the fork point on |
| Node.Store.EstablishPolicy | kawa/storage/authority_gate.py:142-178 | in place: one receipt-gated move of the lineage or none |
| Gate.LoadProofStore | kawa/storage/authority_gate.py:40-51 | exactly the materialized configurations, by digest |
| Gate.ExerciseGate | kawa/storage/authority_gate.py:73-90 | the shared gate refuses in order: key, policy fence, operation, verdict |
| Gate.ForkOperationBinds | kawa/domain/authority.py:73-85 | a fork receipt's digest binds every operand |
| Gate.PolicyOperationBinds | kawa/domain/authority.py:88-96 | a policy receipt's digest binds every operand |
| Gate.ReceiptNamesOneResolution | kawa/storage/authority_gate.py:73-90 | one receipt releases one fork point one way and moves no policy |
| Gate.ResolveKeepsForks | kawa/storage/authority_gate.py:93-139 | after a release every row of the point is resolved under one head and one receipt, and no other origin thaws |
| Gate.EstablishKeepsOneHead | kawa/storage/authority_gate.py:142-178 | afterwards the lineage has one head if the bundle is new to it and none if it is not |
| Gate.SupersededStays | kawa/storage/authority_gate.py:165-176 | a superseded policy never heads the lineage again |
| Policies.RunKeepsLinked | kawa/storage/authority_gate.py:165-176 | in every run each entry is keyed by its bundle and the pointers of the lineage agree in both directions |
| Policies.EntryWasAuthorized | kawa/storage/authority_gate.py:142-178 | every policy ever in the lineage got there over the policy then in force, under a receipt VALID for exactly that |
| Gate.StalePolicyExercisesNothing | kawa/storage/authority_gate.py:73-90 | a receipt pinned to a superseded policy exercises nothing |
| Gate.RefusalLeavesTrace | kawa/storage/authority_gate.py:114-130 | some order of the rows makes a refused walk change the registry if and only if the chosen head is held, a frozen row names an unrevoked rival and another receipt resolved a row |
| Gate.AuthorizedIsStillGood | kawa/storage/authority_gate.py:73-90 | a receipt that authorized once authorizes now if and only if its policy is in force, its configuration is the head and a quorum of its signers is active |
| Gate.FrozenForever | kawa/storage/authority_gate.py:113-130 | a point resolved under a receipt whose policy was superseded, whose configuration was succeeded or whose quorum was revoked admits no further resolution |
| Runs.RunKeepsInv | kawa/storage/replication.py:206-386 | every reachable state of a node satisfies the log, ledger, fork, lineage and trust invariants |
| Runs.RunIsAppendOnly | kawa/storage/emit.py:67-149 | in every run no held envelope changes or vanishes and bytes once held stay |
| Runs.RunHoldsChains | kawa/storage/replication.py:229-265 | at every moment held positions are 1..head, chained, verified, with payloads hashing to their commitment |
| Admitting.HeldWasMintedOrAdmitted | kawa/storage/replication.py:321-384 | every row held at any moment of any run was minted here or delivered and admissible to the receiver that judged it |
| Runs.RunReducesOnce | kawa/storage/replication.py:356-379 | at every moment the reducers have seen exactly the materialized events, each once, and the projections are in closed form |
| Runs.NodesAgree | kawa/storage/replication.py:206-386 | two nodes, whatever their runs, agree once they hold the bytes of the same events |
| Runs.FrozenOnlyByRival | kawa/storage/replication.py:285-320 | an origin becomes durably frozen only through an authenticated rival in a delivered batch |
| Runs.UnfrozenOnlyByReceipt | kawa/storage/authority_gate.py:93-139 | and thaws only by a resolution under a held VALID receipt for exactly that point and policy |
| Runs.ReleaseRevokesLosers | kawa/storage/authority_gate.py:129-132 | a release revokes exactly the losers of its point not yet revoked, from the fork point on |
| Runs.TrunkIsSpared | kawa/storage/authority_gate.py:129-132 | no resolution, carried out or refused, changes what events before the fork point are worth |
| Runs.FrozenIsInert | kawa/storage/replication.py:236-248 | in between no batch touches its positions or its evidence |
| DeadEnds.RefusalCanStrike | kawa/storage/authority_gate.py:114-130 | in a reachable store some refused attempt changes the registry if and only if the receipt authorizes it and the point leaves a trace |
| DeadEnds.ReleasableNow | kawa/storage/authority_gate.py:108-130 | some step releases a refrozen point if and only if the resolving receipt authorizes, once more, the resolution for the held head |
| DeadEnds.ReleasableExactly | kawa/storage/authority_gate.py:73-90 | over a run: if and only if its policy is in force, its configuration is the head and a quorum of its signers is active |
| DeadEnds.ResolvedWasAuthorized | kawa/storage/authority_gate.py:93-139 | every resolved row goes back to a moment of the run at which its receipt authorized it |
| DeadEnds.RefrozenForever | kawa/storage/authority_gate.py:113-130 | a refrozen point whose receipt is dead (policy superseded, configuration no longer the head, or quorum revoked) is frozen in every continuation |
| DeadEnds.NotNowIsNever | kawa/storage/authority_gate.py:73-90 | for a receipt pinned to a policy, a policy not in force or a configuration not the head is already for ever |
| Witnesses.RefusalStrikes | kawa/storage/authority_gate.py:114-130 | a run with a refused resolution that changes the registry |
| Witnesses.SuccessionTraps | kawa/storage/authority_gate.py:113-130 | a run with a refrozen point that can be released, and after the next step, a succession, is dead |
| Witnesses.RevocationTraps | kawa/storage/authority_gate.py:113-130 | the same, the next step revoking the one signer |
| Witnesses.OldRivalFreezesOnlyTheBatch | kawa/storage/replication.py:304-318 | a run after which a delivered rival freezes its origin for the batch and leaves the store as it was |
| Witnesses.ReturningPolicyLeavesNoHead | kawa/storage/authority_gate.py:142-178 | establishing a, then b, then a again leaves no head |
| Runs.LoserIsSilenced | kawa/storage/authority_gate.py:129-132 | in every run no event under a losing rival's key is an authenticated rival again after the release |
| Plan.CompilePlan | kawa/retrieval.py:496-602 | classes are the affordable prefix of the tier order and the rest is stated skipped; floors and sideband wants hold; the surplus fills the sideband in order, then is shared evenly; budgets spend the ceiling exactly |
| Plan.FitsMeans | kawa/retrieval.py:540-570 | the admitted prefix is affordable and the first class left out is not |
| Plan.OrderIsExpected | kawa/retrieval.py:473-477 | the purposes of every bound intent, spelled out in their order |
| Plan.ClaimBudgets | kawa/retrieval.py:483-592 | the budgets of a claim review under any ceiling that reaches every class, in plain numbers |
| Plan.ClaimAtFour | kawa/retrieval.py:540-570 | at a ceiling of four the tiers are hard: nothing past the norms is planned, and they get the odd row |
| Plan.PlansGrow | kawa/retrieval.py:540-570 | a larger ceiling never skips what a smaller one planned |
| Fairness.ExecEvidence | kawa/retrieval.py:743-812 | the class returns the specified cut of the alternation |
| Fairness.EvidenceIsBalanced | kawa/retrieval.py:743-812 | exactly min(b, S+C) records, the first of each side, neither below its half while it has edges |
| Fairness.ArrangeKeeps | kawa/retrieval.py:913-923 | the expansion order drops no candidate and repeats none |
| Fairness.ArrangeOrders | kawa/retrieval.py:908-923 | supersessions first, then supports and contradictions turn about with supports leading, then all the rest, each in the order it came |
| Fairness.InterleavePlaces | kawa/retrieval.py:915-919 | turn about while both last, then the rest of the longer |
| Candidates.ScopePairsMean | kawa/retrieval.py:101-135 | every ordered pair of consulted scopes once, same-scope first; the leaf budget never binds; the dropped count is exact |
| Candidates.PublicIsConsulted | kawa/retrieval.py:119-129 | when a wide viewer still sees unscoped events |
| Candidates.PublicCanBeLeftOut | kawa/retrieval.py:119-129 | a viewer with nine scopes who does not |
| Candidates.LeavesPartition | kawa/retrieval.py:168-171 | a link whose two scopes are consulted lies in exactly one leaf, any other in none |
| Candidates.AheadMeans | sql/0028_relation_rank.sql:37-54 | inside a leaf relations come in their frozen priority and, within one, the newer endpoint first |
| Candidates.WinnersAreInWindows | kawa/retrieval.py:65-90 | the windows hold the top K of all consulted links under any ranking that agrees with the leaf order |
| Candidates.FairShare | kawa/retrieval.py:196-246 | a leaf holding a supports or contradicts link contributes one of that relation, and nothing it does not hold |
| Candidates.FairShareExactly | kawa/retrieval.py:196-246 | the links of a fair-share relation a leaf contributes are its first k of them where a full window holds none, and otherwise exactly those of the window |
| Candidates.CandidateEdges | kawa/retrieval.py:196-246 | the counting and top-up loops compute exactly those rows, and the number of leaves the cap saturated |
| Candidates.RowHasLeaf | kawa/retrieval.py:196-246 | every row was contributed by some leaf |
| Candidates.LeafGivesRow | kawa/retrieval.py:196-246 | every contribution of a leaf is a row |
| Neighborhood.ExecNeighborhood | kawa/retrieval.py:815-953 | the queue loop terminates with the specified records and frontier |
| Neighborhood.RowCapTruncates | kawa/retrieval.py:924-943 | a row-capped run returns exactly the first rows of the uncapped run |
| Distances.FindsTheNeighbourhood | kawa/retrieval.py:815-953 | the uncapped run finds exactly the other nodes within the depth cap |
| Distances.EmittedAtShortestDistance | kawa/retrieval.py:815-953 | emitted nodes are distinct, never the root, within the cap, at their shortest distance |
| Distances.EveryEdgeOnce | kawa/retrieval.py:924-943 | each candidate edge of each expanded node becomes exactly one record or one frontier entry |
| Distances.FrontierIsHonest | kawa/retrieval.py:924-933 | each frontier reason holds of the result: a node found, a source at the depth cap, or a source within it when the rows were full |
| Distances.StoppedIsAbsent | kawa/retrieval.py:924-933 | a node stopped at by a cap is not in the result |
| Mirror.RewriteStream | scripts/export_public_mirror.py:43-92 | the index loop computes the specified rewrite |
| Mirror.RewriteCommutes | scripts/export_public_mirror.py:43-92 | rewriting the printed stream equals printing the rewritten records, whatever the payload bytes look like |
| Mirror.PayloadsKept | scripts/export_public_mirror.py:78-89 | only a commit's first block after its original id is touched, and only to gain the trailer |
| Mirror.PeopleReplaced | scripts/export_public_mirror.py:73-77 | under a header that opens a commit or a tag every line that reads keyword, name, address, seconds and zone comes out as keyword, public identity, seconds and zone |
| Mirror.OtherHeadersKept | scripts/export_public_mirror.py:62-77 | every other header comes out as it was |
| Mirror.MessagesMarked | scripts/export_public_mirror.py:78-86 | a block right after a commit named its original carries the trailer with that name |
| Mirror.OtherBlocksKept | scripts/export_public_mirror.py:78-89 | every other block is the same bytes |
| Sections.SplitSections | kawa/repo_sections.py:149-186 | the fence flag, heading list and stack loops compute the specified sections |
| Sections.HeadsMean | kawa/repo_sections.py:153-165 | the headings are exactly the heading lines outside every fence |
| Sections.HeadingReads | kawa/repo_sections.py:105-105 | a line reads as a heading if and only if it is one to six marks, blanks, and a text trimmed of blanks |
| Sections.FenceReads | kawa/repo_sections.py:104-104 | as a fence if and only if it begins with three backquotes |
| Sections.OpenCounts | kawa/repo_sections.py:153-160 | a line is inside a fence if and only if an odd number of fence lines came before it |
| Sections.AncestorsAreContainers | kawa/repo_sections.py:167-177 | a heading's stack-built ancestors are exactly the earlier headings whose span contains its line |
| Sections.NestedOrDisjoint | kawa/repo_sections.py:173-178 | section spans are nested or disjoint |
| Sections.AncestryIsInclusion | kawa/repo_sections.py:167-178 | one section's ancestry extends another's exactly when its span lies inside it |

## Left out

- The database itself: isolation, indexes, query plans and every trigger but the append-only
  one's refusal to upgrade a stub that already carries its cleartext scope.
- Signatures, key formats and RFC 8785 canonical JSON: attestations are an arbitrary set,
  documents are rendered injectively.
- The mapping of payload fields to columns. An event's `domain` is stored and not read
  back by the reducers' loader, and is not part of the payloads here; nor are observation
  values beyond the text, plan scope, constraints and expected observations.
- Payload validators that reject a value before it becomes an event, and an envelope whose
  `kind` column disagrees with its payload's kind.
- Dependency counts, `ready_at`, `latest_event_id` and result references on edges and
  rows: they depend on arrival order by design. Link attribution keeps the first asserter
  and is left out for the same reason.
- The authority genesis watch at admission: it reports and records, and refuses nothing.
- Loading and saving the trust file, and its legacy formats.
- `incarnation_intervals`, `capability_policy_from_lineage`, `_worst`, the claim registry,
  participant reconciliation and nonce caches: easier members.
- The `policy_lineage_races` refusal: with one transaction at a time the row that was just
  read as head is still there.
- The policy-fence, stale-receipt, recovery, lease-skew and independent-domain checks of
  the bounded authority model.
- Node.Store.EmitAndReduce: models the service's emit with its reduction in one transaction.
- Node.Store.AdmitBatch: the authority genesis watch is left out.
- Reducers.Projector.RecomputeWorkState: dependency counts, `ready_at` and
  `latest_event_id` are not part of the row; they depend on arrival order by design.
- Reducers.Projector.PropagateToDependents: edges carry no result reference, for that reason.
- Reducers.Projector.Rebuild: replays over tables of facts that have been verified; the
  verification of each event, the stub skip and the console refresh are not modelled.
- Authority.SupersededForever: the store grows under fresh digests;
  `Authority.OverwriteDecides` says what an overwrite does.
- Authority.NoiseIsInert: likewise.
- Gate.FrozenForever: the succeeded and the unmanned case are stated for logs whose
  configurations carry distinct digests, because the proof store keeps one configuration
  per digest.
- DeadEnds.RefrozenForever: likewise, along the whole run, and under one key registry.
- DeadEnds.ReleasableExactly: likewise.
- DeadEnds.NotNowIsNever: likewise.
- Pull.PullReachesSource: the stream and the backfill are lists of positions in any order
  of origins; the sorted order of the source is one of them.
- Candidates.CandidateEdges: leaves are given in their index order, which the database
  computes; top-up rows carry no leaf number.
- Neighborhood.ExecNeighborhood: candidates are given per node; path text, summaries,
  withheld counts and unresolved links are not modelled.
- Distances.EmittedAtShortestDistance: distance is measured in the candidate graph, after
  scope pairs and windows.
- Plan.CompilePlan: class identifiers, backends and execution-time underflow of the
  deferred lexical class.
- Mirror.RewriteStream: a data size that is not a plain decimal numeral (a sign, an
  underscore, surrounding blanks) is unreadable here; bytes are characters.
- Sections.SplitSections: white space is the ASCII blanks; digests, anchors and excerpts of
  a section are not modelled.
- Collectors, brief, HTTP, console, embeddings, vector and full-text search, runtime
  backends and the launcher.
