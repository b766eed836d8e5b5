# Verification of the dTRINITY off-chain control code

This project models the off-chain code of the dTRINITY repository that moves
on-chain power and drives its bots, and proves properties of that model.
`dafny verify dfyconfig.toml` verifies the whole project.

**Governance hand-over.** Deployment scripts move OpenZeppelin AccessControl
roles from a deployer to a governance Safe and from legacy contracts to their
successors. Each call is tried directly; on failure it is queued, and the queue
is flushed as one batch that the Safe may execute once, repeatedly, late or
never. The script is re-run until it reports completion.
`AccessControl` holds the on-chain rules, `Script` a script as a list of
instructions of which one step is one network request, `Plans` the instruction
lists of the three upgrade scripts. `Deployment` contains the scripts as they
run (classes `Network` and `GovernanceExecutor` and one method per function of
the source), each proved to do exactly what running its plan does, under every
pattern of failing reads, failing calls and lost replies. `RoleSafety` is the
transition system (script step, flush, batch execution, restart) with the
safety theorems, and `AdminHandover` their instance for the admin hand-over
helper, whoever calls it; `Completion`, `Convergence` and `Rounds` prove what
the completion flag means and when the scripts reach their goal, and `Signing`
that the methods of `Deployment` reach it with the batches they hand over. `UpgradeProofs`
and `UpgradeGoal`, `RedeemerProofs` and `RedeemerGoal`, `IssuanceProofs` and
`IssuanceGoal` apply this to the scripts 23_02, 22_2 and 22_1, and `Reissuance`
to 22_1 beside 23_02. `RoleLoss`, `Sections` and `RedeemerErrors` say exactly
what failures can do to the role loops and to 22_2's vault section. `RoleList`
is the dSTAKE transfer (17).

**Liquidator bot.** `IgnoreMemory`, `Pairing`, `Liquidator` and `Pagination`
model the persistent ignore memory, the health factor filter, a whole bot run
and the listing of users. **Arithmetic and encoders.** `FixedPoint` (ray, wad,
percent), `PriceEncoder` (Q64.96 square-root price), `SwapPath`,
`LinkLibraries` and `ReserveInit`, with `Batches` for the two chunking helpers.

What the proofs show about the code, beside the guarantees:

- A legacy pause on an asset the vault does not support cannot be mirrored
  (unless it is the debt token and the deployer allows that itself), and a debt
  token without a price cannot be allowed as collateral: the Safe's batch
  reverts as a whole, in every round, and the 23_02 script never completes
  (`UpgradeConvergesExactly`, with `UnsupportedPauseWitness` and
  `UnpricedDebtTokenWitness`).
- 22_1 drops the result of revoking the old minter and reports completion with
  that operation still queued whenever the deployer may not revoke it; what is
  queued then is never handed over, however often the script is run
  (`IssuanceHidesPendingExactly`, `HiddenPendingWitness`, `IssuanceInRounds`).
- 22_2 swallows an error in its vault section: it reports completion with the
  hand-over unfinished exactly when a read fails ahead of something not done
  and nothing failed before (`RedeemerHidesUnfinishedExactly`,
  `SwallowedErrorWitness`). Without such an error its report can be trusted
  (`RedeemerCompletion`).
- 22_1, run again for the issuer that 23_02 has retired, makes it a minter again
  (`ReissuanceUndoesUpgrade`).
- The doc comment of `ensureDefaultAdminExistsAndRevokeFrom` promises that the
  kept admin is confirmed before the other is removed. With `adminToKeep` equal
  to `adminToRevoke` the code removes the only admin
  (`HandoverKeepsAdminExactly`).
- The role loops grant and later revoke without reading again. With arbitrary
  failures a role can be lost to both sides (`RoleLostExactly`,
  `RoleLostWitness`); with failures for want of authorisation only it cannot
  (`UpgradeRoleCover`).
- Half-up rounding, and rounding up, go wrong on most negative numbers, because
  division is towards zero (`MulHalfUpExactly`, `DivUpExactly`).
- The bot drops failed health factor fetches before pairing users and factors
  by position, so one failure shifts all later pairs (`PairedExactly`).

Two facts of the repository the models rest on: `dusdDeployer` is account 0 on
every network (`utils/hardhat-config/named_accounts.ts:200-206`), so contracts
attached without a signer are called by the deployer; and `CollateralVault`
offers no `getSupportedCollaterals`, so 23_02 enumerates the configured list.
Role admins may be any roles in the model; `DefaultAdmin` is only the default.
The theorems about a script ask that the deployer is not governance and that no
account plays two parts in it (`Sane`), which the addresses of a deployment
meet; nothing in the scripts checks it. "Authorisation-only" means that a call
fails exactly when the contract rejects it.

## Model

| member | source | states |
|---|---|---|
| AccessControl.EffectEstablishes | contracts/lending/core/dependencies/openzeppelin/contracts/AccessControl.sol:144-179 | a successful call establishes its own requirement and undoes no other, except that grant and removal of one membership undo each other; role admins never change |
| Deployment.Network.Send | contracts/lending/core/dependencies/openzeppelin/contracts/AccessControl.sol:144-179 | a transaction changes the chain only when the caller is authorised, and may report an error although it took effect |
| Deployment.GovernanceExecutor.TryOrQueue | typescript/hardhat/governance.ts:75-92 | true exactly when the direct call succeeded; otherwise exactly this call is appended to the queue, and only in Safe mode |
| Deployment.GovernanceExecutor.Flush | typescript/hardhat/governance.ts:106-118 | hands over the queue as one batch in queue order, only in Safe mode and only when it is not empty |
| Deployment.EnsureDefaultAdminExistsAndRevokeFrom | utils/hardhat/access_control.ts:16-193 | for every pattern of failures, chain, queue and remaining faults end as the hand-over plan prescribes, and the completion flag is untouched; spelled out: a grant that reports an error is sent again, a removal that reports one is followed by a direct revocation, and either ends up queued in Safe mode when it fails too |
| Deployment.EnsureKept | utils/hardhat/access_control.ts:34-88 | phase 1: the chain, queue and coming faults it leaves in each case: nothing to do, granted, or sent again after a failing read or call and queued when that fails |
| Deployment.RemoveOld | utils/hardhat/access_control.ts:90-133 | phases 2 and 3: nothing is removed unless two reads succeed and find the kept admin in place and the old one still there; what is left in each case |
| Deployment.Drop | utils/hardhat/access_control.ts:135-192 | a caller removing itself renounces, any other revokes; after an error the next request is a revocation, which is queued in Safe mode when it fails too |
| Deployment.Require | deploy/23_dusd_upgrade_v2_2/02_setup_issuer_v2_2.ts:64-86 | a requirement outside a try block: nothing when it holds, otherwise try or queue; a failing read ends the script |
| Deployment.RequireAll | deploy/23_dusd_upgrade_v2_2/02_setup_issuer_v2_2.ts:120-150 | the role loops are the sequence of their requirements, and the flag is their conjunction |
| Deployment.MigrateRoles | deploy/23_dusd_upgrade_v2_2/02_setup_issuer_v2_2.ts:99-168 | all grants, then all revocations, then the admin hand-over, under every pattern of failures |
| Deployment.MirrorLegacyAssetPauses | deploy/23_dusd_upgrade_v2_2/02_setup_issuer_v2_2.ts:253-301 | mirrors the pause of each enumerated asset in turn; an error ends the script |
| Deployment.MirrorPauseOf | deploy/23_dusd_upgrade_v2_2/02_setup_issuer_v2_2.ts:275-298 | one asset: a failing read of either pause ends the script; a pause not mirrored yet is sent, and queued when that fails |
| Deployment.RequireOrPending | deploy/23_dusd_upgrade_v2_2/02_setup_issuer_v2_2.ts:519-538 | a requirement inside a try block: an error while reading, like a failing call, clears the flag and does not end the script |
| Deployment.MoveMinter | deploy/23_dusd_upgrade_v2_2/02_setup_issuer_v2_2.ts:459-498 | grants the minter role to the new issuer, mirrors pauses, then revokes it from a separate legacy issuer |
| Deployment.ConfigureManager | deploy/23_dusd_upgrade_v2_2/02_setup_issuer_v2_2.ts:511-542 | wires the AMO manager, migrates its roles, then revokes the withdrawer role of a separate legacy manager |
| Deployment.ConfigureDebtToken | deploy/23_dusd_upgrade_v2_2/02_setup_issuer_v2_2.ts:548-561 | allows the debt token as collateral and hands its admin over |
| Deployment.SetupIssuer | deploy/23_dusd_upgrade_v2_2/02_setup_issuer_v2_2.ts:433-576 | the whole script equals running its plan; a run that returns false in Safe mode hands its queue over as one batch, any other hands nothing over; without an issuer it does nothing and reports completion |
| Deployment.RequireInSection | deploy/22_issue_redeem_v2/2_setup_redeemerv2.ts:194-207 | an error while reading abandons the rest of the section and leaves the flag as it is |
| Deployment.HandOverWithdrawer | deploy/22_issue_redeem_v2/2_setup_redeemerv2.ts:192-231 | grant to the new redeemer, then one revocation for each separate legacy redeemer |
| Deployment.SetupRedeemer | deploy/22_issue_redeem_v2/2_setup_redeemerv2.ts:126-257 | the whole script equals running its plan, including the swallowed errors; a run that returns false in Safe mode hands its queue over as one batch, any other nothing |
| Deployment.RevokeOldMinter | deploy/22_issue_redeem_v2/1_setup_issuerv2.ts:218-243 | the revocation's result and errors never reach the completion flag |
| Deployment.SetupIssuerV2 | deploy/22_issue_redeem_v2/1_setup_issuerv2.ts:173-269 | the whole script equals running its plan; a run that returns false in Safe mode hands its queue over as one batch, any other nothing, even with the revocation queued; without an old issuer it does nothing and reports completion |
| RoleSafety.EventKeepsInv | typescript/hardhat/governance.ts:75-118 | every event (step, flush, atomic batch, restart) keeps the invariant that each removal still possible is justified |
| RoleSafety.RoleCover | deploy/23_dusd_upgrade_v2_2/02_setup_issuer_v2_2.ts:99-168 | in every behaviour of well-ordered plans a tracked role held by its holder or heir is held by one of them in every later state, and an heir never loses a role |
| RoleSafety.RemovalMeetsHeir | utils/hardhat/access_control.ts:90-193 | a tracked membership ends only in a state in which the heir holds the role, and before that state already when the removal is a direct call |
| RoleSafety.MidBatchCover | typescript/hardhat/governance.ts:106-118 | the same for every state inside a batch, stale and repeated batches included |
| RoleSafety.RunKeepsInv | deploy/23_dusd_upgrade_v2_2/02_setup_issuer_v2_2.ts:433-576 | an uninterrupted run, as the methods of Deployment carry it out, keeps the invariant |
| AdminHandover.NeverLocksOut | utils/hardhat/access_control.ts:34-192 | for any caller, any two different admins and any pattern of failing reads, failing calls, lost replies, restarts and batches, the admin to revoke loses DEFAULT_ADMIN_ROLE only in a state in which the admin to keep holds it |
| AdminHandover.KeptAdminStays | utils/hardhat/access_control.ts:34-192 | under the same conditions the admin to keep never loses the role |
| AdminHandover.NeverLocksOutMidBatch | utils/hardhat/access_control.ts:34-192 | the same inside a batch of pushes of the helper, however stale: a removal finds the admin to keep in place, and no state is without both |
| AdminHandover.PushReachesSafe | utils/hardhat/access_control.ts:65-88 | such batches occur: a push after a failing read and a failing call is flushed and executed |
| AdminHandover.HandoverKeepsAdminExactly | utils/hardhat/access_control.ts:116-165 | a caller that hands over leaves the kept account admin exactly when that account is somebody else |
| Completion.CompletionSound | deploy/23_dusd_upgrade_v2_2/02_setup_issuer_v2_2.ts:457-575 | when a run ends with its flag set, whatever batches the Safe executed meanwhile, the queue is empty and every requirement holds; the silent pushes of the admin helper happen only after the flag was cleared |
| Completion.CompletionBut | deploy/22_issue_redeem_v2/1_setup_issuerv2.ts:215-268 | the same for a plan some of whose revocations are not reported: at most these are queued or not done |
| Completion.RunReports | deploy/23_dusd_upgrade_v2_2/02_setup_issuer_v2_2.ts:457-575 | the same for one whole run from any chain |
| Completion.MetForever | deploy/23_dusd_upgrade_v2_2/02_setup_issuer_v2_2.ts:433-576 | a requirement once met stays met along every behaviour |
| Completion.MetRunIsQuiet | deploy/23_dusd_upgrade_v2_2/02_setup_issuer_v2_2.ts:433-576 | when every requirement holds a run sends nothing, queues nothing and reports completion |
| Convergence.ReadyBatchExecutes | typescript/hardhat/governance.ts:111-116 | no call of a batch of calls the Safe is ready for reverts in queue order |
| Convergence.Converges | deploy/23_dusd_upgrade_v2_2/02_setup_issuer_v2_2.ts:433-576 | run, execute the batch, run again: the batch does not revert, the goal is met, later runs change nothing |
| Rounds.RoundFits | typescript/hardhat/governance.ts:75-118 | a round of running and signing, whether or not the batch executes, leaves every needed role with the signer or the Safe, and a chain the script fits again |
| Rounds.NeverCompletes | typescript/hardhat/governance.ts:106-118 | a stuck requirement makes the batch of every round revert as a whole and keeps every run from completing |
| Rounds.ConvergesExactly | contracts/dusd/CollateralVault.sol:161-172 | a plan that fits is done from two rounds on if each pause still to be mirrored is on an asset supported, or allowed later by a direct call, and each collateral still to be allowed has a price; otherwise it completes after no number of rounds |
| UpgradeProofs.UpgradePlanOk | deploy/23_dusd_upgrade_v2_2/02_setup_issuer_v2_2.ts:459-564 | the 23_02 plan sends every grant ahead of the removal that relies on it |
| UpgradeProofs.UpgradeRoleCover | deploy/23_dusd_upgrade_v2_2/02_setup_issuer_v2_2.ts:99-168 | role cover for every role 23_02 migrates or moves, over all behaviours with authorisation-only failures |
| UpgradeProofs.UpgradeNeverLocksOut | utils/hardhat/access_control.ts:34-192 | over any pattern of failing and lost requests the deployer stops being admin only when governance is admin, and governance stays admin |
| UpgradeProofs.MetIsUpgraded | deploy/23_dusd_upgrade_v2_2/02_setup_issuer_v2_2.ts:459-564 | meeting the plan's requirements is the goal stated without the plan: roles with governance, none with the deployer, successors in place, pauses mirrored |
| UpgradeGoal.UpgradeCompletion | deploy/23_dusd_upgrade_v2_2/02_setup_issuer_v2_2.ts:457-575 | 23_02 returning true implies an empty queue and the upgraded state, then and at any later time of its own behaviours |
| UpgradeGoal.UpgradeHandsRolesOver | deploy/23_dusd_upgrade_v2_2/02_setup_issuer_v2_2.ts:111-168 | role by role: 23_02 returning true implies that governance and not the deployer holds DefaultAdmin, IncentivesManager and Pauser on the issuer, DefaultAdmin, AmoIncrease and AmoDecrease on the manager and DefaultAdmin on the debt token, and which contracts mint and withdraw, then and later |
| UpgradeGoal.UpgradeCompletionAmong | deploy/23_dusd_upgrade_v2_2/02_setup_issuer_v2_2.ts:457-575 | the same beside any other scripts that never send the opposite of a call of the upgrade |
| UpgradeGoal.UpgradeConverges | deploy/23_dusd_upgrade_v2_2/02_setup_issuer_v2_2.ts:433-576 | from a staffed chain with supported pauses and a priced debt token: run, sign, and the upgrade is done; further runs change nothing |
| UpgradeGoal.UpgradeConvergesExactly | contracts/dusd/CollateralVault.sol:161-172 | from every staffed chain: the upgrade is complete from two rounds on exactly when a debt token still to be allowed has a price and every pause still to be mirrored is on a supported asset, or on the debt token and the deployer allows it itself; otherwise no number of rounds does, and every batch reverts |
| UpgradeGoal.UnsupportedPauseWitness | contracts/dusd/IssuerV2_2.sol:211-217 | for every configuration with a legacy issuer, a chain on which a pause of an asset no longer supported blocks the upgrade for good |
| UpgradeGoal.UnpricedDebtTokenWitness | deploy/23_dusd_upgrade_v2_2/01_deploy_amo_manager_v2.ts:34-61 | for every configuration with a debt token, a chain on which its missing price blocks the upgrade |
| Reissuance.HarmoniousExactly | deploy/22_issue_redeem_v2/1_setup_issuerv2.ts:215-243 | 22_1 and 23_02 send no opposite calls if and only if they give minting to, and take it from, different issuers |
| Reissuance.UpgradeOutlastsIssuance | deploy/22_issue_redeem_v2/1_setup_issuerv2.ts:215-243 | then the upgraded state outlasts every run and every batch of either script |
| Reissuance.ReissuanceUndoesUpgrade | deploy/22_issue_redeem_v2/1_setup_issuerv2.ts:215-216 | otherwise 22_1, run again for the retired issuer, makes it a minter again exactly when the deployer may grant minting |
| RedeemerProofs.RedeemerPlanOk | deploy/22_issue_redeem_v2/2_setup_redeemerv2.ts:192-245 | the 22_2 plan sends every grant ahead of the removals that rely on it |
| RedeemerProofs.LegacyHandover | deploy/22_issue_redeem_v2/2_setup_redeemerv2.ts:194-228 | for any number of legacy redeemers, each loses the withdrawer role only when the new redeemer holds it |
| RedeemerProofs.LegacyHandoverMidBatch | deploy/22_issue_redeem_v2/2_setup_redeemerv2.ts:209-228 | a revocation inside a batch finds the new redeemer already a withdrawer |
| RedeemerProofs.RedeemerRoleCover | deploy/22_issue_redeem_v2/2_setup_redeemerv2.ts:59-124 | role cover for the redeemer's own roles over all behaviours |
| RedeemerGoal.RedeemerCompletion | deploy/22_issue_redeem_v2/2_setup_redeemerv2.ts:192-256 | with authorisation-only failures 22_2 returning true implies an empty queue, a finished withdrawer hand-over and migrated roles, then and later |
| RedeemerGoal.RedeemerHandsRolesOver | deploy/22_issue_redeem_v2/2_setup_redeemerv2.ts:59-124 | role by role: governance and not the deployer holds DefaultAdmin, RedemptionManager and Pauser on the redeemer, and no legacy redeemer withdraws |
| RedeemerGoal.RedeemerConverges | deploy/22_issue_redeem_v2/2_setup_redeemerv2.ts:192-256 | from a staffed chain: run, sign, and the hand-over is done; the batch does not revert and further runs change nothing |
| Sections.SectionUnnoticedExactly | deploy/22_issue_redeem_v2/2_setup_redeemerv2.ts:194-231 | for any list of requirements in one try block and any failures: the flag stays set with something not done exactly when the first failing request is a read ahead of something not done and nothing before was rejected |
| RedeemerErrors.RedeemerHidesUnfinishedExactly | deploy/22_issue_redeem_v2/2_setup_redeemerv2.ts:192-256 | for every chain and every pattern of failures: when 22_2 reports completion the withdrawer hand-over is unfinished exactly under that condition |
| RedeemerErrors.SwallowedErrorWitness | deploy/22_issue_redeem_v2/2_setup_redeemerv2.ts:229-231 | an error at the first vault read ends in reported completion with nothing changed and a legacy redeemer still in place |
| IssuanceProofs.IssuancePlanOk | deploy/22_issue_redeem_v2/1_setup_issuerv2.ts:215-253 | the 22_1 plan sends every grant ahead of the removals that rely on it |
| IssuanceProofs.MinterHandover | deploy/22_issue_redeem_v2/1_setup_issuerv2.ts:215-243 | the old issuer stops being a minter only in a state in which the new one is |
| IssuanceProofs.IssuanceRoleCover | deploy/22_issue_redeem_v2/1_setup_issuerv2.ts:96-171 | role cover for the issuer's four roles over all behaviours |
| IssuanceGoal.IssuanceCompletion | deploy/22_issue_redeem_v2/1_setup_issuerv2.ts:96-171 | with batches executed at any moment: 22_1 returning true implies that at most the old issuer's revocation is queued, that the new issuer mints, and that governance and not the deployer holds DefaultAdmin, AmoManager, IncentivesManager and Pauser on it, then and later |
| IssuanceGoal.IssuanceHidesPendingExactly | deploy/22_issue_redeem_v2/1_setup_issuerv2.ts:215-268 | from every chain, with authorisation-only failures: when 22_1 completes, the new issuer mints and the roles are migrated, and the old issuer still mints, with its revocation queued in Safe mode, exactly when the deployer may not revoke it |
| IssuanceGoal.IssuanceMintsExactly | deploy/22_issue_redeem_v2/1_setup_issuerv2.ts:215-216 | a run makes the issuer a minter exactly when it was one or the deployer may grant it |
| IssuanceGoal.IssuanceConverges | deploy/22_issue_redeem_v2/1_setup_issuerv2.ts:215-268 | from a staffed chain: once the Safe has executed what the first run queued, the goal is reached and further runs change nothing; a run that reports completion and so flushes nothing has something queued exactly when the old issuer is out of reach |
| IssuanceGoal.HiddenPendingWitness | deploy/22_issue_redeem_v2/1_setup_issuerv2.ts:218-243 | for every configuration, a chain on which 22_1 completes with the revocation in its queue |
| Signing.UpgradeInRounds | deploy/23_dusd_upgrade_v2_2/02_setup_issuer_v2_2.ts:563-575 | running 23_02 itself from fresh executors, the Safe executing exactly what each run hands over: after two rounds it returns true in the upgraded state, or it never does, by the exact condition on the first chain |
| Signing.RedeemerInRounds | deploy/22_issue_redeem_v2/2_setup_redeemerv2.ts:247-257 | the same for 22_2: after one round every run returns true and the hand-over is finished |
| Signing.IssuanceInRounds | deploy/22_issue_redeem_v2/1_setup_issuerv2.ts:255-268 | the same for 22_1: any number of rounds reach the goal if and only if the first run did not return true with the old issuer out of the deployer's reach |
| RoleLoss.RoleLostExactly | deploy/23_dusd_upgrade_v2_2/02_setup_issuer_v2_2.ts:120-165 | for any contract, role list, state and pattern of failures: the whole migration loses an operational role to both sides exactly when only the deployer held it, governance's grant was rejected when its turn came, and the run reached the deployer's revocation, which got through |
| RoleLoss.RoleLostWitness | deploy/23_dusd_upgrade_v2_2/02_setup_issuer_v2_2.ts:120-165 | a single failing call loses a role, on any contract only the deployer administers |
| RoleList.MigrateRole | deploy/17_dstake/06_transfer_dstake_roles_to_multisig.ts:143-167 | one role; reported success means it was moved or not the deployer's to move; wherever a failure breaks it off, nobody but the deployer loses it and the deployer only to the target |
| RoleList.MigrateRoles | deploy/17_dstake/06_transfer_dstake_roles_to_multisig.ts:123-168 | reported success, which failures alone prevent, means the list was processed in order; with failures every prefix keeps each role with the deployer or its target |
| RoleList.OperationalOutcome | deploy/17_dstake/06_transfer_dstake_roles_to_multisig.ts:143-167 | before DefaultAdmin is reached, exactly the listed targets gain and the deployer loses exactly the listed roles |
| RoleList.TransferOutcome | deploy/17_dstake/06_transfer_dstake_roles_to_multisig.ts:143-167 | who holds what after any list: roles listed only after DefaultAdmin stay with the deployer, who can no longer move them |
| RoleList.TransferCompleteExactly | deploy/17_dstake/06_transfer_dstake_roles_to_multisig.ts:143-167 | the whole list is settled if and only if nothing listed after DefaultAdmin is left behind, decided on the chain before the transfer |
| Batches.SplitToBatches | utils/utils.ts:273-280 | the loop computes the batches |
| Batches.BatchesPartition | utils/utils.ts:273-280 | batches concatenate back to the input, none is empty, and all but the last are full |
| Batches.BatchProcessing | utils/utils.ts:217-240 | one result for each input, in the order of the inputs, whatever the batch size; rejected exactly when some input is |
| Batches.BatchesAligned | utils/lending/init-helper.ts:261-262 | batches of parallel lists stay parallel |
| Batches.ChunkIsSplit | utils/lending/utils.ts:42-50 | the reducer by index arithmetic equals splitting by slices |
| IgnoreMemory.ShortTermIgnoreMemory.Put | utils/utils.ts:76-84 | the contents gain the expiry time in memory and on disk, whether or not the file was loaded before; an unusable file is an error and changes nothing |
| IgnoreMemory.ShortTermIgnoreMemory.IsIgnored | utils/utils.ts:86-104 | answers by the expiry time and deletes exactly an expired entry, in memory and on disk |
| IgnoreMemory.ShortTermIgnoreMemory.InitializeIfNeeded | utils/utils.ts:106-153 | loads at most once; fails exactly on an unreadable file or another duration |
| IgnoreMemory.CrashAndReload | utils/utils.ts:106-153 | a new process on the same disk has the same contents |
| IgnoreMemory.MemoryRefinesHistory | utils/utils.ts:76-170 | for every sequence of operations and crashes, answers are those of the never-forgetting history: less than the duration after the last put |
| IgnoreMemory.CrashesChangeNoAnswer | utils/utils.ts:106-153 | removing all crashes from a sequence changes no answer |
| Pairing.CollectLiquidatable | utils/liquidator-bot/curve/run.ts:230-237 | the loop pairs users and fetched factors by position |
| Pairing.PairedExactly | utils/liquidator-bot/curve/run.ts:219-237 | the users and factors taken are the right ones if and only if no failed fetch precedes a factor below the threshold |
| Pairing.AllFetchedPaired | utils/liquidator-bot/curve/run.ts:219-237 | with every fetch successful the pairing is right even when users are listed twice |
| Pairing.ShiftedWitness | utils/liquidator-bot/curve/run.ts:219-237 | one failed fetch makes the bot take a healthy user for a risky one |
| Pairing.PairedDistinct | utils/liquidator-bot/curve/run.ts:230-237 | from distinct users each is taken at most once |
| Liquidator.CurveBot.TryBlock | utils/liquidator-bot/curve/run.ts:256-354 | liquidates, or records a user not worth it, or throws, as BlockMeans spells out |
| Liquidator.BlockMeans | utils/liquidator-bot/curve/run.ts:256-354 | liquidation is called exactly when there is something to liquidate and the profit reaches the threshold; when the block throws, and what it leaves in the log, by the answers of the outside |
| Liquidator.CurveBot.TryUser | utils/liquidator-bot/curve/run.ts:241-417 | one user leaves exactly the prescribed trace; the batch goes on unless the handler throws or the state cannot be written |
| Liquidator.TraceMeans | utils/liquidator-bot/curve/run.ts:241-417 | the trace of one user spelled out, and that the batch goes on exactly when the handler does not throw and the state is written |
| Liquidator.OutcomeExactly | utils/liquidator-bot/curve/run.ts:256-417 | liquidation is called if and only if the amount is not zero and the profit reaches the threshold; liquidated and announced users are saved as successful with no record, all others are recorded unless the handler throws |
| Liquidator.BatchTriesExactly | utils/liquidator-bot/curve/run.ts:199-241 | with all fetches successful the users processed are exactly those below the threshold, in order |
| Liquidator.CurveBot.TryAll | utils/liquidator-bot/curve/run.ts:241-417 | tries exactly the users up to the first that stops the batch, in order, and keeps the back-off property |
| Liquidator.CurveBot.RunBotBatch | utils/liquidator-bot/curve/run.ts:180-418 | who is tried in a batch, and that distinct free users are backed off while others stay free |
| Liquidator.CurveBot.FilterIgnored | utils/liquidator-bot/curve/run.ts:114-117 | drops only users recorded less than the duration ago; all others are free to be tried from then on |
| Liquidator.CurveBot.RunBatches | utils/liquidator-bot/curve/run.ts:131-163 | the tries of a run are those of all its batches, an error in one does not stop the next; the back-off property holds across batches |
| Liquidator.EveryBatchContributes | utils/liquidator-bot/curve/run.ts:131-163 | every batch contributes its own tries even when an earlier one was stopped: its users below the threshold, all of them unless one that stops it comes first |
| Liquidator.CurveBot.RunCurveBot | utils/liquidator-bot/curve/run.ts:95-166 | over a duplicate-free list no user is tried before the duration since any earlier record has passed, in this run and in all before; when all factors are fetched and no user stops a batch, each kept user below the threshold is tried as often as listed and nobody else; whoever is dropped has a record that recent in the log |
| Liquidator.CurveBot.Resume | utils/liquidator-bot/curve/run.ts:85-88 | a bot restarted after a crash continues with the same history |
| Liquidator.RunRounds | utils/liquidator-bot/curve/run.ts:95-166 | back-off over any number of runs on one state directory with crashes between them; where each run stands in the log, when it began and what it did |
| Liquidator.RunTriesExactly | utils/liquidator-bot/curve/run.ts:95-166 | in each of these runs, with factors fetched and no batch stopped, a user below the threshold is tried exactly once unless recorded less than the duration before, and nobody else is tried |
| Pagination.GetAllLendingUserAddresses | utils/liquidator-bot/curve/utils.run.ts:47-91 | fails exactly when the batch size is not positive or a query it makes fails; terminates while accounts keep appearing; strictly increasing ids, each account present throughout exactly once, the whole set when nothing changes |
| Pagination.IncreasingUnique | utils/liquidator-bot/curve/utils.run.ts:53-62 | increasing lists with the same ids are equal, so the result does not depend on the page size |
| FixedPoint.MulHalfUpExactly | utils/maths/WadRayMath.ts:16-33 | for all numbers: a product is rounded half up exactly when the sum that is divided is not negative or a multiple of the unit |
| FixedPoint.DivHalfUpExactly | utils/maths/WadRayMath.ts:22-38 | the same for quotients; negating both numbers changes nothing |
| FixedPoint.DivUpExactly | utils/maths/WadRayMath.ts:47-56 | for all numbers and positive divisors: the rounded-up quotient is the ceiling exactly when the sum that is divided is not negative or a multiple of the divisor |
| FixedPoint.DivUpNegativeExactly | utils/maths/WadRayMath.ts:47-56 | for negative divisors, the exact range in which it still is the ceiling |
| FixedPoint.DivThenMulExactly | utils/maths/WadRayMath.ts:28-38 | dividing by b and multiplying again is the identity on all numbers if and only if b is at most the unit |
| FixedPoint.MulThenDivExactly | utils/maths/WadRayMath.ts:28-38 | multiplying by b and dividing again is the identity on all numbers if and only if b is at least the unit |
| FixedPoint.RayRoundTrips | utils/maths/WadRayMath.ts:28-38 | both round trips for rays |
| FixedPoint.WadRoundTrips | utils/maths/WadRayMath.ts:16-26 | both round trips for wads |
| FixedPoint.PercentRoundTrips | utils/maths/PercentMath.ts:12-25 | both round trips for percentages, whose division returns 0 for 0 |
| FixedPoint.MulAlmostAssociative | utils/maths/WadRayMath.ts:28-33 | the two ways to multiply a, b and c differ by at most (a + c) / (2 * unit) + 1 |
| FixedPoint.AggregateError | utils/lending/balance.ts:42 | n balances add up to the balance of their total within (n + 1) / 2 units, for any index |
| FixedPoint.DebtBalanceError | utils/lending/balance.ts:73-93 | skipping the index for an empty variable debt changes nothing; the rounding error is at most half a unit |
| FixedPoint.UnitsExactly | utils/maths/PercentMath.ts:7-25 | the units by their digits and how they relate; multiplying by one is the identity, one too high on negative numbers; dividing by zero fails, but is 0 for percentages |
| FixedPoint.RayWadConversions | utils/maths/WadRayMath.ts:39-42 | wads survive the way to rays and back; rays do exactly when they are whole wads |
| FixedPoint.WeiToPercentIsHalfUp | utils/maths/PercentMath.ts:27-32 | two divisions in a row round half up like a single one |
| PriceEncoder.EncodeMonotone | utils/dex/utils.ts:20-32 | the price rises with reserve1 and falls with reserve0 |
| PriceEncoder.EncodeScaleFree | utils/dex/utils.ts:20-32 | scaling both reserves changes nothing, not even whether encoding fails |
| PriceEncoder.EncodeSquare | utils/dex/utils.ts:20-32 | a ratio k^2 is encoded as exactly k * 2^96 |
| PriceEncoder.EncodeRounds | utils/dex/utils.ts:20-32 | the quotient is rounded half up and its root to the nearest at 40 places, the root times 2^96 down; this determines the price |
| PriceEncoder.EncodeFailsExactly | utils/dex/utils.ts:20-32 | encoding fails exactly when reserve0 is zero |
| PriceEncoder.EncodeError | utils/dex/utils.ts:20-32 | the price is within 2^96 / 10^20 + 2 of sqrt(reserve1 / reserve0) * 2^96 |
| PriceEncoder.EncodeErrorAboveOne | utils/dex/utils.ts:20-32 | for ratios of at least 1 the exact price lies between one below and two above the result |
| SwapPath.ConvertToSwapPath | utils/dex/utils.ts:57-92 | the two loops, the two reversals and the packing compute the path, with both length errors |
| SwapPath.ExactOutputReverses | utils/dex/utils.ts:84-89 | the exact-output path is the exact-input path of reversed tokens and fees |
| SwapPath.PathRoundTrip | utils/dex/utils.ts:57-92 | encoding succeeds on exactly the well-formed routes of 20-byte tokens and 24-bit fees, takes 20 + 23 * (n - 1) bytes, and decodes back |
| SwapPath.PathLayout | utils/dex/utils.ts:57-92 | token k starts at byte 23 * k and its fee follows, most significant byte first |
| SwapPath.PathOfDecoded | utils/dex/utils.ts:57-92 | every byte string of such a length is the path of the route it decodes to |
| LinkLibraries.Link | utils/linkLibraries.ts:19-55 | the nested loops apply every splice in order; a missing library or invalid address is an error |
| LinkLibraries.ResolvesExactly | utils/linkLibraries.ts:35-41 | linking fails exactly when some listed library is not available, even one nothing refers to |
| LinkLibraries.LinkingIsExact | utils/linkLibraries.ts:42-51 | the length is kept, each reference holds the address of its library from character 2 + 2 * start on, and only characters within references change |
| LinkLibraries.OrderIsIrrelevant | utils/linkLibraries.ts:33-54 | no order of files, contracts and references changes the result or whether linking fails |
| LinkLibraries.LengthKeptExactly | utils/linkLibraries.ts:44-49 | a splice keeps the length of the code if and only if the reference is 20 bytes long |
| ReserveInit.CollectReserves | utils/lending/init-helper.ts:188-229 | the parallel arrays and the records keyed by symbol describe exactly the reserves that are due, in order |
| ReserveInit.BuildInputs | utils/lending/init-helper.ts:231-258 | the parameters of each reserve come from its own configuration |
| ReserveInit.InitReservesByHelper | utils/lending/init-helper.ts:107-295 | sends the chunks in order until one fails, and fails before sending when a deployment is missing; reports the symbols of exactly the chunks sent |
| ReserveInit.InputsFailExactly | utils/lending/init-helper.ts:107-229 | nothing is sent exactly when a reserve needs a delegation-aware implementation that is missing, or one that is due a strategy that is not deployed |
| ReserveInit.SubmittedExactlyOnce | utils/lending/init-helper.ts:188-294 | with distinct addresses each reserve of the two known token kinds that is addressed and not initialised is sent exactly once with its own parameters, and nothing else; in chunks of three, but the last, that concatenate to the input |
| ReserveInit.NextRunSendsTheRest | utils/lending/init-helper.ts:196-294 | wherever a run stops the next sends exactly the rest; after a complete run every reserve has its own parameters and nothing is sent again |

## Left out

- Nonces, mining delay, gas, Safe signatures and thresholds: an awaited transaction and a Safe batch are atomic; a failing `createBatchTransaction` is not modelled.
- `getContractAt`, reads of role constants, `manualActions` (undefined at every call site) and an absent executor (always given); a failing read of a role constant has the effect of the `hasRole` read that follows it failing.
- Unpausing, disallowing collateral, changing prices and everything else the contracts do beyond role, support and price checks; what is supported and priced changes only by the scripts' own calls.
- Deployment.SetupRedeemer: deploying the contract and the per-collateral fee overrides (lines 143-189), which come before and touch no role, are not modelled.
- Deployment.SetupIssuerV2: deploying the contract (lines 190-211) is not modelled.
- Batches of other scripts: `UpgradeCompletionAmong` and `Reissuance` interleave them; the other theorems about a script have the runs and batches of that script.
- The other functions of `utils/utils.ts`, `utils/dex/utils.ts` (`convertSqrtPriceX96ToDecimal`), string parsing and formatting: straight-line arithmetic or thin wrappers.
- `getUserLiquidationParams`: its comparator is inconsistent on ties, so the order of its result is not defined.
- Health factors and profits are real numbers without NaN; account ids are natural numbers in their order; the id universe is finite.
- The local-network list and the URL length check of the user listing; failures while writing the memory file; the contents of logs and Slack messages.
- `configureReservesByHelper`: it repeats the pattern of reserve initialisation with a chunk size of 20.
- The token names and symbols derived from a reserve's symbol, the treasury and the other constant fields of its parameters.
- bignumber.js internals: division and square root are taken to be correctly rounded half up to 40 places, and reserves are not negative.
- ReserveInit.PoolConfigurator.InitReserves: a transaction is refused for a repeated or initialised asset or any other reason; what the pool does with an accepted reserve is not modelled.
