# ERC-3643 token generator: deployment sequencing and configuration editing

This Dafny project models the core of a web application that deploys
ERC-3643 (T-REX) permissioned security tokens. The core has three parts.

- **Infrastructure deployment.** The orchestrator in
  `frontend/src/utils/deployContracts.ts` loads the compiled artifacts. It
  then submits fourteen transactions in a fixed order: six implementation
  contracts, the implementation authority, the version registration, the
  identity factory, the suite factory, the factory binding, the gateway,
  the ownership transfer and the public-deployment switch. Before each
  transaction it reports 'deploying', and after confirmation 'complete'.
  The first failure ends the run. On success it posts the address set to
  the backend cache.
  - `Step0Contracts.tsx` shows the run as a progress list. It marks the
    failing step and adopts an earlier deployment it finds in the cache.
  - `backend/src/routes/contracts.ts` serves the artifacts from a
    directory tree. It also keeps the deployment cache, keyed by the
    lower-cased address and the chain id.
- **Token-suite deployment.** `deploy3643.ts` checks that the gateway lets
  the signer deploy and builds the token and claim bundles. It estimates
  gas with a 20 % margin, submits, and reads the suite's addresses from
  the first `TREXSuiteDeployed` event in the receipt.
- **The wizard.** The token store and the wallet store (`tokenSlice.ts`,
  `walletSlice.ts`) and the wizard shell (`TokenWizard.tsx`), with its
  step guard and its deploy-on-Next at the review step. The editors of
  the identity step (trusted issuers and their claim topics) and the
  compliance step (required topics and the allowed-country list). The
  review step's validity check and topic names. The Hardhat account list.

The network, the artifact download, the file system and the HTTP client
are modelled as oracles, passed in as plain values:

- a sequence of per-step transaction outcomes;
- the set of artifact names that loaded;
- a directory tree (`FsNode`);
- the gateway's answers (`SuiteEnv`);
- the server's reply (`HttpReply`).

The clock is a `deployedAt` parameter. `ethers.utils.isAddress` is a
boolean parameter. The `process.env.PRIVATE_KEY` variable is an
`Option<string>`.

Code that changes state has its own form in the model:

- The stores and components become classes whose methods update fields.
  Each such method is tied to a pure function of the old state.
- The searches and scans are loops, proved equal to their recursive
  reference definitions.
- The step sequence is a method built from the step table. It is proved
  equal to the reference function `Orchestrate`, and the properties are
  stated about `Orchestrate`.

Files:

- `common.dfy`: optional and result values, failures, JSON values,
  JavaScript truthiness and `||`, ASCII case mapping, `filter`.
- `token_types.dfy`: the configuration and the address records.
- `deploy_contracts.dfy`: the orchestrator.
- `step0_contracts.dfy`: the contract-setup step.
- `contracts_route.dfy`: the backend routes.
- `deploy3643.dfy`: the suite deployment.
- `token_slice.dfy`: the token store.
- `wallet_slice.dfy`: the wallet store.
- `token_wizard.dfy`: the wizard shell.
- `step2_identity.dfy`: the identity step.
- `step3_compliance.dfy`: the compliance step.
- `step4_review.dfy`: the review step.
- `hardhat_config.dfy`: the Hardhat account list.

## Model

| member | source | states |
|---|---|---|
| DeployContracts.CallsArePrefixOfFullPlan | frontend/src/utils/deployContracts.ts:37-191 | whatever the chain answers, the transactions a run submits are a prefix of the fourteen planned ones, in the planned order |
| DeployContracts.StepTrace | frontend/src/utils/deployContracts.ts:49-191 | a run whose first k steps confirm reports 2k events, none of them 'error' |
| DeployContracts.StopIndex | frontend/src/utils/deployContracts.ts:49-191 | the step at which a run stops is the first step whose artifact is missing or whose transaction throws; no earlier step fails |
| DeployContracts.SetFactoryFailed | frontend/src/utils/deployContracts.ts:160-163 | a failed `setTREXFactory` is rethrown as a new error, which carries no code and no reason |
| Common.CaughtMessage | frontend/src/utils/deployContracts.ts:214-226 | the rethrown message is never empty: insufficient funds and a rejection (`ACTION_REJECTED` or code 4001) get their fixed messages, and an error with any other code, or none, gives its reason, else its message, else "Deployment failed"; `deploy3643.ts` lines 120-128 have the same shape with their own two messages |
| DeployContracts.GetDeployedContracts | frontend/src/utils/deployContracts.ts:241-252 | a record is returned exactly for a 2xx reply, and it is that reply's body; a 404, any other status or no reply gives null |
| DeployContracts.RunStep | frontend/src/utils/deployContracts.ts:49-54 | one step reports 'deploying', submits the table's transaction unless the artifact is missing, and then reports 'complete' with the new address or leaves the run stopped at this step with its error |
| DeployContracts.DeployTokenImplementations | frontend/src/utils/deployContracts.ts:49-72 | steps 0-2 return the three confirmed addresses and extend the trace and the transactions, or stop at the first failure |
| DeployContracts.DeployIdentityImplementations | frontend/src/utils/deployContracts.ts:76-99 | steps 3-5 return the three confirmed addresses and extend the trace and the transactions, or stop at the first failure |
| DeployContracts.DeployAuthority | frontend/src/utils/deployContracts.ts:103-131 | the authority is built with (true, zero, zero), and version 4.0.0 is registered with the six implementations in the contract's field order |
| DeployContracts.DeployFactory | frontend/src/utils/deployContracts.ts:135-163 | the identity factory and the suite factory are built on the authority, the factory is bound, and a failed binding is rewrapped |
| DeployContracts.DeployGateway | frontend/src/utils/deployContracts.ts:165-191 | the gateway is built on the factory and the operator, receives the factory's ownership, and switches public deployment on |
| DeployContracts.DeploymentBody | frontend/src/utils/deployContracts.ts:37-214 | the outcome, events, transactions and save request are exactly those of the reference run `Orchestrate` |
| DeployContracts.DeployContractsWithProgress | frontend/src/utils/deployContracts.ts:28-227 | the result is the deployed set, or the outer catch's message for the run's error |
| DeployContracts.StepTracePrefix | frontend/src/utils/deployContracts.ts:49-191 | the trace of a shorter successful prefix is a prefix of a longer one |
| DeployContracts.FullTraceStep | frontend/src/utils/deployContracts.ts:49-191 | in the full trace, step j reports 'deploying' and then 'complete' with its constructed address, at positions 2+2j and 3+2j |
| DeployContracts.FullTraceCut | frontend/src/utils/deployContracts.ts:49-191 | the full trace cut after step k's 'deploying' event is the trace a run that fails at k reports |
| DeployContracts.EventsArePrefixOfFullTrace | frontend/src/utils/deployContracts.ts:37-191 | whatever the oracles answer, a run's events are a prefix of the all-success trace |
| DeployContracts.NoErrorEvents | frontend/src/utils/deployContracts.ts:7-12 | no run ever reports the 'error' status that the progress type allows |
| DeployContracts.FullTraceCompleteFollowsDeploying | frontend/src/utils/deployContracts.ts:49-191 | in the full trace every 'complete' event directly follows the same step's 'deploying' event |
| DeployContracts.CompleteFollowsDeploying | frontend/src/utils/deployContracts.ts:37-191 | in any run, every 'complete' event directly follows the same step's 'deploying' event |
| DeployContracts.AbortOnFirstFailure | frontend/src/utils/deployContracts.ts:37-214 | a failure at step k ends the run after k's 'deploying' event; the transactions before k (and k's own unless its artifact was missing) are submitted, nothing after, and nothing is saved |
| DeployContracts.SuccessExactlyWhenAllStepsConfirm | frontend/src/utils/deployContracts.ts:37-207 | a run succeeds exactly when the artifacts load, IdFactory is present and every step confirms; it then submits all fourteen transactions and saves, and only then |
| DeployContracts.ArtifactFailureComesFirst | frontend/src/utils/deployContracts.ts:37-45 | a failed download or a missing IdFactory artifact fails before any transaction, after only the first 'Loading artifacts' event |
| DeployContracts.WiringReadsOnlyEarlierSteps | frontend/src/utils/deployContracts.ts:103-191 | each transaction depends only on the addresses of earlier steps |
| DeployContracts.CallsTargetEarlierConstructions | frontend/src/utils/deployContracts.ts:117-189 | every configuration call targets a contract an earlier step constructed |
| DeployContracts.ResultOmitsIdFactory | frontend/src/utils/deployContracts.ts:193-205 | the returned set depends neither on the identity factory's address nor on any configuration call |
| DeployContracts.SetFactoryRejectionIsRewrapped | frontend/src/utils/deployContracts.ts:153-163 | a user rejection of `setTREXFactory` loses its code, so the caller gets the rewrapped text and not the rejection message |
| DeployContracts.MapDeployErrorBranches | frontend/src/utils/deployContracts.ts:218-225 | insufficient funds, rejection by code ACTION_REJECTED or 4001; for any other code, or none, the reason, else the message, else "Deployment failed" |
| DeployContracts.AddressesJsonRoundTrip | frontend/src/utils/deployContracts.ts:229-252 | a saved address set read back, with the cache's extra fields, yields the same addresses |
| Step0Contracts.InitialSteps | frontend/src/components/TokenWizard/Step0Contracts.tsx:72-86 | a new run lists the thirteen names in order, all pending, with no address |
| Step0Contracts.StatusOf | frontend/src/components/TokenWizard/Step0Contracts.tsx:103 | 'deploying' and 'complete' show as themselves, and anything else shows as 'error' |
| Step0Contracts.FirstIndexOfName | frontend/src/components/TokenWizard/Step0Contracts.tsx:98 | the result is the first index whose name matches, or none when no name matches |
| Step0Contracts.FirstDeployingIndex | frontend/src/components/TokenWizard/Step0Contracts.tsx:120 | the result is the first index whose status is 'deploying', or none when no entry is deploying |
| Step0Contracts.LastEventFor | frontend/src/components/TokenWizard/Step0Contracts.tsx:95-109 | nothing is found exactly when no event carries the name; otherwise the event found carries the name and is the last event that does |
| Step0Contracts.ContractsPanel.OnProgress | frontend/src/components/TokenWizard/Step0Contracts.tsx:96-109 | the list after a progress event is `ApplyProgress` of the list before |
| Step0Contracts.ContractsPanel.MarkDeployingAsError | frontend/src/components/TokenWizard/Step0Contracts.tsx:118-125 | the list after a failure is `MarkFailure` of the list before |
| Step0Contracts.ContractsPanel.ReplayProgress | frontend/src/components/TokenWizard/Step0Contracts.tsx:95-110 | applying the events one by one gives `ApplyAll` of them |
| Step0Contracts.ContractsPanel.HandleDeploy | frontend/src/components/TokenWizard/Step0Contracts.tsx:62-130 | without a connected account and signer nothing changes; otherwise the run is the orchestrator's, the addresses are stored or the error is recorded and the failing entry marked, and both in-progress flags end false |
| Step0Contracts.ContractsPanel.HandleRedeploy | frontend/src/components/TokenWizard/Step0Contracts.tsx:132-136 | the addresses, the error and the progress list are cleared |
| Step0Contracts.ContractsPanel.CheckExistingDeployment | frontend/src/components/TokenWizard/Step0Contracts.tsx:36-60 | with a connected account, a cached record with a truthy gateway and a truthy factory is adopted; anything else changes nothing |
| Step0Contracts.ApplyAllKeepsNames | frontend/src/components/TokenWizard/Step0Contracts.tsx:96-109 | progress events never change or move any entry's name |
| Step0Contracts.ApplyAllEntry | frontend/src/components/TokenWizard/Step0Contracts.tsx:96-109 | with distinct names, each entry ends as the last event that named it, or as it started |
| Step0Contracts.ApplyProgressEffect | frontend/src/components/TokenWizard/Step0Contracts.tsx:96-109 | an event replaces only the first entry with its name; an unlisted name changes nothing |
| Step0Contracts.MarkFailureEffect | frontend/src/components/TokenWizard/Step0Contracts.tsx:118-125 | only the first deploying entry changes, and only its status, to 'error' |
| Step0Contracts.ListedNamesDistinct | frontend/src/components/TokenWizard/Step0Contracts.tsx:72-86 | the thirteen listed names are distinct |
| Step0Contracts.RunEventNames | frontend/src/utils/deployContracts.ts:37-191 | every reported event names 'Loading artifacts' or one of the fourteen steps |
| Step0Contracts.ConfiguringImplementationsStaysPending | frontend/src/components/TokenWizard/Step0Contracts.tsx:81 | 'Configuring implementations' is listed but never reported, so it stays pending whatever the run does |
| Step0Contracts.CompletedTraceLastEvents | frontend/src/utils/deployContracts.ts:49-191 | after m successful steps, each name's last event is absent or 'complete' |
| Step0Contracts.FailedRunEvents | frontend/src/utils/deployContracts.ts:37-191 | a failed run's events end with a 'deploying' event, and before it each name's last event is absent or 'complete' |
| Step0Contracts.MarkSingleDeploying | frontend/src/components/TokenWizard/Step0Contracts.tsx:118-125 | marking a list in which only one name is deploying turns exactly that entry to 'error' |
| Step0Contracts.FailureMarksOnlyTheFailingStep | frontend/src/components/TokenWizard/Step0Contracts.tsx:95-125 | after a failed run, the entry named like the failing step is the only one in 'error' (none when that step is not listed) |
| ContractsRoute.SearchEntries | backend/src/routes/contracts.ts:21-45 | a hit lies under the searched directory and is named `<contract>.json` |
| ContractsRoute.FindArtifact | backend/src/routes/contracts.ts:21-45 | the recursive loop returns what the reference search returns |
| ContractsRoute.SearchHitIsInTree | backend/src/routes/contracts.ts:21-45 | the returned file exists in the tree at that path, with that file's contents |
| ContractsRoute.SearchFindsIntactFile | backend/src/routes/contracts.ts:21-45 | where every entry can be stat'ed, an artifact file anywhere in the tree is found |
| ContractsRoute.FirstFailing | backend/src/routes/contracts.ts:66-92 | the result is the first contract that fails to load, or none when all load |
| ContractsRoute.LoadContract | backend/src/routes/contracts.ts:67-91 | one loop pass finds, reads and parses the contract's artifact, or fails with the route's message |
| ContractsRoute.GetArtifacts | backend/src/routes/contracts.ts:47-103 | the reply is the reference reply: 500 without the directory, the first failing contract's error, or every entry |
| ContractsRoute.ServedHasEveryContract | backend/src/routes/contracts.ts:66-95 | a served reply has exactly the ten listed contracts, each with its file's abi and bytecode |
| ContractsRoute.FailureNamesFirstMissing | backend/src/routes/contracts.ts:66-92 | a failed reply names the first contract in list order that does not load, with its message |
| ContractsRoute.ServedCoversDeployment | backend/src/routes/contracts.ts:8-19 | every artifact the orchestrator reads, IdFactory included, is served |
| ContractsRoute.SaveEffect | backend/src/routes/contracts.ts:105-127 | a save writes exactly when the three fields are truthy and the address is a string; a falsy field gives 400; the key is the lower-cased address, a dash and the chain text |
| ContractsRoute.Lookup | backend/src/routes/contracts.ts:129-145 | 200 with the record exactly when the key is cached, 404 with "No deployment found" otherwise |
| ContractsRoute.DeploymentCache.SaveDeployment | backend/src/routes/contracts.ts:105-127 | a refused save changes nothing; an accepted one writes the record under its key and replies success |
| ContractsRoute.DeploymentCache.GetDeployment | backend/src/routes/contracts.ts:129-145 | the reply is `Lookup` of the cache |
| ContractsRoute.DashSplit | backend/src/routes/contracts.ts:113 | two keys with dash-free address parts are equal only when both parts are equal |
| ContractsRoute.CacheKeyInjective | backend/src/routes/contracts.ts:113 | for addresses without a dash, equal keys mean equal lower-cased addresses and equal chain texts |
| ContractsRoute.LookupIgnoresCase | backend/src/routes/contracts.ts:132 | the letter case of the requested address never matters |
| ContractsRoute.StoredRecordFields | backend/src/routes/contracts.ts:114-119 | the record holds the deployment's fields, overlaid with deployedAt, userAddress and chainId as sent |
| ContractsRoute.SaveThenLookup | backend/src/routes/contracts.ts:105-145 | a save is read back under any letter case of the address and the chain text, and every other key reads as before |
| ContractsRoute.FrontendRoundTrip | frontend/src/utils/deployContracts.ts:229-252 | the address set the frontend saves is the one it reads back, whatever the letter case of the address in either request |
| TokenSuite.ClaimDetailsOf | frontend/src/utils/deploy3643.ts:63-69 | one claim list per trusted issuer |
| TokenSuite.GasLimit | frontend/src/utils/deploy3643.ts:71-80 | the estimate plus 20 %, rounded down and never below the estimate; 8000000 when estimation fails or the estimate is too large for `toNumber` |
| TokenSuite.FirstSuiteLog | frontend/src/utils/deploy3643.ts:90-101 | the result is the first log that decodes as the suite event, or none |
| TokenSuite.FindSuiteEvent | frontend/src/utils/deploy3643.ts:90-101 | the loop returns the first suite event's arguments, skipping logs that do not decode |
| TokenSuite.ExplorerUrl | frontend/src/utils/deploy3643.ts:131-145 | a link exists exactly for chains 1, 11155111, 137 and 42161, and the local chains 31337 and 1337 have none |
| TokenSuite.SuiteBody | frontend/src/utils/deploy3643.ts:22-118 | the outcome and the gateway requests are those of the reference `SuiteSpec` |
| TokenSuite.DeployTokenSuite | frontend/src/utils/deploy3643.ts:16-129 | the result is the suite, or the catch's message for the error |
| TokenSuite.GateBlocksSubmission | frontend/src/utils/deploy3643.ts:22-48 | without a provider, or when the signer is neither a public nor a listed deployer, nothing is submitted and the matching message is thrown |
| TokenSuite.SubmissionOnlyWhenAuthorized | frontend/src/utils/deploy3643.ts:41-88 | a submission happens only for an authorized deployer, after both reads and the estimate, with the limit the estimate gives |
| TokenSuite.TokenDetailsShape | frontend/src/utils/deploy3643.ts:50-61 | the signer owns the token and is its only agent on both lists; the storage and identity links are the zero address; there are no compliance modules |
| TokenSuite.ClaimDetailsShape | frontend/src/utils/deploy3643.ts:63-69 | the issuers are the trusted issuers; each issuer's list is its own when defined and the token's topics otherwise |
| TokenSuite.ScanTakesFirstSuiteEvent | frontend/src/utils/deploy3643.ts:90-105 | the scan takes the first decodable suite event |
| TokenSuite.UndecodableLogsAreSkipped | frontend/src/utils/deploy3643.ts:94-99 | logs that do not decode never change the outcome of the scan |
| TokenSuite.SuiteMapsEventFields | frontend/src/utils/deploy3643.ts:103-116 | a successful run returns the event's addresses in their roles, with the signer as deployer |
| TokenSuite.MapSuiteErrorBranches | frontend/src/utils/deploy3643.ts:120-128 | insufficient funds, rejection; for any other code, or none, the reason, else the message, else "Deployment failed"; the body's own errors keep their text |
| TokenSuite.ExplorerUrlEndsWithAddress | frontend/src/utils/deploy3643.ts:141-144 | a link, when there is one, ends with the address |
| TokenSlice.ResetState | frontend/src/redux/tokenSlice.ts:66-73 | a reset restores the initial state except the two in-progress flags, which keep their values |
| TokenSlice.TokenStore.constructor | frontend/src/redux/tokenSlice.ts:15-31 | the store starts at the initial state |
| TokenSlice.TokenStore.SetCurrentStep | frontend/src/redux/tokenSlice.ts:37-39 | only the step changes |
| TokenSlice.TokenStore.UpdateConfig | frontend/src/redux/tokenSlice.ts:40-42 | the configuration becomes the shallow merge of the patch over it, and nothing else changes |
| TokenSlice.TokenStore.SetDeploying | frontend/src/redux/tokenSlice.ts:43-45 | only the deploying flag changes |
| TokenSlice.TokenStore.SetDeployedSuite | frontend/src/redux/tokenSlice.ts:46-49 | the suite is recorded and the deploying flag cleared |
| TokenSlice.TokenStore.SetDeploymentError | frontend/src/redux/tokenSlice.ts:50-53 | the error is recorded and the deploying flag cleared |
| TokenSlice.TokenStore.SetContractAddresses | frontend/src/redux/tokenSlice.ts:54-58 | the addresses are recorded, the contracts flag and the contracts error cleared |
| TokenSlice.TokenStore.SetDeployingContracts | frontend/src/redux/tokenSlice.ts:59-61 | only the contracts flag changes |
| TokenSlice.TokenStore.SetContractDeploymentError | frontend/src/redux/tokenSlice.ts:62-65 | the contracts error is recorded and the contracts flag cleared |
| TokenSlice.TokenStore.ResetWizard | frontend/src/redux/tokenSlice.ts:66-73 | the new state is `ResetState` of the old |
| TokenSlice.MergeFields | frontend/src/redux/tokenSlice.ts:40-42 | a present patch field wins and an absent one keeps the base |
| TokenSlice.MergeIdentity | frontend/src/redux/tokenSlice.ts:40-42 | the empty patch changes nothing |
| TokenSlice.MergeIdempotent | frontend/src/redux/tokenSlice.ts:40-42 | applying a patch twice is applying it once |
| TokenSlice.MergeAssociative | frontend/src/redux/tokenSlice.ts:40-42 | two patches in a row act as their merge |
| TokenSlice.InitialConfigDefaults | frontend/src/redux/tokenSlice.ts:15-31 | 18 decimals, 2000 investors, empty lists, no name, symbol or supply, step 0 and nothing deployed |
| WalletSlice.WalletStore.SetWallet | frontend/src/redux/walletSlice.ts:23-37 | the state becomes `Reduce` of the old state by the set action |
| WalletSlice.WalletStore.DisconnectWallet | frontend/src/redux/walletSlice.ts:38-44 | the state becomes `Reduce` of the old state by the disconnect action, the initial state |
| WalletSlice.ReduceIsConsistent | frontend/src/redux/walletSlice.ts:23-44 | each reducer leaves 'connected' true exactly when an address is recorded |
| WalletSlice.ReduceAllIsConsistent | frontend/src/redux/walletSlice.ts:11-44 | along any sequence of reducers from a consistent state, 'connected' holds exactly when an address is recorded |
| WalletSlice.DisconnectResets | frontend/src/redux/walletSlice.ts:23-44 | disconnecting is idempotent, and connecting then disconnecting gives the initial state |
| TokenWizard.CanGoNext | frontend/src/components/TokenWizard/TokenWizard.tsx:76-91 | per step: contracts at 0; name, symbol and decimals at 1; always at 2 and 4; a topic at 3; never otherwise |
| TokenWizard.Wizard.HandleNext | frontend/src/components/TokenWizard/TokenWizard.tsx:41-70 | the new store is `AfterNext`, and the gateway requests are those of the deployment it starts, if any |
| TokenWizard.Wizard.HandleBack | frontend/src/components/TokenWizard/TokenWizard.tsx:72-74 | the step decreases by one |
| TokenWizard.NextNeedsContracts | frontend/src/components/TokenWizard/TokenWizard.tsx:42-45 | Next at step 0 without contract addresses changes nothing and sends nothing |
| TokenWizard.NextAdvances | frontend/src/components/TokenWizard/TokenWizard.tsx:67-69 | away from step 4, Next advances one step and changes nothing else |
| TokenWizard.ReviewGateHolds | frontend/src/components/TokenWizard/TokenWizard.tsx:46-56 | at step 4, a missing wallet, signer or contracts, or an incomplete configuration, keeps the step and sends nothing |
| TokenWizard.ReviewDeploys | frontend/src/components/TokenWizard/TokenWizard.tsx:58-66 | a deployment ends at step 5, no longer deploying, with the suite or a non-empty error recorded |
| TokenWizard.ClickStaysInRange | frontend/src/components/TokenWizard/TokenWizard.tsx:127-143 | one enabled press keeps the step within 0..5 |
| TokenWizard.ClicksStayInRange | frontend/src/components/TokenWizard/TokenWizard.tsx:127-143 | with the button guards, any sequence of presses keeps the step within 0..5 |
| TokenWizard.FinishedWizardIsFrozen | frontend/src/components/TokenWizard/TokenWizard.tsx:127 | once a suite exists or step 5 is reached, no press changes anything |
| IdentityEditor.Spliced | frontend/src/components/TokenWizard/Step2Identity.tsx:79-87 | `splice(index, 1)`: removes the position, counts a negative index from the end, and ignores an index past the end |
| IdentityEditor.IdentityPanel.HandleAddIssuer | frontend/src/components/TokenWizard/Step2Identity.tsx:43-77 | a rejected add shows its reason and leaves the store; an accepted one appends the issuer and its topics, and clears the form |
| IdentityEditor.IdentityPanel.HandleRemoveIssuer | frontend/src/components/TokenWizard/Step2Identity.tsx:79-87 | both lists are spliced at the index |
| IdentityEditor.IdentityPanel.HandleClaimTopicToggle | frontend/src/components/TokenWizard/Step2Identity.tsx:89-95 | the selection is toggled and nothing else changes |
| IdentityEditor.IdentityPanel.HandleIssuerInput | frontend/src/components/TokenWizard/Step2Identity.tsx:173-176 | typing sets the pending issuer to the text and clears the error; the topic selection is kept |
| IdentityEditor.InitialIssuersWellFormed | frontend/src/redux/tokenSlice.ts:15-31 | the wizard starts with no issuers, which is well formed |
| IdentityEditor.AddAppendsAtSameIndex | frontend/src/components/TokenWizard/Step2Identity.tsx:67-76 | an accepted add puts the issuer and its topics at the same new last position and keeps earlier entries |
| IdentityEditor.AddKeepsWellFormed | frontend/src/components/TokenWizard/Step2Identity.tsx:43-76 | an add keeps the lists parallel, duplicate-free and with topics for every issuer |
| IdentityEditor.AddRejections | frontend/src/components/TokenWizard/Step2Identity.tsx:43-65 | an add is accepted exactly when all checks pass, and each rejection shows its reason in check order |
| IdentityEditor.RemoveDeletesPosition | frontend/src/components/TokenWizard/Step2Identity.tsx:79-87 | removal at a listed position deletes it from both lists, keeps the rest in order and keeps the lists well formed |
| IdentityEditor.RemoveKeepsParallel | frontend/src/components/TokenWizard/Step2Identity.tsx:79-87 | removal at any index, even one outside the lists, keeps them the same length |
| IdentityEditor.ToggleEffect | frontend/src/components/TokenWizard/Step2Identity.tsx:89-95 | a selected topic is dropped and another appended; no other topic changes and none appears twice |
| ComplianceEditor.CompliancePanel.HandleClaimTopicChange | frontend/src/components/TokenWizard/Step3Compliance.tsx:49-60 | the topics become the appended or filtered list, merged into the configuration |
| ComplianceEditor.CompliancePanel.HandleAddCountry | frontend/src/components/TokenWizard/Step3Compliance.tsx:62-82 | a rejected code changes nothing; an accepted one is appended upper-cased, and the input is cleared |
| ComplianceEditor.CompliancePanel.HandleRemoveCountry | frontend/src/components/TokenWizard/Step3Compliance.tsx:84-87 | every occurrence of the code is filtered out |
| ComplianceEditor.CompliancePanel.HandleCountryInput | frontend/src/components/TokenWizard/Step3Compliance.tsx:397 | typing keeps the pending code upper-cased, of the typed length, with no lower-case letter |
| ComplianceEditor.TopicChangeEffect | frontend/src/components/TokenWizard/Step3Compliance.tsx:49-60 | checking appends; unchecking drops every occurrence and keeps every other topic |
| ComplianceEditor.UncheckKeepsOrder | frontend/src/components/TokenWizard/Step3Compliance.tsx:56-58 | unchecking keeps the topics around a removed one in their order |
| ComplianceEditor.AddRejectsBadLength | frontend/src/components/TokenWizard/Step3Compliance.tsx:63-66 | an input that is not exactly two characters is rejected |
| ComplianceEditor.AddUpperCasesFirst | frontend/src/components/TokenWizard/Step3Compliance.tsx:68-81 | the duplicate check compares the upper-cased code, so a listed code in any letter case is rejected |
| ComplianceEditor.AddKeepsCountriesWellFormed | frontend/src/components/TokenWizard/Step3Compliance.tsx:62-82 | adding keeps the list of two-letter upper-case codes free of duplicates |
| ComplianceEditor.RemoveKeepsCountriesWellFormed | frontend/src/components/TokenWizard/Step3Compliance.tsx:84-87 | removing deletes every occurrence, keeps every other code and keeps the list well formed |
| ComplianceEditor.InitialCountriesWellFormed | frontend/src/redux/tokenSlice.ts:15-31 | the wizard starts with an empty, well-formed country list |
| ReviewStep.ClaimTopicName | frontend/src/components/TokenWizard/Step4Review.tsx:25-27 | every topic has a non-empty name |
| ReviewStep.IsValid | frontend/src/components/TokenWizard/Step4Review.tsx:29-37 | valid exactly when the wizard's field check passes and decimals are defined, so a valid configuration always passes that check |
| ReviewStep.ValidPassesWizardCheck | frontend/src/components/TokenWizard/Step4Review.tsx:29-37 | a valid configuration passes the wizard's field check before deploying |
| ReviewStep.WizardCheckIgnoresDecimals | frontend/src/components/TokenWizard/TokenWizard.tsx:53-56 | the wizard's check is weaker than the review's: it passes a configuration without decimals |
| ReviewStep.ZeroDecimalsAreValid | frontend/src/components/TokenWizard/Step4Review.tsx:29-37 | zero decimals count as defined and missing decimals do not |
| ReviewStep.ClaimTopicNames | frontend/src/components/TokenWizard/Step4Review.tsx:15-27 | the four preset topics have their names, and any other number is "Topic n" |
| ReviewStep.FallbackNamesAreDistinct | frontend/src/components/TokenWizard/Step4Review.tsx:25-27 | a fallback name never equals a preset name |
| HardhatConfig.Normalised | hardhat.config.ts:19-21 | the key gains the "0x" prefix unless it has it already |
| HardhatConfig.GetAccounts | hardhat.config.ts:11-29 | at most one account; none when the key is unset or empty or of the wrong length; otherwise the prefixed 66-character key |
| HardhatConfig.NormalisedIdempotent | hardhat.config.ts:19-21 | normalising twice is normalising once |
| HardhatConfig.PrefixIsOptional | hardhat.config.ts:19-28 | a bare 64-character key and the prefixed key give the same account |
| HardhatConfig.WrongLengthYieldsNone | hardhat.config.ts:23-26 | a key of any other length gives no account |
| Common.UpperIsUpperCase | frontend/src/components/TokenWizard/Step3Compliance.tsx:69 | an upper-cased string has no lower-case letter |
| Common.NatToStringRoundTrip | frontend/src/components/TokenWizard/Step4Review.tsx:25 | reading the decimal digits of a rendered number back gives the number |
| Common.IntToStringRoundTrip | frontend/src/components/TokenWizard/Step4Review.tsx:25 | the same for any integer: an optional minus sign, then digits that read back to the absolute value |
| Common.LowerIdempotent | backend/src/routes/contracts.ts:113 | lower-casing twice is lower-casing once |
| Common.RemoveAllConcat | frontend/src/components/TokenWizard/Step3Compliance.tsx:85 | filtering a concatenation is concatenating the filtered parts |
| Common.RemoveAllKeepsDistinct | frontend/src/components/TokenWizard/Step3Compliance.tsx:85 | filtering keeps a duplicate-free list free of duplicates |

## Left out

- Network, browser and server I/O are not modelled. This covers the
  ethers provider and contracts, axios, Express and `fs`. Their answers
  are oracle parameters, and the file system is an abstract tree.
- The chain is modelled as one outcome per step, indexed by step
  position. Gas, nonces, timing and receipts beyond success or failure
  are left out.
- `Promise.all` over the two gateway reads is sequential. Its timing and
  interleaving are not modelled.
- `getAddress` on the signer is assumed to succeed. The signer's address
  is a field of the `Signer` value.
- The factory contract object created in `deployTokenSuite` is never used
  by the source, so it is not modelled.
- TokenSuite.GasLimit: the source multiplies the estimate, converted by
  `toNumber`, by the double 1.2 and floors the product. The model takes
  the exact floor of 6e/5 and does not model double rounding. The
  `toNumber` throw on an estimate of 2^53 or more is modelled: the same
  catch then keeps the default limit.
- React rendering, re-rendering, batching and stale closures are not
  modelled. The progress callback's updates are applied after the run,
  in the order they were reported. The panel's own flags are plain
  fields.
- Step0Contracts.ContractsPanel.MarkDeployingAsError: the source writes
  the status into the entry object the shallow copy shares with the
  previous list. The model updates a value copy, so the aliasing is not
  captured.
- Step0Contracts.ContractsPanel.CheckExistingDeployment: the store keeps
  only the address fields of an adopted record. The source stores the
  whole record, extra fields included.
- Browser alerts and console output are not modelled.
- String lengths count characters (code points). JavaScript's `length`
  counts UTF-16 code units, so the two differ outside the Basic
  Multilingual Plane. This affects the two-letter country check and the
  length of a private key.
- Upper- and lower-casing are ASCII only. JavaScript's full Unicode case
  mapping is not modelled.
- A `process.env` value is modelled as an `Option<string>`, and
  `ethers.utils.isAddress` as a boolean parameter.
- ContractsRoute.SpreadFields: spreading a non-object deployment, such as
  a string or an array, contributes no fields. The source would spread
  indices or characters.
- The endpoints' part of JSON serialisation is left out. The artifacts
  reply is a map, so key order is not modelled. The `path` field of the
  500 reply for a missing artifacts directory is left out, because it is
  a server-side file path the model does not have.
- The outer try/catch of `/artifacts` and the 500 catch-alls of the two
  cache routes are left out. The one failure inside them that the model
  reaches is a non-string address in a save, modelled as 500 with
  JavaScript's message.
- A failed `readdirSync` is modelled like an entry that cannot be
  stat'ed: it ends that listing with no hit.
- Other parts of the application are not part of this model:
  - the general-information step and the deploy step (`Step1General`,
    `Step5Deploy`);
  - the layout and the pages;
  - the `useWallet` hook;
  - the scripts under `scripts/`;
  - the Hardhat network and compiler settings other than the account list;
  - the backend server setup.
- The compliance presets and the token types are transcribed as
  constants and datatypes, and only the fields the core reads are used.
