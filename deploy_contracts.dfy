/** The infrastructure deployment orchestrator
    (frontend/src/utils/deployContracts.ts).

    A run loads the compiled artifacts, then submits fourteen transactions in
    a fixed order: six implementation contracts, the implementation authority,
    the version registration, the identity factory, the suite factory, the
    factory binding, the gateway, the ownership transfer and the public
    deployment switch. Each step reports 'deploying' before it submits and
    'complete' after confirmation; the first failure ends the run.

    The ledger is an oracle: `oracle[j]` is what the network answers to the
    transaction of step j (confirmed at an address, or a thrown error). The
    artifact download is another oracle (`ArtifactLoad`). A run yields the
    progress events it reported, the transactions it submitted, and, on
    success, the request it posts to the deployment cache. */
module DeployContracts {
  import opened Common
  import opened TokenTypes

  // ---------------------------------------------------------------------
  // Progress events, transactions and oracles

  /** `DeploymentProgress.status`. The type allows 'error'; the orchestrator never reports it. */
  datatype ProgressStatus = Deploying | Complete | Errored

  datatype DeploymentProgress = DeploymentProgress(step: string, status: ProgressStatus, address: Option<Address>)

  datatype Version = Version(major: nat, minor: nat, patch: nat)

  /** The implementation bundle of `addAndUseTREXVersion`, in its own field names. */
  datatype VersionImplementations = VersionImplementations(
    tokenImplementation: Address,
    ctrImplementation: Address,
    irImplementation: Address,
    irsImplementation: Address,
    tirImplementation: Address,
    mcImplementation: Address)

  datatype Arg =
    | AddressArg(address: Address)
    | BoolArg(flag: bool)
    | VersionArg(version: Version)
    | ImplementationsArg(implementations: VersionImplementations)

  /** One transaction: a contract construction (by artifact name) or a call on a deployed contract. */
  datatype Call =
    | Construct(contract: string, args: seq<Arg>)
    | Invoke(target: Address, entryPoint: string, args: seq<Arg>)

  /** What the network answers to one submitted transaction, confirmation included. */
  datatype TxOutcome = Confirmed(address: Address) | Reverted(failure: Failure)

  /** What `loadArtifacts` yields: a thrown HTTP error, or the names of the artifacts present. */
  datatype ArtifactLoad = LoadFailed(failure: Failure) | Loaded(names: set<string>)

  /** The body `saveDeployment` posts. */
  datatype SaveRequest = SaveRequest(userAddress: Address, chainId: int, deployment: ContractAddresses)

  /** Everything one run produces: the value or error the step sequence ends
      with (before the outer catch rewrites it), the progress events, the
      transactions and the save request. */
  datatype Run = Run(
    outcome: Result<ContractAddresses, Failure>,
    events: seq<DeploymentProgress>,
    calls: seq<Call>,
    saved: Option<SaveRequest>)

  // ---------------------------------------------------------------------
  // The step table: names, artifacts and wiring

  const LoadingArtifacts := "Loading artifacts"

  const StepCount := 14

  /** The progress name each transaction step reports, in execution order. */
  const StepNames: seq<string> := [
    "Token", "ClaimTopicsRegistry", "TrustedIssuersRegistry", "IdentityRegistryStorage",
    "IdentityRegistry", "ModularCompliance", "TREXImplementationAuthority",
    "Adding TREX version", "IdFactory", "TREXFactory", "Setting TREX Factory",
    "TREXGateway", "Transferring ownership", "Configuring gateway"]

  /** The artifact a construction step reads; configuration calls read none. */
  const StepArtifacts: seq<Option<string>> := [
    Some("Token"), Some("ClaimTopicsRegistry"), Some("TrustedIssuersRegistry"),
    Some("IdentityRegistryStorage"), Some("IdentityRegistry"), Some("ModularCompliance"),
    Some("TREXImplementationAuthority"), None, Some("IdFactory"), Some("TREXFactory"),
    None, Some("TREXGateway"), None, None]

  const AuthorityStep := 6
  const SetFactoryStep := 10
  const GatewayStep := 11

  const TrexVersion := Version(4, 0, 0)

  /** The transaction of step j, given the addresses `a` the steps confirmed
      at and the operator's address. Step j reads only `a[i]` for i < j. */
  function PlannedCall(a: seq<Address>, user: Address, j: nat): Call
    requires |a| == StepCount && j < StepCount
  {
    if j == 0 then Construct("Token", [])
    else if j == 1 then Construct("ClaimTopicsRegistry", [])
    else if j == 2 then Construct("TrustedIssuersRegistry", [])
    else if j == 3 then Construct("IdentityRegistryStorage", [])
    else if j == 4 then Construct("IdentityRegistry", [])
    else if j == 5 then Construct("ModularCompliance", [])
    else if j == 6 then
      Construct("TREXImplementationAuthority", [BoolArg(true), AddressArg(ZeroAddress), AddressArg(ZeroAddress)])
    else if j == 7 then
      Invoke(a[6], "addAndUseTREXVersion",
        [VersionArg(TrexVersion), ImplementationsArg(VersionImplementations(a[0], a[1], a[4], a[3], a[2], a[5]))])
    else if j == 8 then Construct("IdFactory", [AddressArg(a[6])])
    else if j == 9 then Construct("TREXFactory", [AddressArg(a[6]), AddressArg(a[8])])
    else if j == 10 then Invoke(a[6], "setTREXFactory", [AddressArg(a[9])])
    else if j == 11 then Construct("TREXGateway", [AddressArg(a[9]), AddressArg(user)])
    else if j == 12 then Invoke(a[9], "transferOwnership", [AddressArg(a[11])])
    else Invoke(a[11], "setPublicDeploymentStatus", [BoolArg(true)])
  }

  /** The first k planned transactions. */
  function PlannedCalls(a: seq<Address>, user: Address, k: nat): (calls: seq<Call>)
    requires |a| == StepCount && k <= StepCount
    ensures |calls| == k
    ensures forall j :: 0 <= j < k ==> calls[j] == PlannedCall(a, user, j)
  {
    seq(k, j requires 0 <= j < k => PlannedCall(a, user, j))
  }

  /** The address the 'complete' event of step j carries: constructions report the new contract. */
  function CompletedAddress(a: seq<Address>, j: nat): Option<Address>
    requires |a| == StepCount && j < StepCount
  {
    if StepArtifacts[j].Some? then Some(a[j]) else None
  }

  /** The events of the first k transaction steps when they all succeed. */
  function StepTrace(a: seq<Address>, k: nat): (t: seq<DeploymentProgress>)
    requires |a| == StepCount && k <= StepCount
    ensures |t| == 2 * k
    ensures forall i :: 0 <= i < |t| ==> t[i].status != Errored
  {
    if k == 0 then []
    else
      StepTrace(a, k - 1)
        + [DeploymentProgress(StepNames[k - 1], Deploying, None),
           DeploymentProgress(StepNames[k - 1], Complete, CompletedAddress(a, k - 1))]
  }

  /** The two artifact-loading events. */
  const Preamble := [DeploymentProgress(LoadingArtifacts, Deploying, None), DeploymentProgress(LoadingArtifacts, Complete, None)]

  /** The whole event trace of a run in which everything succeeds. */
  function FullTrace(a: seq<Address>): (t: seq<DeploymentProgress>)
    requires |a| == StepCount
    ensures |t| == 2 + 2 * StepCount
  {
    Preamble + StepTrace(a, StepCount)
  }

  /** The address each step confirmed at ("" for a step that did not confirm). */
  function ResultAddresses(oracle: seq<TxOutcome>): (a: seq<Address>)
    requires |oracle| >= StepCount
    ensures |a| == StepCount
  {
    seq(StepCount, i requires 0 <= i < StepCount => if oracle[i].Confirmed? then oracle[i].address else "")
  }

  /** The six implementation contracts, from the addresses of steps 0 to 5. */
  function ImplementationsOf(a: seq<Address>): Implementations
    requires |a| == StepCount
  {
    Implementations(a[0], a[1], a[2], a[3], a[4], a[5])
  }

  /** The infrastructure set a successful run returns: the six implementations,
      the authority, the suite factory and the gateway. */
  function AssembleAddresses(a: seq<Address>): ContractAddresses
    requires |a| == StepCount
  {
    ContractAddresses(ImplementationsOf(a), a[6], a[9], a[11])
  }

  // ---------------------------------------------------------------------
  // Where a run stops, and why

  /** Step j needs an artifact the download did not include. */
  predicate ArtifactMissing(names: set<string>, j: nat)
    requires j < StepCount
  {
    StepArtifacts[j].Some? && StepArtifacts[j].value !in names
  }

  /** Step j fails: its artifact is missing or its transaction throws. */
  predicate Stops(names: set<string>, oracle: seq<TxOutcome>, j: nat)
    requires j < StepCount && |oracle| >= StepCount
  {
    ArtifactMissing(names, j) || oracle[j].Reverted?
  }

  predicate NoStopBefore(names: set<string>, oracle: seq<TxOutcome>, k: nat)
    requires k <= StepCount && |oracle| >= StepCount
  {
    forall i :: 0 <= i < k ==> !Stops(names, oracle, i)
  }

  /** The first failing step at or after `from`, or StepCount if none fails. */
  function StopIndex(names: set<string>, oracle: seq<TxOutcome>, from: nat): (k: nat)
    requires from <= StepCount && |oracle| >= StepCount
    ensures from <= k <= StepCount
    ensures forall i :: from <= i < k ==> !Stops(names, oracle, i)
    ensures k < StepCount ==> Stops(names, oracle, k)
    decreases StepCount - from
  {
    if from == StepCount then StepCount
    else if Stops(names, oracle, from) then from
    else StopIndex(names, oracle, from + 1)
  }

  /** Reading `.abi` of an artifact that is not there. */
  const MissingArtifactFailure := Thrown("Cannot read properties of undefined (reading 'abi')")

  /** The rewrapping catch around `setTREXFactory`: message first, then reason; the code is dropped. */
  function SetFactoryFailed(f: Failure): (g: Failure)
    ensures g.code == NoCode && g.reason == ""
  {
    Thrown("setTREXFactory failed: " + Or(Or(f.message, f.reason), "Unknown error"))
  }

  /** What step j throws when it fails, before any rewrapping. */
  function RawStepFailure(names: set<string>, oracle: seq<TxOutcome>, j: nat): Failure
    requires j < StepCount && |oracle| >= StepCount && Stops(names, oracle, j)
  {
    if ArtifactMissing(names, j) then MissingArtifactFailure else oracle[j].failure
  }

  /** What reaches the outer catch when step j fails. */
  function StepFailure(names: set<string>, oracle: seq<TxOutcome>, j: nat): Failure
    requires j < StepCount && |oracle| >= StepCount && Stops(names, oracle, j)
  {
    if j == SetFactoryStep then SetFactoryFailed(RawStepFailure(names, oracle, j))
    else RawStepFailure(names, oracle, j)
  }

  /** The transactions submitted by a run that fails at step j: the earlier
      ones, and step j's own unless its artifact was missing. */
  function CallsUpTo(names: set<string>, a: seq<Address>, user: Address, j: nat): seq<Call>
    requires |a| == StepCount && j < StepCount
  {
    PlannedCalls(a, user, j) + (if ArtifactMissing(names, j) then [] else [PlannedCall(a, user, j)])
  }

  /** The reference behaviour of the `try` body of `deployContractsWithProgress`. */
  function Orchestrate(chainId: int, user: Address, load: ArtifactLoad, oracle: seq<TxOutcome>): Run
    requires |oracle| >= StepCount
  {
    match load
    case LoadFailed(f) =>
      Run(Err(f), [DeploymentProgress(LoadingArtifacts, Deploying, None)], [], None)
    case Loaded(names) =>
      if "IdFactory" !in names then
        Run(Err(Thrown("IdFactory artifact not found")), [DeploymentProgress(LoadingArtifacts, Deploying, None)], [], None)
      else
        var a := ResultAddresses(oracle);
        var k := StopIndex(names, oracle, 0);
        if k == StepCount then
          var d := AssembleAddresses(a);
          Run(Ok(d), Preamble + StepTrace(a, StepCount), PlannedCalls(a, user, StepCount), Some(SaveRequest(user, chainId, d)))
        else
          Run(Err(StepFailure(names, oracle, k)),
              Preamble + StepTrace(a, k) + [DeploymentProgress(StepNames[k], Deploying, None)],
              CallsUpTo(names, a, user, k),
              None)
  }

  const FundsMessage := "Insufficient funds for deployment. Please add more funds to your wallet."
  const RejectedMessage := "Transaction was rejected by user."

  /** The outer catch of `deployContractsWithProgress`: the message the caller receives. */
  function MapDeployError(f: Failure): string
  {
    CaughtMessage(f, FundsMessage, RejectedMessage)
  }

  // ---------------------------------------------------------------------
  // The orchestrator

  /** The state after the first k steps all succeeded. */
  ghost predicate Reached(names: set<string>, oracle: seq<TxOutcome>, user: Address, k: nat,
                          events: seq<DeploymentProgress>, calls: seq<Call>)
    requires k <= StepCount && |oracle| >= StepCount
  {
    && NoStopBefore(names, oracle, k)
    && events == Preamble + StepTrace(ResultAddresses(oracle), k)
    && calls == PlannedCalls(ResultAddresses(oracle), user, k)
  }

  /** The state a run ends in when its first failing step has been reported:
      what was reported and submitted, and the error that reaches the outer catch. */
  ghost predicate Stopped(names: set<string>, oracle: seq<TxOutcome>, user: Address,
                          events: seq<DeploymentProgress>, calls: seq<Call>, failure: Failure)
    requires |oracle| >= StepCount
  {
    var k := StopIndex(names, oracle, 0);
    && k < StepCount
    && failure == StepFailure(names, oracle, k)
    && events == Preamble + StepTrace(ResultAddresses(oracle), k) + [DeploymentProgress(StepNames[k], Deploying, None)]
    && calls == CallsUpTo(names, ResultAddresses(oracle), user, k)
  }

  /** One step of the run: report 'deploying', read the artifact, submit the
      transaction, report 'complete'. The source writes this pattern out once
      per step with its own name, artifact and transaction; here the name
      and artifact come from the step table and `call` is the copy's
      transaction. A failure is returned as it was thrown. */
  method RunStep(j: nat, call: Call,
                 artifacts: set<string>, oracle: seq<TxOutcome>, ghost user: Address,
                 events: seq<DeploymentProgress>, calls: seq<Call>)
    returns (ok: bool, address: Address, events': seq<DeploymentProgress>, calls': seq<Call>, failure: Failure)
    requires j < StepCount && |oracle| >= StepCount
    requires call == PlannedCall(ResultAddresses(oracle), user, j)
    requires Reached(artifacts, oracle, user, j, events, calls)
    ensures ok == !Stops(artifacts, oracle, j)
    ensures ok ==> address == ResultAddresses(oracle)[j] && Reached(artifacts, oracle, user, j + 1, events', calls')
    ensures !ok ==> StopIndex(artifacts, oracle, 0) == j && failure == RawStepFailure(artifacts, oracle, j)
    ensures !ok ==> events' == events + [DeploymentProgress(StepNames[j], Deploying, None)]
    ensures !ok ==> Stopped(artifacts, oracle, user, events', calls', StepFailure(artifacts, oracle, j))
  {
    ghost var a := ResultAddresses(oracle);
    var name, artifact := StepNames[j], StepArtifacts[j];
    events' := events + [DeploymentProgress(name, Deploying, None)];
    calls' := calls;
    address := "";
    failure := Thrown("");
    if artifact.Some? && artifact.value !in artifacts {
      ok := false;
      failure := MissingArtifactFailure;
      StopIndexIs(artifacts, oracle, j);
      return;
    }
    calls' := calls + [call];
    match oracle[j]
    case Reverted(f) =>
      ok := false;
      failure := f;
      StopIndexIs(artifacts, oracle, j);
    case Confirmed(addr) =>
      ok := true;
      address := addr;
      events' := events' + [DeploymentProgress(name, Complete, if artifact.Some? then Some(addr) else None)];
      PlannedCallsSnoc(a, user, j);
  }

  /** Steps 0 to 2: the token, claim-topics-registry and trusted-issuers-registry
      implementations, which take no constructor arguments. */
  method DeployTokenImplementations(artifacts: set<string>, oracle: seq<TxOutcome>, ghost user: Address,
                                    events: seq<DeploymentProgress>, calls: seq<Call>)
    returns (ok: bool, token: Address, claimTopicsRegistry: Address, trustedIssuersRegistry: Address,
             events': seq<DeploymentProgress>, calls': seq<Call>, failure: Failure)
    requires |oracle| >= StepCount
    requires Reached(artifacts, oracle, user, 0, events, calls)
    ensures var a := ResultAddresses(oracle);
      ok ==> token == a[0] && claimTopicsRegistry == a[1] && trustedIssuersRegistry == a[2]
             && Reached(artifacts, oracle, user, 3, events', calls')
    ensures !ok ==> Stopped(artifacts, oracle, user, events', calls', failure)
  {
    claimTopicsRegistry, trustedIssuersRegistry := "", "";
    ok, token, events', calls', failure := RunStep(0, Construct("Token", []), artifacts, oracle, user, events, calls);
    if !ok { return; }
    ok, claimTopicsRegistry, events', calls', failure := RunStep(1, Construct("ClaimTopicsRegistry", []), artifacts, oracle, user, events', calls');
    if !ok { return; }
    ok, trustedIssuersRegistry, events', calls', failure := RunStep(2, Construct("TrustedIssuersRegistry", []), artifacts, oracle, user, events', calls');
  }

  /** Steps 3 to 5: the identity-registry-storage, identity-registry and
      modular-compliance implementations, which take no constructor arguments. */
  method DeployIdentityImplementations(artifacts: set<string>, oracle: seq<TxOutcome>, ghost user: Address,
                                       events: seq<DeploymentProgress>, calls: seq<Call>)
    returns (ok: bool, identityRegistryStorage: Address, identityRegistry: Address, modularCompliance: Address,
             events': seq<DeploymentProgress>, calls': seq<Call>, failure: Failure)
    requires |oracle| >= StepCount
    requires Reached(artifacts, oracle, user, 3, events, calls)
    ensures var a := ResultAddresses(oracle);
      ok ==> identityRegistryStorage == a[3] && identityRegistry == a[4] && modularCompliance == a[5]
             && Reached(artifacts, oracle, user, 6, events', calls')
    ensures !ok ==> Stopped(artifacts, oracle, user, events', calls', failure)
  {
    identityRegistry, modularCompliance := "", "";
    ok, identityRegistryStorage, events', calls', failure := RunStep(3, Construct("IdentityRegistryStorage", []), artifacts, oracle, user, events, calls);
    if !ok { return; }
    ok, identityRegistry, events', calls', failure := RunStep(4, Construct("IdentityRegistry", []), artifacts, oracle, user, events', calls');
    if !ok { return; }
    ok, modularCompliance, events', calls', failure := RunStep(5, Construct("ModularCompliance", []), artifacts, oracle, user, events', calls');
  }

  /** Steps 6 and 7: the implementation authority, built with (true, zero,
      zero), and the registration of version 4.0.0 with the six implementations. */
  method DeployAuthority(artifacts: set<string>, oracle: seq<TxOutcome>, ghost user: Address, impl: Implementations,
                         events: seq<DeploymentProgress>, calls: seq<Call>)
    returns (ok: bool, authority: Address, events': seq<DeploymentProgress>, calls': seq<Call>, failure: Failure)
    requires |oracle| >= StepCount
    requires impl == ImplementationsOf(ResultAddresses(oracle))
    requires Reached(artifacts, oracle, user, 6, events, calls)
    ensures ok ==> authority == ResultAddresses(oracle)[6] && Reached(artifacts, oracle, user, 8, events', calls')
    ensures !ok ==> Stopped(artifacts, oracle, user, events', calls', failure)
  {
    ok, authority, events', calls', failure := RunStep(6,
      Construct("TREXImplementationAuthority", [BoolArg(true), AddressArg(ZeroAddress), AddressArg(ZeroAddress)]),
      artifacts, oracle, user, events, calls);
    if !ok { return; }
    var unused: Address;
    ok, unused, events', calls', failure := RunStep(7,
      Invoke(authority, "addAndUseTREXVersion",
        [VersionArg(TrexVersion),
         ImplementationsArg(VersionImplementations(impl.token, impl.claimTopicsRegistry, impl.identityRegistry,
                                                   impl.identityRegistryStorage, impl.trustedIssuersRegistry,
                                                   impl.modularCompliance))]),
      artifacts, oracle, user, events', calls');
  }

  /** Steps 8 to 10: the identity factory, the suite factory, and the factory
      binding on the authority, whose failure is rewrapped. */
  method DeployFactory(artifacts: set<string>, oracle: seq<TxOutcome>, ghost user: Address, authority: Address,
                       events: seq<DeploymentProgress>, calls: seq<Call>)
    returns (ok: bool, trexFactory: Address, events': seq<DeploymentProgress>, calls': seq<Call>, failure: Failure)
    requires |oracle| >= StepCount && authority == ResultAddresses(oracle)[6]
    requires Reached(artifacts, oracle, user, 8, events, calls)
    ensures ok ==> trexFactory == ResultAddresses(oracle)[9] && Reached(artifacts, oracle, user, 11, events', calls')
    ensures !ok ==> Stopped(artifacts, oracle, user, events', calls', failure)
  {
    trexFactory := "";
    var idFactory: Address;
    ok, idFactory, events', calls', failure := RunStep(8, Construct("IdFactory", [AddressArg(authority)]), artifacts, oracle, user, events, calls);
    if !ok { return; }
    ok, trexFactory, events', calls', failure := RunStep(9, Construct("TREXFactory", [AddressArg(authority), AddressArg(idFactory)]), artifacts, oracle, user, events', calls');
    if !ok { return; }
    var unused: Address;
    ok, unused, events', calls', failure := RunStep(10, Invoke(authority, "setTREXFactory", [AddressArg(trexFactory)]), artifacts, oracle, user, events', calls');
    if !ok {
      failure := SetFactoryFailed(failure);
    }
  }

  /** Steps 11 to 13, the inner try whose catch rethrows unchanged: the
      gateway, the factory's ownership transfer to it, and public deployment. */
  method DeployGateway(artifacts: set<string>, oracle: seq<TxOutcome>, userAddress: Address, trexFactory: Address,
                       events: seq<DeploymentProgress>, calls: seq<Call>)
    returns (ok: bool, trexGateway: Address, events': seq<DeploymentProgress>, calls': seq<Call>, failure: Failure)
    requires |oracle| >= StepCount && trexFactory == ResultAddresses(oracle)[9]
    requires Reached(artifacts, oracle, userAddress, 11, events, calls)
    ensures ok ==> trexGateway == ResultAddresses(oracle)[11] && Reached(artifacts, oracle, userAddress, StepCount, events', calls')
    ensures !ok ==> Stopped(artifacts, oracle, userAddress, events', calls', failure)
  {
    events', calls' := events, calls;
    var unused: Address;
    ok, trexGateway, events', calls', failure := RunStep(11, Construct("TREXGateway", [AddressArg(trexFactory), AddressArg(userAddress)]), artifacts, oracle, userAddress, events', calls');
    if !ok { return; }

    ok, unused, events', calls', failure := RunStep(12, Invoke(trexFactory, "transferOwnership", [AddressArg(trexGateway)]), artifacts, oracle, userAddress, events', calls');
    if !ok { return; }

    ok, unused, events', calls', failure := RunStep(13, Invoke(trexGateway, "setPublicDeploymentStatus", [BoolArg(true)]), artifacts, oracle, userAddress, events', calls');
  }

  /** The `try` body of `deployContractsWithProgress`. */
  method DeploymentBody(chainId: int, userAddress: Address, load: ArtifactLoad, oracle: seq<TxOutcome>)
    returns (outcome: Result<ContractAddresses, Failure>, events: seq<DeploymentProgress>, calls: seq<Call>, saved: Option<SaveRequest>)
    requires |oracle| >= StepCount
    ensures Run(outcome, events, calls, saved) == Orchestrate(chainId, userAddress, load, oracle)
  {
    events := [DeploymentProgress(LoadingArtifacts, Deploying, None)];
    calls := [];
    saved := None;
    if load.LoadFailed? {
      outcome := Err(load.failure);
      return;
    }
    var artifacts := load.names;
    if "IdFactory" !in artifacts {
      outcome := Err(Thrown("IdFactory artifact not found"));
      return;
    }
    events := events + [DeploymentProgress(LoadingArtifacts, Complete, None)];
    assert events == Preamble + StepTrace(ResultAddresses(oracle), 0);

    var ok: bool, failure: Failure;
    var token: Address, claimTopicsRegistry: Address, trustedIssuersRegistry: Address;
    ok, token, claimTopicsRegistry, trustedIssuersRegistry, events, calls, failure :=
      DeployTokenImplementations(artifacts, oracle, userAddress, events, calls);
    if !ok { outcome := Err(failure); return; }

    var identityRegistryStorage: Address, identityRegistry: Address, modularCompliance: Address;
    ok, identityRegistryStorage, identityRegistry, modularCompliance, events, calls, failure :=
      DeployIdentityImplementations(artifacts, oracle, userAddress, events, calls);
    if !ok { outcome := Err(failure); return; }

    var impl := Implementations(token, claimTopicsRegistry, trustedIssuersRegistry,
                                identityRegistryStorage, identityRegistry, modularCompliance);
    var authority: Address;
    ok, authority, events, calls, failure := DeployAuthority(artifacts, oracle, userAddress, impl, events, calls);
    if !ok { outcome := Err(failure); return; }

    var trexFactory: Address;
    ok, trexFactory, events, calls, failure := DeployFactory(artifacts, oracle, userAddress, authority, events, calls);
    if !ok { outcome := Err(failure); return; }

    var trexGateway: Address;
    ok, trexGateway, events, calls, failure := DeployGateway(artifacts, oracle, userAddress, trexFactory, events, calls);
    if !ok { outcome := Err(failure); return; }

    StopIndexIs(artifacts, oracle, StepCount);
    var deployment := ContractAddresses(impl, authority, trexFactory, trexGateway);
    // saveDeployment swallows its own failure, so its answer is not an input here.
    saved := Some(SaveRequest(userAddress, chainId, deployment));
    outcome := Ok(deployment);
  }

  /** `deployContractsWithProgress`: the step sequence inside the outer
      try/catch that turns any failure into the caller's message. */
  method DeployContractsWithProgress(chainId: int, userAddress: Address, load: ArtifactLoad, oracle: seq<TxOutcome>)
    returns (result: Result<ContractAddresses, string>, events: seq<DeploymentProgress>, calls: seq<Call>, saved: Option<SaveRequest>)
    requires |oracle| >= StepCount
    ensures var run := Orchestrate(chainId, userAddress, load, oracle);
      && events == run.events && calls == run.calls && saved == run.saved
      && (run.outcome.Ok? ==> result == Ok(run.outcome.value))
      && (run.outcome.Err? ==> result == Err(MapDeployError(run.outcome.error)))
  {
    var outcome;
    outcome, events, calls, saved := DeploymentBody(chainId, userAddress, load, oracle);
    match outcome
    case Ok(d) => result := Ok(d);
    case Err(f) => result := Err(MapDeployError(f));
  }

  // ---------------------------------------------------------------------
  // Saved deployments: the wire shape and the lookup

  /** The JSON object `saveDeployment` sends as `deployment`. */
  function AddressesToJson(d: ContractAddresses): map<string, Json>
  {
    map[
      "implementations" := JObj(map[
        "token" := JStr(d.implementations.token),
        "claimTopicsRegistry" := JStr(d.implementations.claimTopicsRegistry),
        "trustedIssuersRegistry" := JStr(d.implementations.trustedIssuersRegistry),
        "identityRegistryStorage" := JStr(d.implementations.identityRegistryStorage),
        "identityRegistry" := JStr(d.implementations.identityRegistry),
        "modularCompliance" := JStr(d.implementations.modularCompliance)]),
      "implementationAuthority" := JStr(d.implementationAuthority),
      "trexFactory" := JStr(d.trexFactory),
      "trexGateway" := JStr(d.trexGateway)]
  }

  /** A string field of a JSON object, "" when absent or not a string. */
  function TextField(m: map<string, Json>, key: string): string
  {
    if key in m && m[key].JStr? then m[key].s else ""
  }

  /** The address fields of a record read back from the cache; other fields are ignored. */
  function AddressesFromJson(m: map<string, Json>): ContractAddresses
  {
    var impl := if "implementations" in m && m["implementations"].JObj? then m["implementations"].fields else map[];
    ContractAddresses(
      Implementations(TextField(impl, "token"), TextField(impl, "claimTopicsRegistry"),
        TextField(impl, "trustedIssuersRegistry"), TextField(impl, "identityRegistryStorage"),
        TextField(impl, "identityRegistry"), TextField(impl, "modularCompliance")),
      TextField(m, "implementationAuthority"), TextField(m, "trexFactory"), TextField(m, "trexGateway"))
  }

  /** The keys of `AddressesToJson`. */
  const AddressKeys := {"implementations", "implementationAuthority", "trexFactory", "trexGateway"}

  /** An HTTP reply as axios sees it: a status and a JSON body, or no reply at all. */
  datatype HttpReply = Reply(status: int, body: Json) | NoReply

  /** `getDeployedContracts`: the body of a 2xx reply; null on a 404, any
      other status (axios throws for them) or a network failure. */
  function GetDeployedContracts(reply: HttpReply): (r: Option<Json>)
    ensures r.Some? <==> reply.Reply? && 200 <= reply.status < 300
    ensures r.Some? ==> r.value == reply.body
  {
    match reply
    case NoReply => None
    case Reply(status, body) => if 200 <= status < 300 then Some(body) else None
  }

  // ---------------------------------------------------------------------
  // Proof helpers

  lemma StopIndexIs(names: set<string>, oracle: seq<TxOutcome>, k: nat)
    requires k <= StepCount && |oracle| >= StepCount
    requires NoStopBefore(names, oracle, k)
    requires k < StepCount ==> Stops(names, oracle, k)
    ensures StopIndex(names, oracle, 0) == k
  {
  }

  lemma PlannedCallsSnoc(a: seq<Address>, user: Address, k: nat)
    requires |a| == StepCount && k < StepCount
    ensures PlannedCalls(a, user, k + 1) == PlannedCalls(a, user, k) + [PlannedCall(a, user, k)]
  {
    assert PlannedCalls(a, user, k + 1) == PlannedCalls(a, user, k) + [PlannedCall(a, user, k)];
  }

  /** A shorter success trace is a prefix of a longer one. */
  lemma {:induction false} StepTracePrefix(a: seq<Address>, k: nat, m: nat)
    requires |a| == StepCount && k <= m <= StepCount
    ensures StepTrace(a, k) == StepTrace(a, m)[..2 * k]
    decreases m
  {
    if k < m {
      StepTracePrefix(a, k, m - 1);
      var t := StepTrace(a, m - 1);
      assert StepTrace(a, m)[..2 * k] == t[..2 * k] by {
        assert StepTrace(a, m)[..2 * (m - 1)] == t;
      }
    }
  }

  /** The two events of step j in the full success trace. */
  lemma FullTraceStep(a: seq<Address>, j: nat)
    requires |a| == StepCount && j < StepCount
    ensures FullTrace(a)[2 + 2 * j] == DeploymentProgress(StepNames[j], Deploying, None)
    ensures FullTrace(a)[3 + 2 * j] == DeploymentProgress(StepNames[j], Complete, CompletedAddress(a, j))
  {
    var t := StepTrace(a, StepCount);
    StepTracePrefix(a, j + 1, StepCount);
    assert FullTrace(a)[2 + 2 * j] == t[2 * j] == StepTrace(a, j + 1)[2 * j];
    assert FullTrace(a)[3 + 2 * j] == t[2 * j + 1] == StepTrace(a, j + 1)[2 * j + 1];
  }

  /** The full trace cut right after the 'deploying' event of step k. */
  lemma FullTraceCut(a: seq<Address>, k: nat)
    requires |a| == StepCount && k < StepCount
    ensures FullTrace(a)[..2 * k + 3] == Preamble + StepTrace(a, k) + [DeploymentProgress(StepNames[k], Deploying, None)]
  {
    var full := FullTrace(a);
    var longer := Preamble + StepTrace(a, k + 1);
    StepTracePrefix(a, k + 1, StepCount);
    assert full[..2 * k + 4] == longer;
    assert full[..2 * k + 3] == longer[..2 * k + 3];
  }

  // ---------------------------------------------------------------------
  // Properties of a run

  /** Whatever the oracles answer, the events a run reports are a prefix of
      the full success trace: the steps are reported in the fixed order, each
      'deploying' before its 'complete', and nothing is reported out of turn. */
  lemma EventsArePrefixOfFullTrace(chainId: int, user: Address, load: ArtifactLoad, oracle: seq<TxOutcome>)
    requires |oracle| >= StepCount
    ensures var run := Orchestrate(chainId, user, load, oracle);
      |run.events| <= |FullTrace(ResultAddresses(oracle))|
      && run.events == FullTrace(ResultAddresses(oracle))[..|run.events|]
  {
    var a := ResultAddresses(oracle);
    var run := Orchestrate(chainId, user, load, oracle);
    var full := FullTrace(a);
    assert full[0] == DeploymentProgress(LoadingArtifacts, Deploying, None);
    if load.Loaded? && "IdFactory" in load.names {
      var k := StopIndex(load.names, oracle, 0);
      if k < StepCount {
        FullTraceCut(a, k);
      } else {
        assert full[..|full|] == full;
      }
    } else {
      assert run.events == [full[0]];
    }
  }

  /** Whatever the oracles answer, the transactions a run submits are a
      prefix of the fourteen planned ones, in the planned order. */
  lemma CallsArePrefixOfFullPlan(chainId: int, user: Address, load: ArtifactLoad, oracle: seq<TxOutcome>)
    requires |oracle| >= StepCount
    ensures var run := Orchestrate(chainId, user, load, oracle);
      var plan := PlannedCalls(ResultAddresses(oracle), user, StepCount);
      |run.calls| <= StepCount && run.calls == plan[..|run.calls|]
  {
    var a := ResultAddresses(oracle);
    var plan := PlannedCalls(a, user, StepCount);
    if load.Loaded? && "IdFactory" in load.names {
      var k := StopIndex(load.names, oracle, 0);
      if k < StepCount {
        var calls := CallsUpTo(load.names, a, user, k);
        assert calls == plan[..|calls|] by {
          forall j | 0 <= j < |calls| ensures calls[j] == plan[j] {
            if j < k {
              assert calls[j] == PlannedCalls(a, user, k)[j];
            }
          }
        }
      } else {
        assert plan[..|plan|] == plan;
      }
    }
  }

  /** No run ever reports the 'error' status, although the event type allows it. */
  lemma NoErrorEvents(chainId: int, user: Address, load: ArtifactLoad, oracle: seq<TxOutcome>)
    requires |oracle| >= StepCount
    ensures forall e :: e in Orchestrate(chainId, user, load, oracle).events ==> e.status != Errored
  {
    var run := Orchestrate(chainId, user, load, oracle);
    var full := FullTrace(ResultAddresses(oracle));
    EventsArePrefixOfFullTrace(chainId, user, load, oracle);
    assert forall i :: 0 <= i < |full| ==> full[i].status != Errored;
    forall e | e in run.events ensures e.status != Errored {
      var i :| 0 <= i < |run.events| && run.events[i] == e;
      assert e == full[i];
    }
  }

  /** In the full trace, every 'complete' event directly follows the 'deploying' event of the same step. */
  lemma FullTraceCompleteFollowsDeploying(a: seq<Address>, i: nat)
    requires |a| == StepCount && 0 < i < |FullTrace(a)|
    requires FullTrace(a)[i].status == Complete
    ensures FullTrace(a)[i - 1] == DeploymentProgress(FullTrace(a)[i].step, Deploying, None)
  {
    if i >= 2 {
      var j := (i - 2) / 2;
      FullTraceStep(a, j);
      assert i == 3 + 2 * j;
    }
  }

  /** Every 'complete' event a run reports directly follows the 'deploying' event of the same step. */
  lemma CompleteFollowsDeploying(chainId: int, user: Address, load: ArtifactLoad, oracle: seq<TxOutcome>, i: nat)
    requires |oracle| >= StepCount
    requires 0 < i < |Orchestrate(chainId, user, load, oracle).events|
    requires Orchestrate(chainId, user, load, oracle).events[i].status == Complete
    ensures var e := Orchestrate(chainId, user, load, oracle).events;
      e[i - 1] == DeploymentProgress(e[i].step, Deploying, None)
  {
    var e := Orchestrate(chainId, user, load, oracle).events;
    var full := FullTrace(ResultAddresses(oracle));
    EventsArePrefixOfFullTrace(chainId, user, load, oracle);
    assert e[i] == full[i] && e[i - 1] == full[i - 1];
    FullTraceCompleteFollowsDeploying(ResultAddresses(oracle), i);
  }

  /** The first failing step ends the run: the events stop right after its
      'deploying', only it and the earlier steps submitted a transaction,
      and nothing is saved. */
  lemma AbortOnFirstFailure(chainId: int, user: Address, names: set<string>, oracle: seq<TxOutcome>, k: nat)
    requires |oracle| >= StepCount && "IdFactory" in names && k < StepCount
    requires NoStopBefore(names, oracle, k) && Stops(names, oracle, k)
    ensures var a := ResultAddresses(oracle);
      var run := Orchestrate(chainId, user, Loaded(names), oracle);
      && run.outcome == Err(StepFailure(names, oracle, k))
      && run.events == FullTrace(a)[..2 * k + 3]
      && run.calls == CallsUpTo(names, a, user, k)
      && |run.calls| <= k + 1
      && run.saved == None
  {
    StopIndexIs(names, oracle, k);
    FullTraceCut(ResultAddresses(oracle), k);
  }

  /** A run returns a result exactly when the artifacts load, include
      'IdFactory', and every step's artifact is there and its transaction
      confirms; then it returns the assembled set, reports the whole trace,
      submits all fourteen transactions and posts the save request. */
  lemma SuccessExactlyWhenAllStepsConfirm(chainId: int, user: Address, load: ArtifactLoad, oracle: seq<TxOutcome>)
    requires |oracle| >= StepCount
    ensures var run := Orchestrate(chainId, user, load, oracle);
      run.outcome.Ok? <==> load.Loaded? && "IdFactory" in load.names && NoStopBefore(load.names, oracle, StepCount)
    ensures var run := Orchestrate(chainId, user, load, oracle);
      var a := ResultAddresses(oracle);
      run.outcome.Ok? ==>
        && run.outcome.value == AssembleAddresses(a)
        && run.events == FullTrace(a)
        && run.calls == PlannedCalls(a, user, StepCount)
        && run.saved == Some(SaveRequest(user, chainId, AssembleAddresses(a)))
    ensures Orchestrate(chainId, user, load, oracle).saved.Some? <==> Orchestrate(chainId, user, load, oracle).outcome.Ok?
  {
    if load.Loaded? && "IdFactory" in load.names {
      var k := StopIndex(load.names, oracle, 0);
      if NoStopBefore(load.names, oracle, StepCount) {
        StopIndexIs(load.names, oracle, StepCount);
      } else {
        assert k < StepCount;
      }
    }
  }

  /** A missing 'IdFactory' artifact, or a failed download, fails before any
      transaction: only the 'Loading artifacts' 'deploying' event is reported. */
  lemma ArtifactFailureComesFirst(chainId: int, user: Address, load: ArtifactLoad, oracle: seq<TxOutcome>)
    requires |oracle| >= StepCount
    requires load.LoadFailed? || "IdFactory" !in load.names
    ensures var run := Orchestrate(chainId, user, load, oracle);
      && run.calls == [] && run.saved == None
      && run.events == [DeploymentProgress(LoadingArtifacts, Deploying, None)]
      && run.outcome == (if load.LoadFailed? then Err(load.failure) else Err(Thrown("IdFactory artifact not found")))
  {
  }

  /** Each transaction's inputs are outputs of earlier steps: two address
      vectors that agree before step j give step j the same transaction. */
  lemma WiringReadsOnlyEarlierSteps(a: seq<Address>, b: seq<Address>, user: Address, j: nat)
    requires |a| == StepCount && |b| == StepCount && j < StepCount
    requires a[..j] == b[..j]
    ensures PlannedCall(a, user, j) == PlannedCall(b, user, j)
  {
    assert forall i :: 0 <= i < j ==> a[i] == a[..j][i] == b[..j][i] == b[i];
  }

  /** Every configuration call targets a contract an earlier step constructed. */
  lemma CallsTargetEarlierConstructions(a: seq<Address>, user: Address, j: nat)
    requires |a| == StepCount && j < StepCount
    requires PlannedCall(a, user, j).Invoke?
    ensures exists i :: 0 <= i < j && StepArtifacts[i].Some? && PlannedCall(a, user, j).target == a[i]
  {
    if j == 7 || j == 10 {
      assert StepArtifacts[6].Some?;
    } else if j == 12 {
      assert StepArtifacts[9].Some?;
    } else {
      assert j == 13 && StepArtifacts[11].Some?;
    }
  }

  /** The returned set does not depend on the identity factory's address, nor
      on anything the configuration calls return. */
  lemma ResultOmitsIdFactory(a: seq<Address>, x: Address)
    requires |a| == StepCount
    ensures AssembleAddresses(a[8 := x]) == AssembleAddresses(a)
    ensures AssembleAddresses(a[7 := x][10 := x][12 := x][13 := x]) == AssembleAddresses(a)
  {
  }

  /** A rejection of `setTREXFactory` is rewrapped without its code, so the
      caller sees the generic branch, not the rejection message. */
  lemma SetFactoryRejectionIsRewrapped(chainId: int, user: Address, names: set<string>, oracle: seq<TxOutcome>, reason: string, message: string)
    requires |oracle| >= StepCount && "IdFactory" in names
    requires NoStopBefore(names, oracle, SetFactoryStep)
    requires oracle[SetFactoryStep] == Reverted(Failure(ActionRejected, reason, message))
    ensures var run := Orchestrate(chainId, user, Loaded(names), oracle);
      && run.outcome.Err?
      && MapDeployError(run.outcome.error) == "setTREXFactory failed: " + Or(Or(message, reason), "Unknown error")
      && MapDeployError(run.outcome.error) != RejectedMessage
  {
    AbortOnFirstFailure(chainId, user, names, oracle, SetFactoryStep);
    var m := "setTREXFactory failed: " + Or(Or(message, reason), "Unknown error");
    assert m[0] == 's';
  }

  /** The outer catch's three branches. */
  lemma MapDeployErrorBranches(f: Failure)
    ensures f.code == InsufficientFunds ==> MapDeployError(f) == FundsMessage
    ensures f.code == ActionRejected || f.code == UserRejected ==> MapDeployError(f) == RejectedMessage
    ensures var other := f.code != InsufficientFunds && f.code != ActionRejected && f.code != UserRejected;
      && (other && f.reason != "" ==> MapDeployError(f) == f.reason)
      && (other && f.reason == "" && f.message != "" ==> MapDeployError(f) == f.message)
      && (other && f.reason == "" && f.message == "" ==> MapDeployError(f) == "Deployment failed")
  {
  }

  /** A saved set read back from the cache, with the cache's own extra fields,
      yields the same addresses. */
  lemma AddressesJsonRoundTrip(d: ContractAddresses, extra: map<string, Json>)
    requires extra.Keys !! AddressKeys
    ensures AddressesFromJson(AddressesToJson(d) + extra) == d
  {
    var m := AddressesToJson(d) + extra;
    assert m["implementations"] == AddressesToJson(d)["implementations"];
    assert m["trexFactory"] == JStr(d.trexFactory);
    assert m["trexGateway"] == JStr(d.trexGateway);
    assert m["implementationAuthority"] == JStr(d.implementationAuthority);
  }
}
