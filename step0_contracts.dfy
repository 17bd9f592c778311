/** The contract-setup step of the wizard
    (frontend/src/components/TokenWizard/Step0Contracts.tsx): the progress
    list shown while the infrastructure deploys, the deploy and redeploy
    handlers, and the check that adopts an earlier deployment. */
module Step0Contracts {
  import opened Common
  import opened TokenTypes
  import D = DeployContracts
  import TokenSlice
  import WalletSlice

  datatype StepStatus = Pending | Deploying | Complete | Error

  datatype DeploymentStep = DeploymentStep(name: string, status: StepStatus, address: Option<Address>)

  /** The names a new run lists, in order. They differ from the orchestrator's
      step names: 'Configuring implementations' is never reported, and
      'Adding TREX version', 'IdFactory' and 'Setting TREX Factory' are not listed. */
  const ListedNames: seq<string> := [
    "Loading artifacts", "Token", "ClaimTopicsRegistry", "TrustedIssuersRegistry",
    "IdentityRegistryStorage", "IdentityRegistry", "ModularCompliance",
    "TREXImplementationAuthority", "Configuring implementations", "TREXFactory",
    "TREXGateway", "Transferring ownership", "Configuring gateway"]

  /** The list a new run starts from: every listed name, pending, with no address. */
  function InitialSteps(): (s: seq<DeploymentStep>)
    ensures |s| == |ListedNames| == 13
    ensures forall i :: 0 <= i < |s| ==> s[i] == DeploymentStep(ListedNames[i], Pending, None)
  {
    seq(|ListedNames|, i requires 0 <= i < |ListedNames| => DeploymentStep(ListedNames[i], Pending, None))
  }

  /** The status a progress event shows as: anything but 'deploying' or 'complete' is an error. */
  function StatusOf(status: D.ProgressStatus): (r: StepStatus)
    ensures r == Deploying <==> status == D.Deploying
    ensures r == Complete <==> status == D.Complete
    ensures r == Error <==> status == D.Errored
  {
    match status
    case Deploying => Deploying
    case Complete => Complete
    case Errored => Error
  }

  /** The entry a progress event writes. */
  function EntryOf(p: D.DeploymentProgress): DeploymentStep
  {
    DeploymentStep(p.step, StatusOf(p.status), p.address)
  }

  /** `findIndex(s => s.name === name)`. */
  function FirstIndexOfName(s: seq<DeploymentStep>, name: string): (r: Option<nat>)
    ensures r.Some? ==> r.value < |s| && s[r.value].name == name
    ensures r.Some? ==> forall k :: 0 <= k < r.value ==> s[k].name != name
    ensures r.None? ==> forall k :: 0 <= k < |s| ==> s[k].name != name
  {
    if s == [] then None
    else if s[0].name == name then Some(0)
    else match FirstIndexOfName(s[1..], name)
      case None => None
      case Some(i) => Some(i + 1)
  }

  /** The progress callback's update: the entry at the first index named
      like the event is replaced by the event's entry. */
  function ApplyProgress(s: seq<DeploymentStep>, p: D.DeploymentProgress): (r: seq<DeploymentStep>)
    ensures |r| == |s|
  {
    match FirstIndexOfName(s, p.step)
    case None => s
    case Some(i) => s[i := EntryOf(p)]
  }

  /** The list after a whole sequence of progress events, applied in order. */
  function ApplyAll(s: seq<DeploymentStep>, events: seq<D.DeploymentProgress>): (r: seq<DeploymentStep>)
    ensures |r| == |s|
    decreases |events|
  {
    if events == [] then s
    else ApplyProgress(ApplyAll(s, events[..|events| - 1]), events[|events| - 1])
  }

  /** `findIndex(s => s.status === 'deploying')`. */
  function FirstDeployingIndex(s: seq<DeploymentStep>): (r: Option<nat>)
    ensures r.Some? ==> r.value < |s| && s[r.value].status == Deploying
    ensures r.Some? ==> forall k :: 0 <= k < r.value ==> s[k].status != Deploying
    ensures r.None? ==> forall k :: 0 <= k < |s| ==> s[k].status != Deploying
  {
    if s == [] then None
    else if s[0].status == Deploying then Some(0)
    else match FirstDeployingIndex(s[1..])
      case None => None
      case Some(i) => Some(i + 1)
  }

  /** The failure handler's update: the entry at the first deploying index becomes an error. */
  function MarkFailure(s: seq<DeploymentStep>): (r: seq<DeploymentStep>)
    ensures |r| == |s|
  {
    match FirstDeployingIndex(s)
    case None => s
    case Some(i) => s[i := s[i].(status := Error)]
  }

  /** The last event of a sequence that concerns the given name. */
  function LastEventFor(events: seq<D.DeploymentProgress>, name: string): (r: Option<D.DeploymentProgress>)
    ensures r.Some? ==> r.value.step == name
    ensures r.None? <==> forall i :: 0 <= i < |events| ==> events[i].step != name
    ensures r.Some? ==> exists i :: 0 <= i < |events| && events[i] == r.value
                                    && forall j :: i < j < |events| ==> events[j].step != name
    decreases |events|
  {
    if events == [] then None
    else if events[|events| - 1].step == name then Some(events[|events| - 1])
    else
      var prefix := events[..|events| - 1];
      assert forall k :: 0 <= k < |prefix| ==> prefix[k] == events[k];
      LastEventFor(prefix, name)
  }

  predicate DistinctNames(s: seq<DeploymentStep>)
  {
    forall i, j :: 0 <= i < j < |s| ==> s[i].name != s[j].name
  }

  /** The wallet fields the handlers test, with JavaScript truthiness: an
      empty address and chain id 0 count as missing. */
  predicate HasAccount(w: WalletSlice.WalletState)
  {
    w.address.Some? && w.address.value != "" && w.chainId.Some? && w.chainId.value != 0
  }

  /** The adoption test: a record with a truthy `trexGateway` and a truthy `trexFactory`. */
  predicate Adopts(existing: Option<Json>)
  {
    existing.Some? && existing.value.JObj?
    && FieldTruthy(existing.value.fields, "trexGateway") && FieldTruthy(existing.value.fields, "trexFactory")
  }

  class ContractsPanel {
    const store: TokenSlice.TokenStore
    const wallet: WalletSlice.WalletStore
    var steps: seq<DeploymentStep>
    var isDeploying: bool
    var checking: bool

    constructor (store: TokenSlice.TokenStore, wallet: WalletSlice.WalletStore)
      ensures this.store == store && this.wallet == wallet
      ensures steps == [] && !isDeploying && !checking
    {
      this.store := store;
      this.wallet := wallet;
      steps := [];
      isDeploying := false;
      checking := false;
    }

    /** The progress callback: copy the list, find the first entry with the
      event's name, replace it. */
    method OnProgress(p: D.DeploymentProgress)
      modifies this`steps
      ensures steps == ApplyProgress(old(steps), p)
    {
      var updated := steps;
      var stepIndex := 0;
      while stepIndex < |updated| && updated[stepIndex].name != p.step
        invariant 0 <= stepIndex <= |updated|
        invariant forall k :: 0 <= k < stepIndex ==> updated[k].name != p.step
      {
        stepIndex := stepIndex + 1;
      }
      FirstIndexUnique(updated, p.step, stepIndex);
      if stepIndex < |updated| {
        updated := updated[stepIndex := EntryOf(p)];
      }
      steps := updated;
    }

    /** The failure handler's update: find the first deploying entry and mark it. */
    method MarkDeployingAsError()
      modifies this`steps
      ensures steps == MarkFailure(old(steps))
    {
      var updated := steps;
      var deployingIndex := 0;
      while deployingIndex < |updated| && updated[deployingIndex].status != Deploying
        invariant 0 <= deployingIndex <= |updated|
        invariant forall k :: 0 <= k < deployingIndex ==> updated[k].status != Deploying
      {
        deployingIndex := deployingIndex + 1;
      }
      FirstDeployingUnique(updated, deployingIndex);
      if deployingIndex < |updated| {
        updated := updated[deployingIndex := updated[deployingIndex].(status := Error)];
      }
      steps := updated;
    }

    /** Applies the callback to each reported event in turn. */
    method ReplayProgress(events: seq<D.DeploymentProgress>)
      modifies this`steps
      ensures steps == ApplyAll(old(steps), events)
    {
      ghost var start := steps;
      for i := 0 to |events|
        invariant steps == ApplyAll(start, events[..i])
      {
        assert events[..i + 1][..i] == events[..i];
        OnProgress(events[i]);
      }
      assert events[..|events|] == events;
    }

    /** `handleDeploy`, with the chain answering as `load` and `oracle` say.
        The callback's updates are applied in the order the run reported them. */
    method HandleDeploy(load: D.ArtifactLoad, oracle: seq<D.TxOutcome>)
      returns (ghost run: D.Run)
      requires |oracle| >= D.StepCount
      modifies this, store
      ensures var w := wallet.State();
        !(w.isConnected && HasAccount(w) && w.signer.Some?) ==>
          steps == old(steps) && isDeploying == old(isDeploying) && store.State() == old(store.State())
      ensures var w := wallet.State();
        w.isConnected && HasAccount(w) && w.signer.Some? ==>
          && run == D.Orchestrate(w.chainId.value, w.address.value, load, oracle)
          && !isDeploying
          && (run.outcome.Ok? ==>
                steps == [] && store.State() == old(store.State()).(contractAddresses := Some(run.outcome.value),
                  isDeployingContracts := false, contractDeploymentError := None))
          && (run.outcome.Err? ==>
                steps == MarkFailure(ApplyAll(InitialSteps(), run.events))
                && store.State() == old(store.State()).(isDeployingContracts := false,
                  contractDeploymentError := Some(Or(D.MapDeployError(run.outcome.error), "Deployment failed"))))
      ensures checking == old(checking)
    {
      run := D.Run(Err(Thrown("")), [], [], None);
      var w := wallet.State();
      if !w.isConnected || w.address.None? || w.address.value == "" || w.chainId.None? || w.chainId.value == 0 || w.signer.None? {
        return;
      }
      isDeploying := true;
      store.SetDeployingContracts(true);
      store.SetContractDeploymentError(None);
      steps := InitialSteps();

      var result, events, calls, saved := D.DeployContractsWithProgress(w.chainId.value, w.address.value, load, oracle);
      run := D.Orchestrate(w.chainId.value, w.address.value, load, oracle);
      ReplayProgress(events);

      match result {
        case Ok(addresses) =>
          store.SetContractAddresses(Some(addresses));
          steps := [];
        case Err(message) =>
          store.SetContractDeploymentError(Some(Or(message, "Deployment failed")));
          MarkDeployingAsError();
      }
      isDeploying := false;
      store.SetDeployingContracts(false);
    }

    /** `handleRedeploy`: forget the addresses, the error and the progress list. */
    method HandleRedeploy()
      modifies this`steps, store
      ensures steps == []
      ensures store.State() == old(store.State()).(contractAddresses := None, isDeployingContracts := false,
                                                   contractDeploymentError := None)
    {
      store.SetContractAddresses(None);
      store.SetContractDeploymentError(None);
      steps := [];
    }

    /** The effect that looks up an earlier deployment when the wallet
        connects; `reply` is the cache server's answer. */
    method CheckExistingDeployment(reply: D.HttpReply)
      modifies this`checking, store
      ensures if HasAccount(wallet.State()) && wallet.isConnected then !checking else checking == old(checking)
      ensures var w := wallet.State();
        var existing := D.GetDeployedContracts(reply);
        if w.isConnected && HasAccount(w) && Adopts(existing) then
          store.State() == old(store.State()).(contractAddresses := Some(D.AddressesFromJson(existing.value.fields)),
            isDeployingContracts := false, contractDeploymentError := None)
        else store.State() == old(store.State())
    {
      var w := wallet.State();
      if !(w.isConnected && w.address.Some? && w.address.value != "" && w.chainId.Some? && w.chainId.value != 0) {
        return;
      }
      checking := true;
      var existing := D.GetDeployedContracts(reply);
      if existing.Some? && existing.value.JObj?
         && FieldTruthy(existing.value.fields, "trexGateway") && FieldTruthy(existing.value.fields, "trexFactory") {
        store.SetContractAddresses(Some(D.AddressesFromJson(existing.value.fields)));
      }
      checking := false;
    }
  }

  // ---------------------------------------------------------------------
  // Properties of the progress list

  /** A scan that stopped at index k with no match before it found what `findIndex` finds. */
  lemma FirstIndexUnique(s: seq<DeploymentStep>, name: string, k: nat)
    requires k <= |s| && (forall i :: 0 <= i < k ==> s[i].name != name)
    requires k < |s| ==> s[k].name == name
    ensures FirstIndexOfName(s, name) == (if k < |s| then Some(k) else None)
  {
    var r := FirstIndexOfName(s, name);
    if r.Some? {
      assert r.value >= k;
    }
  }

  lemma FirstDeployingUnique(s: seq<DeploymentStep>, k: nat)
    requires k <= |s| && (forall i :: 0 <= i < k ==> s[i].status != Deploying)
    requires k < |s| ==> s[k].status == Deploying
    ensures FirstDeployingIndex(s) == (if k < |s| then Some(k) else None)
  {
    var r := FirstDeployingIndex(s);
    if r.Some? {
      assert r.value >= k;
    }
  }

  /** Events need only the names of the entries: applying any events keeps
      every entry's name where it was. */
  lemma {:induction false} ApplyAllKeepsNames(s: seq<DeploymentStep>, events: seq<D.DeploymentProgress>)
    ensures forall i :: 0 <= i < |s| ==> ApplyAll(s, events)[i].name == s[i].name
    decreases |events|
  {
    if events != [] {
      ApplyAllKeepsNames(s, events[..|events| - 1]);
    }
  }

  /** With distinct names, each entry ends as the last event that named it,
      or as it started when no event did. */
  lemma {:induction false} ApplyAllEntry(s: seq<DeploymentStep>, events: seq<D.DeploymentProgress>, i: nat)
    requires DistinctNames(s) && i < |s|
    ensures ApplyAll(s, events)[i] ==
      (match LastEventFor(events, s[i].name) case None => s[i] case Some(e) => EntryOf(e))
    decreases |events|
  {
    if events != [] {
      var prefix := events[..|events| - 1];
      var t := ApplyAll(s, prefix);
      ApplyAllKeepsNames(s, prefix);
      ApplyAllEntry(s, prefix, i);
    }
  }

  /** A progress event replaces only the first entry with its name, by the
      event's name, status and address; every other entry and the length stay.
      An event whose name is not listed leaves the whole list as it was. */
  lemma ApplyProgressEffect(s: seq<DeploymentStep>, p: D.DeploymentProgress)
    ensures |ApplyProgress(s, p)| == |s|
    ensures forall i :: 0 <= i < |s| ==>
      ApplyProgress(s, p)[i] ==
        (if s[i].name == p.step && (forall k :: 0 <= k < i ==> s[k].name != p.step)
         then DeploymentStep(p.step, StatusOf(p.status), p.address) else s[i])
    ensures (forall i :: 0 <= i < |s| ==> s[i].name != p.step) ==> ApplyProgress(s, p) == s
  {
  }

  /** On failure only the first deploying entry changes, and only its status,
      to 'error'; with no deploying entry nothing changes. */
  lemma MarkFailureEffect(s: seq<DeploymentStep>)
    ensures |MarkFailure(s)| == |s|
    ensures forall i :: 0 <= i < |s| ==>
      MarkFailure(s)[i] ==
        (if s[i].status == Deploying && (forall k :: 0 <= k < i ==> s[k].status != Deploying)
         then DeploymentStep(s[i].name, Error, s[i].address) else s[i])
    ensures (forall i :: 0 <= i < |s| ==> s[i].status != Deploying) ==> MarkFailure(s) == s
  {
  }

  lemma ListedNamesDistinct()
    ensures DistinctNames(InitialSteps())
  {
    var s := InitialSteps();
    forall i, j | 0 <= i < j < |s| ensures s[i].name != s[j].name {
      assert s[i].name == ListedNames[i] && s[j].name == ListedNames[j];
      assert ListedNames[i][0] != ListedNames[j][0] || |ListedNames[i]| != |ListedNames[j]| || ListedNames[i] != ListedNames[j];
    }
  }

  /** Every entry of the full trace names 'Loading artifacts' or one of the orchestrator's steps. */
  lemma FullTraceEntryName(a: seq<Address>, i: nat)
    requires |a| == D.StepCount && i < |D.FullTrace(a)|
    ensures D.FullTrace(a)[i].step == D.LoadingArtifacts || D.FullTrace(a)[i].step in D.StepNames
  {
    if i >= 2 {
      var j := (i - 2) / 2;
      D.FullTraceStep(a, j);
      assert i == 2 + 2 * j || i == 3 + 2 * j;
    }
  }

  /** Every event a run reports names 'Loading artifacts' or one of the orchestrator's steps. */
  lemma RunEventNames(chainId: int, user: Address, load: D.ArtifactLoad, oracle: seq<D.TxOutcome>)
    requires |oracle| >= D.StepCount
    ensures forall e :: e in D.Orchestrate(chainId, user, load, oracle).events ==>
      e.step == D.LoadingArtifacts || e.step in D.StepNames
  {
    var events := D.Orchestrate(chainId, user, load, oracle).events;
    var a := D.ResultAddresses(oracle);
    D.EventsArePrefixOfFullTrace(chainId, user, load, oracle);
    forall e | e in events ensures e.step == D.LoadingArtifacts || e.step in D.StepNames {
      var i :| 0 <= i < |events| && events[i] == e;
      FullTraceEntryName(a, i);
    }
  }

  /** 'Configuring implementations' is listed but never reported, so it
      stays pending whatever the run does. */
  lemma ConfiguringImplementationsStaysPending(chainId: int, user: Address, load: D.ArtifactLoad, oracle: seq<D.TxOutcome>)
    requires |oracle| >= D.StepCount
    ensures ApplyAll(InitialSteps(), D.Orchestrate(chainId, user, load, oracle).events)[8]
         == DeploymentStep("Configuring implementations", Pending, None)
  {
    var events := D.Orchestrate(chainId, user, load, oracle).events;
    RunEventNames(chainId, user, load, oracle);
    ListedNamesDistinct();
    ApplyAllEntry(InitialSteps(), events, 8);
    assert "Configuring implementations" !in D.StepNames;
    NoEventFor(events, "Configuring implementations");
  }

  /** No event with a name means no last event for it. */
  lemma {:induction false} NoEventFor(events: seq<D.DeploymentProgress>, name: string)
    requires forall e :: e in events ==> e.step != name
    ensures LastEventFor(events, name).None?
    decreases |events|
  {
    if events != [] {
      var prefix := events[..|events| - 1];
      assert forall e :: e in prefix ==> e in events;
      NoEventFor(prefix, name);
    }
  }

  /** The last event for a name, after one more event. */
  lemma LastEventSnoc(events: seq<D.DeploymentProgress>, e: D.DeploymentProgress, name: string)
    ensures LastEventFor(events + [e], name) == if e.step == name then Some(e) else LastEventFor(events, name)
  {
    assert (events + [e])[..|events|] == events;
  }

  /** In the events of a run that got through its first m steps, the last
      event for any name is absent or a 'complete' one. */
  lemma {:induction false} CompletedTraceLastEvents(a: seq<Address>, m: nat, name: string)
    requires |a| == D.StepCount && m <= D.StepCount
    ensures var r := LastEventFor(D.Preamble + D.StepTrace(a, m), name);
      r.None? || r.value.status == D.Complete
    decreases m
  {
    if m > 0 {
      var t := D.Preamble + D.StepTrace(a, m - 1);
      var started := D.DeploymentProgress(D.StepNames[m - 1], D.Deploying, None);
      var done := D.DeploymentProgress(D.StepNames[m - 1], D.Complete, D.CompletedAddress(a, m - 1));
      assert D.Preamble + D.StepTrace(a, m) == (t + [started]) + [done];
      LastEventSnoc(t + [started], done, name);
      LastEventSnoc(t, started, name);
      CompletedTraceLastEvents(a, m - 1, name);
    } else {
      var started := D.DeploymentProgress(D.LoadingArtifacts, D.Deploying, None);
      var done := D.DeploymentProgress(D.LoadingArtifacts, D.Complete, None);
      assert D.Preamble + D.StepTrace(a, 0) == ([] + [started]) + [done];
      LastEventSnoc([] + [started], done, name);
      LastEventSnoc([], started, name);
    }
  }

  /** A failed run's events end with a 'deploying' event, and before it each
      name's last event is absent or 'complete'. */
  lemma FailedRunEvents(chainId: int, user: Address, load: D.ArtifactLoad, oracle: seq<D.TxOutcome>, name: string)
    requires |oracle| >= D.StepCount
    requires D.Orchestrate(chainId, user, load, oracle).outcome.Err?
    ensures var events := D.Orchestrate(chainId, user, load, oracle).events;
      && |events| > 0
      && events[|events| - 1].status == D.Deploying
      && var r := LastEventFor(events[..|events| - 1], name); r.None? || r.value.status == D.Complete
  {
    var events := D.Orchestrate(chainId, user, load, oracle).events;
    if load.Loaded? && "IdFactory" in load.names {
      var k := D.StopIndex(load.names, oracle, 0);
      D.SuccessExactlyWhenAllStepsConfirm(chainId, user, load, oracle);
      assert events[..|events| - 1] == D.Preamble + D.StepTrace(D.ResultAddresses(oracle), k);
      CompletedTraceLastEvents(D.ResultAddresses(oracle), k, name);
    }
  }

  /** Marking a list in which exactly the entries named n are deploying, and
      none is an error, leaves exactly those entries in error; with distinct
      names that is at most one. */
  lemma MarkSingleDeploying(t: seq<DeploymentStep>, n: string)
    requires forall i :: 0 <= i < |t| ==> (t[i].status == Deploying <==> t[i].name == n) && t[i].status != Error
    requires DistinctNames(t)
    ensures forall i :: 0 <= i < |t| ==> (MarkFailure(t)[i].status == Error <==> t[i].name == n)
  {
    MarkFailureEffect(t);
  }

  /** One entry of a list with distinct names, pending at first, after events
      that end with a 'deploying' event before which every name's last event
      is absent or 'complete': that entry is deploying exactly when it
      carries the last event's name, and it is never in error. */
  lemma FailedListEntry(s: seq<DeploymentStep>, events: seq<D.DeploymentProgress>, i: nat)
    requires DistinctNames(s) && i < |s| && s[i].status == Pending
    requires |events| > 0 && events[|events| - 1].status == D.Deploying
    requires var r := LastEventFor(events[..|events| - 1], s[i].name); r.None? || r.value.status == D.Complete
    ensures var t := ApplyAll(s, events);
      (t[i].status == Deploying <==> s[i].name == events[|events| - 1].step) && t[i].status != Error
  {
    var last := events[|events| - 1];
    var prefix := events[..|events| - 1];
    assert events == prefix + [last];
    LastEventSnoc(prefix, last, s[i].name);
    ApplyAllEntry(s, events, i);
  }

  /** When a run fails, the entry named like the step that was being
      deployed becomes 'error' and no other entry does; when that step is not
      listed ('IdFactory', 'Adding TREX version', 'Setting TREX Factory') no
      entry does. */
  lemma FailureMarksOnlyTheFailingStep(chainId: int, user: Address, load: D.ArtifactLoad, oracle: seq<D.TxOutcome>)
    requires |oracle| >= D.StepCount
    requires D.Orchestrate(chainId, user, load, oracle).outcome.Err?
    ensures var events := D.Orchestrate(chainId, user, load, oracle).events;
      && |events| > 0
      && events[|events| - 1].status == D.Deploying
      && var final := MarkFailure(ApplyAll(InitialSteps(), events));
         forall i :: 0 <= i < |final| ==> (final[i].status == Error <==> ListedNames[i] == events[|events| - 1].step)
  {
    var events := D.Orchestrate(chainId, user, load, oracle).events;
    FailedRunEvents(chainId, user, load, oracle, "");
    var last := events[|events| - 1];
    var t := ApplyAll(InitialSteps(), events);
    ListedNamesDistinct();
    ApplyAllKeepsNames(InitialSteps(), events);
    forall i | 0 <= i < |t|
      ensures (t[i].status == Deploying <==> t[i].name == last.step) && t[i].status != Error
    {
      FailedRunEvents(chainId, user, load, oracle, ListedNames[i]);
      FailedListEntry(InitialSteps(), events, i);
    }
    MarkSingleDeploying(t, last.step);
  }
}
