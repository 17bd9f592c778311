/** The backend's contract routes (backend/src/routes/contracts.ts): the
    artifact search over the build directory, the `/artifacts` endpoint that
    loads every listed contract or fails on the first it cannot, and the
    in-memory deployment cache behind `/save-deployment` and `/deployment`.

    The filesystem is an abstract tree handed in as a value; the endpoints
    are methods from the request to the status and body they send. */
module ContractsRoute {
  import opened Common
  import opened TokenTypes
  import D = DeployContracts

  // ---------------------------------------------------------------------
  // The artifacts directory

  /** An entry of a directory listing: a file with what reading and parsing
      it as JSON yields (or the parse error's message), a subdirectory with
      its own listing, or an entry whose `statSync` throws. */
  datatype FsNode =
    | File(name: string, content: Result<Json, string>)
    | Dir(name: string, children: seq<FsNode>)
    | Broken(name: string)

  /** A file the search returns: its path (directory names, then the file's name) and its contents. */
  datatype Hit = Hit(path: seq<string>, content: Result<Json, string>)

  /** The file name a contract's artifact has. */
  function ArtifactFileName(contractName: string): string
  {
    contractName + ".json"
  }

  /** The reference search (`findArtifact` on an existing directory): the
      listing in order; a subdirectory is searched completely before the
      entries after it; the first non-directory named `<name>.json` wins; an
      entry that cannot be stat'ed abandons the rest of that listing (the
      search of an enclosing directory then carries on with its own later
      entries). */
  function SearchEntries(dir: seq<string>, entries: seq<FsNode>, contractName: string): (r: Option<Hit>)
    ensures r.Some? ==> |r.value.path| > |dir| && r.value.path[..|dir|] == dir
    ensures r.Some? ==> r.value.path[|r.value.path| - 1] == ArtifactFileName(contractName)
    decreases entries
  {
    if entries == [] then None
    else match entries[0]
      case Broken(_) => None
      case File(n, c) =>
        if n == ArtifactFileName(contractName) then Some(Hit(dir + [n], c))
        else SearchEntries(dir, entries[1..], contractName)
      case Dir(n, kids) =>
        var sub := SearchEntries(dir + [n], kids, contractName);
        if sub.Some? then
          assert sub.value.path[..|dir|] == (dir + [n])[..|dir|];
          sub
        else SearchEntries(dir, entries[1..], contractName)
  }

  /** `findArtifact`: the recursive search loop, returning at the first hit. */
  method FindArtifact(dir: seq<string>, items: seq<FsNode>, contractName: string) returns (r: Option<Hit>)
    ensures r == SearchEntries(dir, items, contractName)
    decreases items
  {
    var i := 0;
    while i < |items|
      invariant 0 <= i <= |items|
      invariant SearchEntries(dir, items, contractName) == SearchEntries(dir, items[i..], contractName)
    {
      assert items[i..][1..] == items[i + 1..];
      match items[i] {
        case Broken(_) =>
          return None;
        case Dir(n, kids) =>
          assert items[i] in items;
          var result := FindArtifact(dir + [n], kids, contractName);
          if result.Some? {
            return result;
          }
        case File(n, c) =>
          if n == ArtifactFileName(contractName) {
            return Some(Hit(dir + [n], c));
          }
      }
      i := i + 1;
    }
    return None;
  }

  /** The tree holds a file at path `rel` (relative to the listing) with contents `content`. */
  predicate HasFileIn(entries: seq<FsNode>, rel: seq<string>, content: Result<Json, string>)
    decreases entries
  {
    exists k :: 0 <= k < |entries| && HasFileAt(entries, k, rel, content)
  }

  predicate HasFileAt(entries: seq<FsNode>, k: nat, rel: seq<string>, content: Result<Json, string>)
    requires k < |entries|
    decreases entries, 0
  {
    match entries[k]
    case Broken(_) => false
    case File(n, c) => rel == [n] && c == content
    case Dir(n, kids) =>
      assert entries[k] in entries;
      |rel| >= 2 && rel[0] == n && HasFileIn(kids, rel[1..], content)
  }

  /** No entry anywhere in the tree fails to stat. */
  predicate Intact(entries: seq<FsNode>)
    decreases entries
  {
    forall k :: 0 <= k < |entries| ==> IntactAt(entries, k)
  }

  predicate IntactAt(entries: seq<FsNode>, k: nat)
    requires k < |entries|
    decreases entries, 0
  {
    match entries[k]
    case Broken(_) => false
    case File(_, _) => true
    case Dir(_, kids) => assert entries[k] in entries; Intact(kids)
  }

  // ---------------------------------------------------------------------
  // The `/artifacts` endpoint

  /** The contracts the endpoint serves, in the order it loads them. */
  const ContractNames: seq<string> := [
    "Token", "ClaimTopicsRegistry", "TrustedIssuersRegistry", "IdentityRegistryStorage",
    "IdentityRegistry", "ModularCompliance", "TREXImplementationAuthority", "IdFactory",
    "TREXFactory", "TREXGateway"]

  /** The build directory's own path. */
  const ArtifactsDir: seq<string> := ["artifacts"]

  const NoDirectoryMessage := "Artifacts directory not found. Run: npx hardhat compile"
  const NotFoundSuffix := " artifact not found. Run: npx hardhat compile"
  /** JavaScript's message for reading `abi` of a file whose JSON is `null`. */
  const NullArtifactMessage := "Cannot read properties of null (reading 'abi')"

  /** What the endpoint keeps of an artifact. A field the JSON lacks is `undefined`. */
  datatype ArtifactEntry = ArtifactEntry(abi: Option<Json>, bytecode: Option<Json>)

  /** The endpoint's reply: 200 with one entry per contract, or an error status
      with its message and, for a per-contract failure, that contract's name. */
  datatype ArtifactsReply =
    | ArtifactsServed(artifacts: map<string, ArtifactEntry>)
    | ArtifactsFailed(status: int, error: string, contractName: Option<string>)

  /** A property of a parsed JSON value, `undefined` where there is none. */
  function Property(j: Json, key: string): Option<Json>
  {
    if j.JObj? && key in j.fields then Some(j.fields[key]) else None
  }

  /** Loading one contract: its entry, or the message it fails with. */
  function LoadOne(entries: seq<FsNode>, contractName: string): Result<ArtifactEntry, string>
  {
    match SearchEntries(ArtifactsDir, entries, contractName)
    case None => Err(contractName + NotFoundSuffix)
    case Some(hit) =>
      match hit.content
      case Err(message) => Err("Failed to parse " + contractName + ": " + message)
      case Ok(artifact) =>
        if artifact.JNull? then Err("Failed to parse " + contractName + ": " + NullArtifactMessage)
        else Ok(ArtifactEntry(Property(artifact, "abi"), Property(artifact, "bytecode")))
  }

  /** The position of the first name that fails to load. */
  function FirstFailing(entries: seq<FsNode>, names: seq<string>): (r: Option<nat>)
    ensures r.Some? ==> r.value < |names| && LoadOne(entries, names[r.value]).Err?
    ensures r.Some? ==> forall k :: 0 <= k < r.value ==> LoadOne(entries, names[k]).Ok?
    ensures r.None? ==> forall k :: 0 <= k < |names| ==> LoadOne(entries, names[k]).Ok?
  {
    if names == [] then None
    else if LoadOne(entries, names[0]).Err? then Some(0)
    else match FirstFailing(entries, names[1..])
      case None => None
      case Some(i) => Some(i + 1)
  }

  /** The entries of names that all load. */
  function Collected(entries: seq<FsNode>, names: seq<string>): map<string, ArtifactEntry>
    requires forall k :: 0 <= k < |names| ==> LoadOne(entries, names[k]).Ok?
  {
    map n | n in names :: LoadOne(entries, n).value
  }

  /** The reference reply of `/artifacts`; `root` is None when the directory does not exist. */
  function ArtifactsResponse(root: Option<seq<FsNode>>): ArtifactsReply
  {
    match root
    case None => ArtifactsFailed(500, NoDirectoryMessage, None)
    case Some(entries) =>
      match FirstFailing(entries, ContractNames)
      case Some(i) => ArtifactsFailed(500, LoadOne(entries, ContractNames[i]).error, Some(ContractNames[i]))
      case None => ArtifactsServed(Collected(entries, ContractNames))
  }

  lemma FirstFailingIs(entries: seq<FsNode>, names: seq<string>, i: nat)
    requires i <= |names| && forall k :: 0 <= k < i ==> LoadOne(entries, names[k]).Ok?
    requires i < |names| ==> LoadOne(entries, names[i]).Err?
    ensures FirstFailing(entries, names) == if i < |names| then Some(i) else None
  {
    var r := FirstFailing(entries, names);
    if r.Some? {
      assert r.value >= i;
    }
  }

  /** One pass of the `/artifacts` loop: find the contract's file, then read and parse it. */
  method LoadContract(entries: seq<FsNode>, contractName: string) returns (r: Result<ArtifactEntry, string>)
    ensures r == LoadOne(entries, contractName)
  {
    var artifactPath := FindArtifact(ArtifactsDir, entries, contractName);
    if artifactPath.None? {
      return Err(contractName + NotFoundSuffix);
    }
    match artifactPath.value.content {
      case Err(message) =>
        r := Err("Failed to parse " + contractName + ": " + message);
      case Ok(artifact) =>
        if artifact.JNull? {
          r := Err("Failed to parse " + contractName + ": " + NullArtifactMessage);
        } else {
          r := Ok(ArtifactEntry(Property(artifact, "abi"), Property(artifact, "bytecode")));
        }
    }
  }

  lemma CollectedSnoc(entries: seq<FsNode>, names: seq<string>, i: nat)
    requires i < |names| && forall k :: 0 <= k <= i ==> LoadOne(entries, names[k]).Ok?
    ensures Collected(entries, names[..i + 1]) == Collected(entries, names[..i])[names[i] := LoadOne(entries, names[i]).value]
  {
    assert names[..i + 1] == names[..i] + [names[i]];
  }

  /** The `/artifacts` handler: the directory check, then the loop over the
      contract names that stops at the first one it cannot load. */
  method GetArtifacts(root: Option<seq<FsNode>>) returns (reply: ArtifactsReply)
    ensures reply == ArtifactsResponse(root)
  {
    if root.None? {
      return ArtifactsFailed(500, NoDirectoryMessage, None);
    }
    var entries := root.value;
    var names := ContractNames;
    var artifacts: map<string, ArtifactEntry> := map[];
    var i := 0;
    while i < |names|
      invariant 0 <= i <= |names|
      invariant forall k :: 0 <= k < i ==> LoadOne(entries, names[k]).Ok?
      invariant artifacts == Collected(entries, names[..i])
    {
      var contractName := names[i];
      var loaded := LoadContract(entries, contractName);
      if loaded.Err? {
        FirstFailingIs(entries, names, i);
        return ArtifactsFailed(500, loaded.error, Some(contractName));
      }
      CollectedSnoc(entries, names, i);
      artifacts := artifacts[contractName := loaded.value];
      i := i + 1;
    }
    assert names[..i] == names;
    FirstFailingIs(entries, names, i);
    reply := ArtifactsServed(artifacts);
  }

  // ---------------------------------------------------------------------
  // The deployment cache

  /** The body of `/save-deployment`; an absent field is None. */
  datatype SaveBody = SaveBody(userAddress: Option<Json>, chainId: Option<Json>, deployment: Option<Json>)

  datatype ServerReply = ServerReply(status: int, body: Json)

  const MissingParametersMessage := "Missing required parameters"
  const NoDeploymentMessage := "No deployment found"
  /** JavaScript's message for `toLowerCase` on a value that is not a string. */
  const NotAStringMessage := "userAddress.toLowerCase is not a function"

  function ErrorBody(message: string): Json
  {
    JObj(map["error" := JStr(message)])
  }

  const SuccessBody := JObj(map["success" := JBool(true)])

  predicate Given(field: Option<Json>)
  {
    field.Some? && Truthy(field.value)
  }

  /** A JSON value as a template literal writes it. */
  function TemplateText(j: Json): string
  {
    match j
    case JNull => "null"
    case JBool(b) => if b then "true" else "false"
    case JNum(n) => IntToString(n)
    case JStr(s) => s
    case JArr(items) => JoinItems(items)
    case JObj(_) => "[object Object]"
  }

  /** `String(array)`: the items' texts joined by commas, with null items empty. */
  function JoinItems(items: seq<Json>): string
  {
    if items == [] then ""
    else
      var first := if items[0].JNull? then "" else TemplateText(items[0]);
      if |items| == 1 then first else first + "," + JoinItems(items[1..])
  }

  /** The key both routes use. */
  function CacheKey(userAddress: string, chainText: string): string
  {
    Lower(userAddress) + "-" + chainText
  }

  /** `{ ...deployment }`: the fields of an object; other values spread nothing. */
  function SpreadFields(j: Json): map<string, Json>
  {
    if j.JObj? then j.fields else map[]
  }

  /** The record stored for a save: the deployment's fields, then the three the route adds. */
  function StoredRecord(body: SaveBody, deployedAt: string): map<string, Json>
    requires body.userAddress.Some? && body.chainId.Some? && body.deployment.Some?
  {
    SpreadFields(body.deployment.value)[
      "deployedAt" := JStr(deployedAt)][
      "userAddress" := body.userAddress.value][
      "chainId" := body.chainId.value]
  }

  /** What a save does: the key and record it writes, or the reply that refuses it. */
  function SaveEffect(body: SaveBody, deployedAt: string): (r: Result<(string, map<string, Json>), ServerReply>)
    ensures r.Ok? <==> Given(body.userAddress) && Given(body.chainId) && Given(body.deployment) && body.userAddress.value.JStr?
    ensures !(Given(body.userAddress) && Given(body.chainId) && Given(body.deployment)) ==>
      r == Err(ServerReply(400, ErrorBody(MissingParametersMessage)))
    ensures r.Ok? ==> r.value.0 == CacheKey(body.userAddress.value.s, TemplateText(body.chainId.value))
  {
    if !Given(body.userAddress) || !Given(body.chainId) || !Given(body.deployment) then
      Err(ServerReply(400, ErrorBody(MissingParametersMessage)))
    else if !body.userAddress.value.JStr? then
      Err(ServerReply(500, ErrorBody(NotAStringMessage)))
    else
      Ok((CacheKey(body.userAddress.value.s, TemplateText(body.chainId.value)), StoredRecord(body, deployedAt)))
  }

  /** The reply of `/deployment/:userAddress/:chainId` against the cache contents. */
  function Lookup(cache: map<string, map<string, Json>>, userAddress: string, chainId: string): (reply: ServerReply)
    ensures reply.status == 200 <==> CacheKey(userAddress, chainId) in cache
    ensures reply.status != 200 ==> reply == ServerReply(404, ErrorBody(NoDeploymentMessage))
    ensures reply.status == 200 ==> reply.body == JObj(cache[CacheKey(userAddress, chainId)])
  {
    var key := CacheKey(userAddress, chainId);
    if key !in cache then ServerReply(404, ErrorBody(NoDeploymentMessage))
    else ServerReply(200, JObj(cache[key]))
  }

  /** The module-level `deploymentCache` with its two routes. */
  class DeploymentCache {
    var entries: map<string, map<string, Json>>

    constructor ()
      ensures entries == map[]
    {
      entries := map[];
    }

    /** `/save-deployment`; `deployedAt` is the server clock's ISO time. */
    method SaveDeployment(body: SaveBody, deployedAt: string) returns (reply: ServerReply)
      modifies this
      ensures SaveEffect(body, deployedAt).Err? ==>
        reply == SaveEffect(body, deployedAt).error && entries == old(entries)
      ensures SaveEffect(body, deployedAt).Ok? ==>
        var (key, record) := SaveEffect(body, deployedAt).value;
        reply == ServerReply(200, SuccessBody) && entries == old(entries)[key := record]
    {
      if !Given(body.userAddress) || !Given(body.chainId) || !Given(body.deployment) {
        return ServerReply(400, ErrorBody(MissingParametersMessage));
      }
      var userAddress := body.userAddress.value;
      if !userAddress.JStr? {
        return ServerReply(500, ErrorBody(NotAStringMessage));
      }
      var key := Lower(userAddress.s) + "-" + TemplateText(body.chainId.value);
      entries := entries[key := StoredRecord(body, deployedAt)];
      reply := ServerReply(200, SuccessBody);
    }

    /** `/deployment/:userAddress/:chainId`; the path parameters are strings. */
    method GetDeployment(userAddress: string, chainId: string) returns (reply: ServerReply)
      ensures reply == Lookup(entries, userAddress, chainId)
    {
      var key := Lower(userAddress) + "-" + chainId;
      if key !in entries {
        return ServerReply(404, ErrorBody(NoDeploymentMessage));
      }
      reply := ServerReply(200, JObj(entries[key]));
    }
  }

  // ---------------------------------------------------------------------
  // Properties of the artifact search and endpoint

  /** What the search returns is a file of the tree at that path, with that file's contents. */
  lemma {:induction false} SearchHitIsInTree(dir: seq<string>, entries: seq<FsNode>, contractName: string)
    requires SearchEntries(dir, entries, contractName).Some?
    ensures var hit := SearchEntries(dir, entries, contractName).value;
      HasFileIn(entries, hit.path[|dir|..], hit.content)
    decreases entries
  {
    var hit := SearchEntries(dir, entries, contractName).value;
    match entries[0]
    case File(n, c) =>
      if n == ArtifactFileName(contractName) {
        assert hit.path[|dir|..] == [n];
        assert HasFileAt(entries, 0, hit.path[|dir|..], hit.content);
      } else {
        ShiftedHit(dir, entries, contractName);
      }
    case Dir(n, kids) =>
      var sub := SearchEntries(dir + [n], kids, contractName);
      if sub.Some? {
        SearchHitIsInTree(dir + [n], kids, contractName);
        assert hit == sub.value;
        var rel := hit.path[|dir|..];
        assert rel[0] == n;
        assert rel[1..] == hit.path[|dir + [n]|..];
        assert HasFileAt(entries, 0, rel, hit.content);
      } else {
        ShiftedHit(dir, entries, contractName);
      }
  }

  /** The step of `SearchHitIsInTree` where the hit comes from a later entry. */
  lemma {:induction false} ShiftedHit(dir: seq<string>, entries: seq<FsNode>, contractName: string)
    requires entries != [] && !entries[0].Broken?
    requires SearchEntries(dir, entries, contractName) == SearchEntries(dir, entries[1..], contractName)
    requires SearchEntries(dir, entries[1..], contractName).Some?
    ensures var hit := SearchEntries(dir, entries, contractName).value;
      HasFileIn(entries, hit.path[|dir|..], hit.content)
    decreases entries, 0
  {
    var hit := SearchEntries(dir, entries, contractName).value;
    SearchHitIsInTree(dir, entries[1..], contractName);
    var k :| 0 <= k < |entries[1..]| && HasFileAt(entries[1..], k, hit.path[|dir|..], hit.content);
    assert entries[1..][k] == entries[k + 1];
    assert HasFileAt(entries, k + 1, hit.path[|dir|..], hit.content);
  }

  /** Where no entry fails to stat, an artifact file anywhere in the tree is found. */
  lemma {:induction false} SearchFindsIntactFile(dir: seq<string>, entries: seq<FsNode>, contractName: string,
                                                rel: seq<string>, content: Result<Json, string>)
    requires Intact(entries) && HasFileIn(entries, rel, content)
    requires |rel| > 0 && rel[|rel| - 1] == ArtifactFileName(contractName)
    ensures SearchEntries(dir, entries, contractName).Some?
    decreases entries
  {
    var k :| 0 <= k < |entries| && HasFileAt(entries, k, rel, content);
    assert IntactAt(entries, 0);
    match entries[0]
    case File(n, c) =>
      if n != ArtifactFileName(contractName) {
        assert k != 0;
        LaterFile(dir, entries, contractName, rel, content, k);
      }
    case Dir(n, kids) =>
      if SearchEntries(dir + [n], kids, contractName).None? {
        if k == 0 {
          assert rel[1..][|rel| - 2] == rel[|rel| - 1];
          SearchFindsIntactFile(dir + [n], kids, contractName, rel[1..], content);
          assert false;
        }
        LaterFile(dir, entries, contractName, rel, content, k);
      }
  }

  lemma {:induction false} LaterFile(dir: seq<string>, entries: seq<FsNode>, contractName: string,
                                     rel: seq<string>, content: Result<Json, string>, k: nat)
    requires Intact(entries) && 0 < k < |entries| && HasFileAt(entries, k, rel, content)
    requires |rel| > 0 && rel[|rel| - 1] == ArtifactFileName(contractName)
    requires SearchEntries(dir, entries, contractName) == SearchEntries(dir, entries[1..], contractName)
    ensures SearchEntries(dir, entries, contractName).Some?
    decreases entries, 0
  {
    var rest := entries[1..];
    assert rest[k - 1] == entries[k];
    assert HasFileAt(rest, k - 1, rel, content);
    forall i | 0 <= i < |rest|
      ensures IntactAt(rest, i)
    {
      assert rest[i] == entries[i + 1];
      assert IntactAt(entries, i + 1);
    }
    SearchFindsIntactFile(dir, rest, contractName, rel, content);
  }

  /** A served reply has exactly the listed contracts, each with its file's abi and bytecode. */
  lemma ServedHasEveryContract(root: Option<seq<FsNode>>)
    requires ArtifactsResponse(root).ArtifactsServed?
    ensures var m := ArtifactsResponse(root).artifacts;
      && m.Keys == set n | n in ContractNames
      && forall n :: n in m ==> LoadOne(root.value, n) == Ok(m[n])
  {
  }

  /** A failed reply names the first contract, in list order, that does not load, with its message. */
  lemma FailureNamesFirstMissing(root: Option<seq<FsNode>>, i: nat)
    requires root.Some? && i < |ContractNames|
    requires LoadOne(root.value, ContractNames[i]).Err?
    requires forall k :: 0 <= k < i ==> LoadOne(root.value, ContractNames[k]).Ok?
    ensures ArtifactsResponse(root) ==
      ArtifactsFailed(500, LoadOne(root.value, ContractNames[i]).error, Some(ContractNames[i]))
  {
    FirstFailingIs(root.value, ContractNames, i);
  }

  /** Every artifact the deployment orchestrator reads is one the endpoint serves. */
  lemma ServedCoversDeployment(root: Option<seq<FsNode>>)
    requires ArtifactsResponse(root).ArtifactsServed?
    ensures var names := ArtifactsResponse(root).artifacts.Keys;
      "IdFactory" in names && forall j :: 0 <= j < D.StepCount ==> !D.ArtifactMissing(names, j)
  {
    ServedHasEveryContract(root);
    ArtifactNamesListed();
  }

  lemma ArtifactNamesListed()
    ensures "IdFactory" in ContractNames
    ensures forall j :: 0 <= j < D.StepCount && D.StepArtifacts[j].Some? ==> D.StepArtifacts[j].value in ContractNames
  {
  }

  // ---------------------------------------------------------------------
  // Properties of the deployment cache

  /** The position of the first dash in a string (its length when there is none). */
  function FirstDash(x: string): nat
  {
    if x == [] || x[0] == '-' then 0 else 1 + FirstDash(x[1..])
  }

  lemma {:induction false} FirstDashAfter(a: string, s: string)
    requires '-' !in a
    ensures FirstDash(a + "-" + s) == |a|
  {
    if a != [] {
      assert (a + "-" + s)[1..] == a[1..] + "-" + s;
      FirstDashAfter(a[1..], s);
    }
  }

  lemma DashSplit(a: string, b: string, s: string, t: string)
    requires '-' !in a && '-' !in b && a + "-" + s == b + "-" + t
    ensures a == b && s == t
  {
    var l := a + "-" + s;
    FirstDashAfter(a, s);
    FirstDashAfter(b, t);
    assert a == l[..|a|] && b == l[..|b|];
    assert s == l[|a| + 1..] && t == l[|b| + 1..];
  }

  /** The key identifies the lower-cased address and the chain text, for
      addresses without a dash (hexadecimal addresses have none). */
  lemma CacheKeyInjective(a1: string, c1: string, a2: string, c2: string)
    requires '-' !in a1 && '-' !in a2
    requires CacheKey(a1, c1) == CacheKey(a2, c2)
    ensures Lower(a1) == Lower(a2) && c1 == c2
  {
    LowerKeepsDash(a1);
    LowerKeepsDash(a2);
    DashSplit(Lower(a1), Lower(a2), c1, c2);
  }

  /** Letter case of the address never matters: a lower-cased address names the same entry. */
  lemma LookupIgnoresCase(cache: map<string, map<string, Json>>, userAddress: string, chainId: string)
    ensures Lookup(cache, Lower(userAddress), chainId) == Lookup(cache, userAddress, chainId)
  {
    LowerIdempotent(userAddress);
  }

  /** The record overlays the deployment's fields with the time, the address and the chain as sent. */
  lemma StoredRecordFields(body: SaveBody, deployedAt: string, key: string)
    requires body.userAddress.Some? && body.chainId.Some? && body.deployment.Some?
    ensures var rec := StoredRecord(body, deployedAt);
      && rec["deployedAt"] == JStr(deployedAt)
      && rec["userAddress"] == body.userAddress.value
      && rec["chainId"] == body.chainId.value
      && (key !in {"deployedAt", "userAddress", "chainId"} ==>
            (key in rec <==> key in SpreadFields(body.deployment.value))
            && (key in rec ==> rec[key] == SpreadFields(body.deployment.value)[key]))
  {
  }

  /** A save is read back under any letter case of the address and the
      chain's text; a second save under the same key replaces the first
      outright; every other key reads as before. */
  lemma SaveThenLookup(cache: map<string, map<string, Json>>, body: SaveBody, deployedAt: string,
                       userAddress: string, chainId: string)
    requires SaveEffect(body, deployedAt).Ok?
    ensures var (key, record) := SaveEffect(body, deployedAt).value;
      var after := cache[key := record];
      && (CacheKey(userAddress, chainId) == key ==> Lookup(after, userAddress, chainId) == ServerReply(200, JObj(record)))
      && (CacheKey(userAddress, chainId) != key ==> Lookup(after, userAddress, chainId) == Lookup(cache, userAddress, chainId))
  {
  }

  /** The round trip the frontend relies on: the address set `saveDeployment`
      sends for a numeric chain is what `getDeployedContracts` reads back,
      whatever the letter case of the address in either request. */
  lemma FrontendRoundTrip(cache: map<string, map<string, Json>>, d: ContractAddresses, user: string,
                          chainId: int, deployedAt: string, lookupAddress: string)
    requires user != "" && chainId != 0 && Lower(lookupAddress) == Lower(user)
    ensures var body := SaveBody(Some(JStr(user)), Some(JNum(chainId)), Some(JObj(D.AddressesToJson(d))));
      && SaveEffect(body, deployedAt).Ok?
      && var (key, record) := SaveEffect(body, deployedAt).value;
         var reply := Lookup(cache[key := record], lookupAddress, IntToString(chainId));
         && reply.status == 200
         && D.GetDeployedContracts(D.Reply(reply.status, reply.body)) == Some(JObj(record))
         && D.AddressesFromJson(record) == d
  {
    var body := SaveBody(Some(JStr(user)), Some(JNum(chainId)), Some(JObj(D.AddressesToJson(d))));
    var record := StoredRecord(body, deployedAt);
    var extra := map["deployedAt" := JStr(deployedAt), "userAddress" := JStr(user), "chainId" := JNum(chainId)];
    assert record == D.AddressesToJson(d) + extra;
    D.AddressesJsonRoundTrip(d, extra);
  }
}
