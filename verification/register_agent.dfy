/** The registration runner `scripts/register-agent.ts`: it reads an agent domain and
    an agent address from the command line, locates the IdentityRegistry contract
    (environment override first, then the Ignition deployment artifact of the connected
    chain), and calls `newAgent(domain, address)` with a fixed fee of 0.005 ether, then
    waits for the receipt and reads the registration back.

    The network, the signer and the registry contract are not modelled: what they
    answer is an input (`Replies`), and a run yields the calls it made and how it
    ended (`RunResult`). The file system is a map from paths to what parsing their
    text gives. */
module RegisterAgent {
  import opened Js

  // ---------------------------------------------------------------------------
  // Address validation: `isHexAddress`
  // ---------------------------------------------------------------------------

  /** One character of the class `[0-9a-fA-F]`. */
  predicate IsHexDigit(c: char)
  {
    '0' <= c <= '9' || 'a' <= c <= 'f' || 'A' <= c <= 'F'
  }

  function AllHexDigits(s: string): (b: bool)
    ensures b <==> forall i :: 0 <= i < |s| ==> IsHexDigit(s[i])
  {
    if s == [] then true else IsHexDigit(s[0]) && AllHexDigits(s[1..])
  }

  /** `/^0x[0-9a-fA-F]{40}$/.test(s)`. Without the `m` flag the anchors are the two ends
      of the whole string, so the pattern must cover all of it. */
  predicate MatchesAddressPattern(s: string)
  {
    |s| == 42 && s[..2] == "0x" && AllHexDigits(s[2..])
  }

  /** `isHexAddress(v)`: `!!v` and the pattern. Letter case is free and no EIP-55
      checksum is checked. */
  function IsHexAddress(v: Option<string>): (ok: bool)
    ensures ok <==>
      && v.Some?
      && |v.value| == 42
      && v.value[0] == '0' && v.value[1] == 'x'
      && forall i :: 2 <= i < 42 ==> IsHexDigit(v.value[i])
    ensures v == None || v == Some("") ==> !ok
  {
    Present(v) && MatchesAddressPattern(v.value)
  }

  /** ASCII lower-casing of one character. */
  function LowerChar(c: char): (l: char)
    ensures 'A' <= c <= 'Z' ==> l as int == c as int + 32
    ensures !('A' <= c <= 'Z') ==> l == c
  {
    if 'A' <= c <= 'Z' then (c as int + 32) as char else c
  }

  function Lower(s: string): (r: string)
    ensures |r| == |s|
    ensures forall i :: 0 <= i < |s| ==> r[i] == LowerChar(s[i])
  {
    if s == [] then [] else [LowerChar(s[0])] + Lower(s[1..])
  }

  /** The validator does not look at letter case: an address in checksum (mixed) case is
      accepted exactly when its all-lower-case spelling is. */
  lemma {:induction false} AddressCaseInsensitive(digits: string)
    ensures IsHexAddress(Some("0x" + digits)) <==> IsHexAddress(Some("0x" + Lower(digits)))
  {
    var s, t := "0x" + digits, "0x" + Lower(digits);
    assert |s| == |t|;
    forall i | 2 <= i < |s|
      ensures IsHexDigit(s[i]) <==> IsHexDigit(t[i])
    {
      assert s[i] == digits[i - 2] && t[i] == LowerChar(digits[i - 2]);
    }
  }

  /** The two examples of an accepted and a rejected address shape. */
  lemma AddressExamples()
    ensures !IsHexAddress(Some("0x123"))
    ensures IsHexAddress(Some("0x" + seq(40, _ => 'a')))
  {
    var s := "0x" + seq(40, _ => 'a');
    assert forall i :: 2 <= i < 42 ==> s[i] == 'a';
  }

  // ---------------------------------------------------------------------------
  // Command line: `process.argv.slice(2)`, the `--` split and the usage check
  // ---------------------------------------------------------------------------

  /** `process.argv.slice(2)`: the arguments after the runtime and the script. */
  function UserArgs(processArgv: seq<string>): (args: seq<string>)
    ensures |args| == if |processArgv| >= 2 then |processArgv| - 2 else 0
    ensures args == processArgv[|processArgv| - |args|..]
  {
    if |processArgv| >= 2 then processArgv[2..] else []
  }

  /** `s.indexOf(x)`: the first position holding `x`, or -1. */
  function IndexOf(s: seq<string>, x: string): (r: int)
    ensures -1 <= r < |s|
    ensures r == -1 <==> x !in s
    ensures 0 <= r ==> s[r] == x && x !in s[..r]
  {
    if s == [] then -1
    else if s[0] == x then 0
    else
      var k := IndexOf(s[1..], x);
      if k == -1 then -1 else k + 1
  }

  /** The positional arguments: what follows the first `--` if there is one, otherwise
      every argument. */
  function Positional(args: seq<string>): (pos: seq<string>)
    ensures "--" !in args ==> pos == args
    ensures "--" in args ==>
      exists k :: 0 <= k < |args| && args[k] == "--" && "--" !in args[..k] && pos == args[k + 1..]
  {
    var dd := IndexOf(args, "--");
    if dd >= 0 then args[dd + 1..] else args
  }

  /** `pos[i]`: undefined past the end. */
  function At(pos: seq<string>, i: nat): (v: Option<string>)
    ensures v.Some? <==> i < |pos|
    ensures i < |pos| ==> v.value == pos[i]
  {
    if i < |pos| then Some(pos[i]) else None
  }

  /** The two positional arguments the runner uses. */
  datatype Args = Args(domain: string, agent: string)

  /** The usage check: the domain must be truthy and the address must pass
      `isHexAddress`; anything else is a usage error. Arguments beyond the second are
      ignored. */
  function CheckUsage(processArgv: seq<string>): (r: Option<Args>)
    ensures
      var pos := Positional(UserArgs(processArgv));
      && (r.Some? <==> |pos| >= 2 && pos[0] != "" && IsHexAddress(Some(pos[1])))
      && (r.Some? ==> r.value == Args(pos[0], pos[1]))
  {
    var pos := Positional(UserArgs(processArgv));
    var domain, agent := At(pos, 0), At(pos, 1);
    if !Present(domain) || !IsHexAddress(agent) then None
    else Some(Args(domain.value, agent.value))
  }

  lemma {:induction false} IndexOfAppend(s: seq<string>, t: seq<string>, x: string)
    requires x in s || x !in t
    ensures IndexOf(s + t, x) == IndexOf(s, x)
  {
    if s != [] {
      assert (s + t)[1..] == s[1..] + t;
      if s[0] != x {
        IndexOfAppend(s[1..], t, x);
      }
    }
  }

  /** Trailing arguments do not change the decision, unless they would introduce the
      first `--` of the command line. */
  lemma ExtraArgumentsIgnored(processArgv: seq<string>, extra: seq<string>)
    requires "--" in UserArgs(processArgv) || "--" !in extra
    requires CheckUsage(processArgv).Some?
    ensures CheckUsage(processArgv + extra) == CheckUsage(processArgv)
  {
    var args := UserArgs(processArgv);
    assert UserArgs(processArgv + extra) == args + extra;
    PositionalAppend(args, extra);
    SameFirstTwo(processArgv, processArgv + extra);
  }

  /** Appending arguments that bring no first `--` appends them to the positional ones. */
  lemma PositionalAppend(args: seq<string>, extra: seq<string>)
    requires "--" in args || "--" !in extra
    ensures Positional(args + extra) == Positional(args) + extra
  {
    IndexOfAppend(args, extra, "--");
    var dd := IndexOf(args, "--");
    if dd >= 0 {
      assert (args + extra)[dd + 1..] == args[dd + 1..] + extra;
    }
  }

  /** The usage check only looks at the first two positional arguments. */
  lemma SameFirstTwo(argv: seq<string>, argv': seq<string>)
    requires var pos, pos' := Positional(UserArgs(argv)), Positional(UserArgs(argv'));
      |pos| >= 2 && |pos'| >= 2 && pos'[0] == pos[0] && pos'[1] == pos[1]
    ensures CheckUsage(argv') == CheckUsage(argv)
  {
  }

  // ---------------------------------------------------------------------------
  // The Ignition deployment artifact: `resolveIdentityFromIgnition`
  // ---------------------------------------------------------------------------

  /** The key under which Ignition records the IdentityRegistry of module ERC8004Module. */
  const IdentityArtifactKey: string := "ERC8004Module#IdentityRegistry"

  /** A file path as its list of segments. */
  type Path = seq<string>

  /** What `JSON.parse` produced from the artifact's text. */
  datatype JsonDoc =
    | JsonNull
    | JsonScalar
    | JsonArray
    | JsonObject(entries: map<string, string>)

  /** The text of a readable file: not JSON, or JSON parsed into a document. */
  datatype FileContent = NotJson | Json(doc: JsonDoc)

  /** The readable files. A path that is absent cannot be read, for whatever reason. */
  type FileSystem = map<Path, FileContent>

  /** `<cwd>/ignition/deployments/chain-<chainId>/deployed_addresses.json`. */
  function ArtifactPath(cwd: Path, chainId: nat): (p: Path)
    ensures |p| == |cwd| + 4 && p[..|cwd|] == cwd
    ensures |p[|cwd| + 2]| > 6 && p[|cwd| + 2][..6] == "chain-" && p[|cwd| + 2][6..] == Decimal(chainId)
  {
    cwd + ["ignition", "deployments", "chain-" + Decimal(chainId), "deployed_addresses.json"]
  }

  /** Every chain has its own artifact file. */
  lemma ArtifactPathInjective(cwd: Path, a: nat, b: nat)
    requires ArtifactPath(cwd, a) == ArtifactPath(cwd, b)
    ensures a == b
  {
    var i := |cwd| + 2;
    assert Decimal(a) == ArtifactPath(cwd, a)[i][6..];
    DecimalInjective(a, b);
  }

  /** `json["ERC8004Module#IdentityRegistry"]`. Indexing `null` throws, which the
      surrounding `catch` turns into undefined; scalars and arrays have no such key. */
  function LookupIdentity(doc: JsonDoc): (r: Option<string>)
    ensures r.Some? <==> doc.JsonObject? && IdentityArtifactKey in doc.entries
    ensures r.Some? ==> r.value == doc.entries[IdentityArtifactKey]
  {
    match doc
    case JsonObject(entries) =>
      if IdentityArtifactKey in entries then Some(entries[IdentityArtifactKey]) else None
    case _ => None
  }

  /** `resolveIdentityFromIgnition(chainId)`: a missing or unreadable file, text that is
      not JSON and a document without the key all give undefined; nothing is thrown. */
  function ResolveIdentityFromIgnition(fs: FileSystem, cwd: Path, chainId: nat): (r: Option<string>)
    ensures var p := ArtifactPath(cwd, chainId);
      r.Some? <==> p in fs && fs[p].Json? && LookupIdentity(fs[p].doc).Some?
    ensures var p := ArtifactPath(cwd, chainId);
      r.Some? ==> r == LookupIdentity(fs[p].doc)
  {
    var p := ArtifactPath(cwd, chainId);
    if p !in fs then None
    else match fs[p]
      case NotJson => None
      case Json(doc) => LookupIdentity(doc)
  }

  /** The lookup for one chain ignores what the artifact of any other chain holds. */
  lemma ArtifactOfOtherChainIgnored(fs: FileSystem, cwd: Path, chainId: nat, other: nat, content: FileContent)
    requires other != chainId
    ensures ResolveIdentityFromIgnition(fs[ArtifactPath(cwd, other) := content], cwd, chainId)
         == ResolveIdentityFromIgnition(fs, cwd, chainId)
  {
    if ArtifactPath(cwd, other) == ArtifactPath(cwd, chainId) {
      ArtifactPathInjective(cwd, other, chainId);
    }
  }

  /** Whatever the deployment wrote under the key is what the lookup reads back for that
      chain; an artifact without the key gives undefined. */
  lemma ArtifactRoundTrip(fs: FileSystem, cwd: Path, chainId: nat, entries: map<string, string>)
    ensures var r := ResolveIdentityFromIgnition(fs[ArtifactPath(cwd, chainId) := Json(JsonObject(entries))], cwd, chainId);
      && (IdentityArtifactKey in entries ==> r == Some(entries[IdentityArtifactKey]))
      && (IdentityArtifactKey !in entries ==> r == None)
  {
  }

  /** A missing file, text that is not JSON, and JSON that is not an object holding the key
      all give undefined: the lookup never fails the run by itself. */
  lemma ArtifactUnusable(fs: FileSystem, cwd: Path, chainId: nat)
    requires var p := ArtifactPath(cwd, chainId);
      p !in fs || fs[p] == NotJson || !fs[p].doc.JsonObject? || IdentityArtifactKey !in fs[p].doc.entries
    ensures ResolveIdentityFromIgnition(fs, cwd, chainId) == None
  {
  }

  // ---------------------------------------------------------------------------
  // Registry address precedence
  // ---------------------------------------------------------------------------

  /** `IDENTITY_REGISTRY` when it is truthy, used as it is without any hex check;
      otherwise whatever the artifact gave. */
  function SelectRegistry(envOverride: Option<string>, fromArtifact: Option<string>): Option<string>
  {
    if Present(envOverride) then envOverride else fromArtifact
  }

  /** The reassignment of `identityAddress`: start from the environment value and consult
      the artifact only when that value is falsy. `artifactRead` says whether the file
      was consulted. */
  method ResolveIdentityAddress(envOverride: Option<string>, fs: FileSystem, cwd: Path, chainId: nat)
    returns (identityAddress: Option<string>, artifactRead: bool)
    ensures identityAddress == SelectRegistry(envOverride, ResolveIdentityFromIgnition(fs, cwd, chainId))
    ensures artifactRead <==> !Present(envOverride)
  {
    identityAddress := envOverride;
    artifactRead := false;
    if !Present(identityAddress) {
      identityAddress := ResolveIdentityFromIgnition(fs, cwd, chainId);
      artifactRead := true;
    }
  }

  // ---------------------------------------------------------------------------
  // The fee: `parseEther("0.005")`
  // ---------------------------------------------------------------------------

  function Pow10(k: nat): (p: nat)
    ensures p >= 1
  {
    if k == 0 then 1 else 10 * Pow10(k - 1)
  }

  /** Decimals of ether. */
  const EtherDecimals: nat := 18

  /** `parseEther("<whole>.<fraction>")` for a plain decimal literal whose fraction has at
      most 18 digits: the amount in wei, with no rounding and no floating point. */
  function ParseEther(whole: string, fraction: string): int
    requires forall i :: 0 <= i < |whole| ==> IsDigit(whole[i])
    requires forall i :: 0 <= i < |fraction| ==> IsDigit(fraction[i])
    requires |fraction| <= EtherDecimals
  {
    DecimalValue(whole) * Pow10(EtherDecimals) + DecimalValue(fraction) * Pow10(EtherDecimals - |fraction|)
  }

  /** The value attached to `newAgent`: 5 * 10^15 wei. */
  const RegistrationFeeWei: nat := 5_000_000_000_000_000

  /** The fee constant is exactly `parseEther("0.005")`, i.e. five thousandths of one ether. */
  lemma RegistrationFeeIsParsed()
    ensures ParseEther("0", "005") == RegistrationFeeWei
    ensures RegistrationFeeWei * 1000 == 5 * Pow10(EtherDecimals)
  {
    assert DecimalValue("0") == 0;
    assert DecimalValue("005") == 5 by {
      assert "005"[..2] == "00" && "00"[..1] == "0" && "0"[..0] == "";
    }
    assert Pow10(15) == 1_000_000_000_000_000 by {
      assert Pow10(5) == 100_000;
      assert Pow10(10) == 10_000_000_000 by { assert Pow10(10) == Pow10(5) * Pow10(5) by { Pow10Add(5, 5); } }
      assert Pow10(15) == Pow10(10) * Pow10(5) by { Pow10Add(10, 5); }
    }
    Pow10Add(15, 3);
  }

  lemma {:induction false} Pow10Add(a: nat, b: nat)
    ensures Pow10(a + b) == Pow10(a) * Pow10(b)
  {
    if b > 0 {
      Pow10Add(a, b - 1);
    }
  }

  // ---------------------------------------------------------------------------
  // The pre-flight decision
  // ---------------------------------------------------------------------------

  /** What the runner decides before touching the registry contract. */
  datatype PreFlight =
    | UsageError
    | RegistryNotFound
    | Submit(domain: string, agentAddress: string, identityAddress: string, feeWei: nat)

  function Decide(processArgv: seq<string>, envOverride: Option<string>, fs: FileSystem, cwd: Path, chainId: nat): PreFlight
  {
    match CheckUsage(processArgv)
    case None => UsageError
    case Some(args) =>
      var identity := SelectRegistry(envOverride, ResolveIdentityFromIgnition(fs, cwd, chainId));
      if !Present(identity) then RegistryNotFound
      else Submit(args.domain, args.agent, identity.value, RegistrationFeeWei)
  }

  /** A usage error happens exactly when the domain is missing or empty or the address
      fails `isHexAddress`; the environment, the artifact and the chain play no part. */
  lemma UsageErrorIff(processArgv: seq<string>, envOverride: Option<string>, fs: FileSystem, cwd: Path, chainId: nat)
    ensures var pos := Positional(UserArgs(processArgv));
      Decide(processArgv, envOverride, fs, cwd, chainId) == UsageError
      <==> !Present(At(pos, 0)) || !IsHexAddress(At(pos, 1))
  {
  }

  /** A truthy override is used verbatim, whatever it holds and whatever the artifact
      holds. */
  lemma OverrideWins(processArgv: seq<string>, envOverride: Option<string>, fs: FileSystem, cwd: Path, chainId: nat)
    requires CheckUsage(processArgv).Some?
    requires Present(envOverride)
    ensures var args := CheckUsage(processArgv).value;
      Decide(processArgv, envOverride, fs, cwd, chainId)
      == Submit(args.domain, args.agent, envOverride.value, RegistrationFeeWei)
  {
  }

  /** A falsy override falls through to the artifact; when that gives nothing truthy
      either, the registry is not found. */
  lemma ArtifactFallback(processArgv: seq<string>, envOverride: Option<string>, fs: FileSystem, cwd: Path, chainId: nat)
    requires CheckUsage(processArgv).Some?
    requires !Present(envOverride)
    ensures var fromArtifact := ResolveIdentityFromIgnition(fs, cwd, chainId);
      var args := CheckUsage(processArgv).value;
      && (Decide(processArgv, envOverride, fs, cwd, chainId) == RegistryNotFound <==> !Present(fromArtifact))
      && (Present(fromArtifact) ==>
            Decide(processArgv, envOverride, fs, cwd, chainId)
            == Submit(args.domain, args.agent, fromArtifact.value, RegistrationFeeWei))
  {
  }

  /** Whatever is submitted has a non-empty domain, a well-formed agent address, a
      non-empty registry address and the fixed fee. */
  lemma SubmitShape(processArgv: seq<string>, envOverride: Option<string>, fs: FileSystem, cwd: Path, chainId: nat)
    requires Decide(processArgv, envOverride, fs, cwd, chainId).Submit?
    ensures var d := Decide(processArgv, envOverride, fs, cwd, chainId);
      && d.domain != ""
      && IsHexAddress(Some(d.agentAddress))
      && d.identityAddress != ""
      && d.feeWei == RegistrationFeeWei
  {
  }

  // ---------------------------------------------------------------------------
  // The whole run
  // ---------------------------------------------------------------------------

  /** What the connected network answered: the chain id and the first wallet's address
      (absent when no wallet client is configured). */
  datatype Connection = Connection(chainId: nat, signer: Option<string>)

  /** The record `resolveByAddress` returns. */
  datatype AgentInfo = AgentInfo(agentId: nat, agentDomain: string, agentAddress: string)

  /** The answers of the outside world to the calls a run makes, in order. `connect`
      stands for the connection, the two clients and the chain id; `contract` for
      `getContractAt`, which may reject. */
  datatype Replies = Replies(
    connect: Result<Connection, JsValue>,
    contract: Result<(), JsValue>,
    newAgent: Result<string, JsValue>,
    receipt: Result<nat, JsValue>,
    readBack: Result<AgentInfo, JsValue>)

  /** The effects a run has on the outside world, in the order it has them. */
  datatype Call =
    | Connect
    | ReadArtifact(path: Path)
    | GetContractAt(registry: string)
    | NewAgent(registry: string, domain: string, agent: string, valueWei: nat)
    | WaitForReceipt(txHash: string)
    | ResolveByAddress(registry: string, agent: string)

  /** How a run ends. `Crashed` is a rejected top-level await, which ends the process
      with status 1. */
  datatype Outcome =
    | UsageExit
    | NotFoundExit
    | Crashed(error: JsValue)
    | Registered(txHash: string, blockNumber: nat, info: Option<AgentInfo>)

  datatype RunResult = RunResult(effects: seq<Call>, outcome: Outcome)

  datatype Invocation = Invocation(processArgv: seq<string>, identityRegistryEnv: Option<string>, cwd: Path, fs: FileSystem)

  /** Reading `signer.account.address` when there is no wallet client throws. */
  const MissingSignerError: JsValue := PropertyReadError("account", Undefined)

  /** The process exit status. */
  function ExitStatus(o: Outcome): (status: nat)
    ensures status == 0 <==> o.Registered?
  {
    if o.Registered? then 0 else 1
  }

  /** The script from top to bottom. */
  function Run(inv: Invocation, replies: Replies): RunResult
  {
    match CheckUsage(inv.processArgv)
    case None => RunResult([], UsageExit)
    case Some(args) =>
      match replies.connect
      case Failure(e) => RunResult([Connect], Crashed(e))
      case Success(conn) => Connected(inv, args, conn, replies)
  }

  /** From `getChainId()` on: locate the registry, read the signer, bind the contract,
      then submit. */
  function Connected(inv: Invocation, args: Args, conn: Connection, replies: Replies): RunResult
  {
    var consulted := !Present(inv.identityRegistryEnv);
    var lookups := if consulted then [ReadArtifact(ArtifactPath(inv.cwd, conn.chainId))] else [];
    var identity := SelectRegistry(inv.identityRegistryEnv, ResolveIdentityFromIgnition(inv.fs, inv.cwd, conn.chainId));
    var before := [Connect] + lookups;
    if !Present(identity) then RunResult(before, NotFoundExit)
    else if conn.signer.None? then RunResult(before, Crashed(MissingSignerError))
    else
      var bound := before + [GetContractAt(identity.value)];
      match replies.contract
      case Failure(e) => RunResult(bound, Crashed(e))
      case Success(_) => Submitted(bound, NewAgent(identity.value, args.domain, args.agent, RegistrationFeeWei), replies)
  }

  /** From the `newAgent` transaction on: wait for the receipt, then try the read-back,
      whose failure is caught. */
  function Submitted(before: seq<Call>, submit: Call, replies: Replies): RunResult
    requires submit.NewAgent?
  {
    match replies.newAgent
    case Failure(e) => RunResult(before + [submit], Crashed(e))
    case Success(txHash) =>
      match replies.receipt
      case Failure(e) => RunResult(before + [submit, WaitForReceipt(txHash)], Crashed(e))
      case Success(block) =>
        var info := match replies.readBack case Success(i) => Some(i) case Failure(_) => None;
        RunResult(before + [submit, WaitForReceipt(txHash), ResolveByAddress(submit.registry, submit.agent)],
                  Registered(txHash, block, info))
  }

  /** Rejected usage ends the run with status 1 before any connection is made, and the
      decision does not depend on the chain. */
  lemma UsageRejectedBeforeNetwork(inv: Invocation, replies: Replies, chainId: nat)
    ensures var r := Run(inv, replies);
      && (r.outcome == UsageExit <==> Decide(inv.processArgv, inv.identityRegistryEnv, inv.fs, inv.cwd, chainId) == UsageError)
      && (r.outcome == UsageExit ==> r.effects == [] && ExitStatus(r.outcome) == 1)
      && (r.outcome != UsageExit ==> |r.effects| >= 1 && r.effects[0] == Connect)
  {
    match CheckUsage(inv.processArgv)
    case None =>
    case Some(args) =>
      match replies.connect
      case Failure(_) =>
      case Success(conn) => ConnectedFacts(inv, args, conn, replies);
  }

  /** When no registry address is found the run ends with status 1, having connected and
      perhaps read the artifact, but with no contract call. */
  lemma NotFoundBeforeContractCall(inv: Invocation, replies: Replies)
    requires replies.connect.Success?
    ensures var r := Run(inv, replies);
      && (r.outcome == NotFoundExit
          <==> Decide(inv.processArgv, inv.identityRegistryEnv, inv.fs, inv.cwd, replies.connect.value.chainId) == RegistryNotFound)
      && (r.outcome == NotFoundExit ==>
            ExitStatus(r.outcome) == 1 && forall c :: c in r.effects ==> c.Connect? || c.ReadArtifact?)
  {
    match CheckUsage(inv.processArgv)
    case None =>
    case Some(args) => ConnectedFacts(inv, args, replies.connect.value, replies);
  }

  /** The contract call made is the one decided, with exactly the fixed fee attached; it
      is made iff binding the contract succeeds, and it is the only `newAgent` call. */
  lemma SubmitFollowsDecision(inv: Invocation, replies: Replies)
    requires replies.connect.Success? && replies.connect.value.signer.Some?
    requires Decide(inv.processArgv, inv.identityRegistryEnv, inv.fs, inv.cwd, replies.connect.value.chainId).Submit?
    ensures var d := Decide(inv.processArgv, inv.identityRegistryEnv, inv.fs, inv.cwd, replies.connect.value.chainId);
      var r := Run(inv, replies);
      && (NewAgent(d.identityAddress, d.domain, d.agentAddress, d.feeWei) in r.effects <==> replies.contract.Success?)
      && (replies.contract.Success? ==> multiset(r.effects)[NewAgent(d.identityAddress, d.domain, d.agentAddress, d.feeWei)] == 1)
      && forall c :: c in r.effects && c.NewAgent? ==> c == NewAgent(d.identityAddress, d.domain, d.agentAddress, RegistrationFeeWei)
  {
    var conn := replies.connect.value;
    var args := CheckUsage(inv.processArgv).value;
    assert Run(inv, replies) == Connected(inv, args, conn, replies);
    ConnectedSubmits(inv, args, conn, replies);
    if replies.contract.Success? {
      ConnectedSubmitsOnce(inv, args, conn, replies);
    }
  }

  /** A connected run with a registry address and a signer binds the contract at that
      address, and then makes exactly one contract call, `newAgent` with the fixed fee,
      unless binding failed. */
  lemma ConnectedSubmits(inv: Invocation, args: Args, conn: Connection, replies: Replies)
    requires conn.signer.Some?
    requires Present(SelectRegistry(inv.identityRegistryEnv, ResolveIdentityFromIgnition(inv.fs, inv.cwd, conn.chainId)))
    ensures var identity := SelectRegistry(inv.identityRegistryEnv, ResolveIdentityFromIgnition(inv.fs, inv.cwd, conn.chainId));
      var call, r := NewAgent(identity.value, args.domain, args.agent, RegistrationFeeWei), Connected(inv, args, conn, replies);
      && GetContractAt(identity.value) in r.effects
      && (call in r.effects <==> replies.contract.Success?)
      && forall c :: c in r.effects && c.NewAgent? ==> c == call
  {
    var identity := SelectRegistry(inv.identityRegistryEnv, ResolveIdentityFromIgnition(inv.fs, inv.cwd, conn.chainId));
    var before := [Connect] + (if !Present(inv.identityRegistryEnv) then [ReadArtifact(ArtifactPath(inv.cwd, conn.chainId))] else []);
    var bound := before + [GetContractAt(identity.value)];
    assert bound[|before|] == GetContractAt(identity.value);
    if replies.contract.Success? {
      var submit := NewAgent(identity.value, args.domain, args.agent, RegistrationFeeWei);
      assert Connected(inv, args, conn, replies) == Submitted(bound, submit, replies);
      SubmittedEffects(bound, submit, replies);
      assert Connected(inv, args, conn, replies).effects[..|bound|] == bound;
    } else {
      assert Connected(inv, args, conn, replies).effects == bound;
    }
  }

  /** A truthy override means the artifact is never read and its contents do not matter. */
  lemma OverrideSkipsArtifact(inv: Invocation, replies: Replies, otherFs: FileSystem)
    requires Present(inv.identityRegistryEnv)
    ensures forall c :: c in Run(inv, replies).effects ==> !c.ReadArtifact?
    ensures Run(inv.(fs := otherFs), replies) == Run(inv, replies)
  {
    match CheckUsage(inv.processArgv)
    case None =>
    case Some(args) =>
      match replies.connect
      case Failure(_) =>
      case Success(conn) =>
        assert Connected(inv.(fs := otherFs), args, conn, replies) == Connected(inv, args, conn, replies);
        ConnectedFacts(inv, args, conn, replies);
  }

  /** What every run that got connected has in common: it starts by connecting, it ends
      "not found" exactly when no truthy registry address was found (and then made no
      contract call), and it reads the artifact only when the override is falsy. */
  lemma ConnectedFacts(inv: Invocation, args: Args, conn: Connection, replies: Replies)
    ensures var r := Connected(inv, args, conn, replies);
      var identity := SelectRegistry(inv.identityRegistryEnv, ResolveIdentityFromIgnition(inv.fs, inv.cwd, conn.chainId));
      && |r.effects| >= 1 && r.effects[0] == Connect && r.outcome != UsageExit
      && (r.outcome == NotFoundExit <==> !Present(identity))
      && (!Present(identity) ==> forall c :: c in r.effects ==> c.Connect? || c.ReadArtifact?)
      && (Present(inv.identityRegistryEnv) ==> forall c :: c in r.effects ==> !c.ReadArtifact?)
  {
    var identity := SelectRegistry(inv.identityRegistryEnv, ResolveIdentityFromIgnition(inv.fs, inv.cwd, conn.chainId));
    var before := [Connect] + (if !Present(inv.identityRegistryEnv) then [ReadArtifact(ArtifactPath(inv.cwd, conn.chainId))] else []);
    if Present(identity) && conn.signer.Some? && replies.contract.Success? {
      var bound := before + [GetContractAt(identity.value)];
      SubmittedEffects(bound, NewAgent(identity.value, args.domain, args.agent, RegistrationFeeWei), replies);
    }
  }

  /** The calls of a run that reaches the contract call: what came before, the call, and
      then, once the transaction is sent, the receipt wait and the read-back, in that
      order and as far as the run gets. */
  lemma SubmittedEffects(before: seq<Call>, submit: Call, replies: Replies)
    requires submit.NewAgent?
    ensures var r := Submitted(before, submit, replies);
      && |r.effects| > |before| && r.effects[..|before|] == before && r.effects[|before|] == submit
      && (replies.newAgent.Failure? ==> r.effects == before + [submit])
      && (replies.newAgent.Success? ==>
            && |r.effects| >= |before| + 2
            && r.effects[|before| + 1..] <= [WaitForReceipt(replies.newAgent.value), ResolveByAddress(submit.registry, submit.agent)])
      && (r.outcome.Registered? <==> |r.effects| == |before| + 3)
      && forall i :: |before| < i < |r.effects| ==> !r.effects[i].ReadArtifact? && !r.effects[i].NewAgent?
  {
  }

  /** After connecting, a bound registry contract receives `newAgent` exactly once. */
  lemma ConnectedSubmitsOnce(inv: Invocation, args: Args, conn: Connection, replies: Replies)
    requires conn.signer.Some? && replies.contract.Success?
    requires Present(SelectRegistry(inv.identityRegistryEnv, ResolveIdentityFromIgnition(inv.fs, inv.cwd, conn.chainId)))
    ensures var identity := SelectRegistry(inv.identityRegistryEnv, ResolveIdentityFromIgnition(inv.fs, inv.cwd, conn.chainId));
      multiset(Connected(inv, args, conn, replies).effects)[NewAgent(identity.value, args.domain, args.agent, RegistrationFeeWei)] == 1
  {
    var identity := SelectRegistry(inv.identityRegistryEnv, ResolveIdentityFromIgnition(inv.fs, inv.cwd, conn.chainId));
    var before := [Connect] + (if !Present(inv.identityRegistryEnv) then [ReadArtifact(ArtifactPath(inv.cwd, conn.chainId))] else []);
    var bound := before + [GetContractAt(identity.value)];
    var submit := NewAgent(identity.value, args.domain, args.agent, RegistrationFeeWei);
    assert Connected(inv, args, conn, replies) == Submitted(bound, submit, replies);
    SubmittedOnce(bound, submit, replies);
    assert submit !in bound;
  }

  /** `newAgent` is sent once: the calls after it never repeat it. */
  lemma SubmittedOnce(before: seq<Call>, submit: Call, replies: Replies)
    requires submit.NewAgent?
    ensures multiset(Submitted(before, submit, replies).effects)[submit] == multiset(before)[submit] + 1
  {
    var effects := Submitted(before, submit, replies).effects;
    var later := match replies.newAgent
      case Failure(_) => []
      case Success(txHash) =>
        match replies.receipt
        case Failure(_) => [WaitForReceipt(txHash)]
        case Success(_) => [WaitForReceipt(txHash), ResolveByAddress(submit.registry, submit.agent)];
    assert effects == before + [submit] + later;
    assert submit !in later;
  }

  /** The read-back after mining is advisory: whether it succeeds changes neither the
      calls made, nor the exit status, nor the reported transaction and block. */
  lemma ReadBackIsAdvisory(inv: Invocation, replies: Replies, readBack: Result<AgentInfo, JsValue>)
    ensures var r, r' := Run(inv, replies), Run(inv, replies.(readBack := readBack));
      && r'.effects == r.effects
      && ExitStatus(r'.outcome) == ExitStatus(r.outcome)
      && r'.outcome.Registered? == r.outcome.Registered?
      && (r.outcome.Registered? ==>
            r'.outcome.txHash == r.outcome.txHash && r'.outcome.blockNumber == r.outcome.blockNumber)
      && (!r.outcome.Registered? ==> r'.outcome == r.outcome)
  {
    match CheckUsage(inv.processArgv)
    case None =>
    case Some(args) =>
      match replies.connect
      case Failure(_) =>
      case Success(conn) =>
        assert Run(inv, replies) == Connected(inv, args, conn, replies);
        assert Run(inv, replies.(readBack := readBack)) == Connected(inv, args, conn, replies.(readBack := readBack));
        ConnectedReadBack(inv, args, conn, replies, readBack);
  }

  /** The read-back reply only ever changes the agent record a registered run reports. */
  lemma ConnectedReadBack(inv: Invocation, args: Args, conn: Connection, replies: Replies, readBack: Result<AgentInfo, JsValue>)
    ensures var r, r' := Connected(inv, args, conn, replies), Connected(inv, args, conn, replies.(readBack := readBack));
      && r'.effects == r.effects
      && r'.outcome.Registered? == r.outcome.Registered?
      && (r.outcome.Registered? ==>
            r'.outcome.txHash == r.outcome.txHash && r'.outcome.blockNumber == r.outcome.blockNumber)
      && (!r.outcome.Registered? ==> r'.outcome == r.outcome)
  {
    var identity := SelectRegistry(inv.identityRegistryEnv, ResolveIdentityFromIgnition(inv.fs, inv.cwd, conn.chainId));
    var before := [Connect] + (if !Present(inv.identityRegistryEnv) then [ReadArtifact(ArtifactPath(inv.cwd, conn.chainId))] else []);
    if Present(identity) && conn.signer.Some? && replies.contract.Success? {
      var bound := before + [GetContractAt(identity.value)];
      var submit := NewAgent(identity.value, args.domain, args.agent, RegistrationFeeWei);
      assert Connected(inv, args, conn, replies) == Submitted(bound, submit, replies);
      assert Connected(inv, args, conn, replies.(readBack := readBack)) == Submitted(bound, submit, replies.(readBack := readBack));
    }
  }

  /** A registered run is one whose transaction was submitted and mined: the reported hash
      and block are the ones the network gave. */
  lemma RegisteredMeansMined(inv: Invocation, replies: Replies)
    ensures var r := Run(inv, replies);
      r.outcome.Registered? <==>
        && CheckUsage(inv.processArgv).Some?
        && replies.connect.Success?
        && Decide(inv.processArgv, inv.identityRegistryEnv, inv.fs, inv.cwd, replies.connect.value.chainId).Submit?
        && replies.connect.value.signer.Some?
        && replies.contract.Success?
        && replies.newAgent.Success?
        && replies.receipt.Success?
    ensures var r := Run(inv, replies);
      r.outcome.Registered? ==>
        r.outcome.txHash == replies.newAgent.value && r.outcome.blockNumber == replies.receipt.value
  {
  }
}
