/** The ChaosChain onboarding script `scripts/chaoschain-deploy-warren.cjs`: it prints an
    overview of its environment (the private key masked), refuses to start without a
    private key, chooses Pinata storage when a Pinata token is set, and then runs four
    SDK operations, each wrapped in `step`, which logs timing and, on failure, a
    field-by-field decomposition of the error (`logError`) before re-throwing it.

    The SDK and the clock are not modelled: each SDK operation's outcome and measured
    duration are inputs, and a run yields the SDK calls it made, the console lines it
    wrote and how it ended. */
module DeployWarren {
  import opened Js

  // ---------------------------------------------------------------------------
  // Console lines
  // ---------------------------------------------------------------------------

  datatype Stream = Stdout | Stderr

  /** One argument after the text of a console call: printed as it is, or first turned
      into text by the script's `toJSON`. */
  datatype Arg = Plain(v: JsValue) | AsJson(v: JsValue)

  /** `console.log(text, ...args)` or `console.error(text, ...args)`. */
  datatype LogLine = LogLine(stream: Stream, text: string, args: seq<Arg>)

  // ---------------------------------------------------------------------------
  // mask
  // ---------------------------------------------------------------------------

  /** The single character U+2026 placed between the revealed ends. */
  const Ellipsis: char := '…'

  /** `mask(v)`: a string longer than 10 characters shows its first 4 and last 6
      characters around an ellipsis; any other truthy value shows as `<set>`, a falsy
      one as `<unset>`. */
  function Mask(v: JsValue): (r: string)
    ensures |r| == 11 <==> v.Str? && |v.s| > 10
    ensures |r| == 11 ==> r[..4] == v.s[..4] && r[4] == Ellipsis && r[5..] == v.s[|v.s| - 6..]
    ensures r == "<unset>" <==> !Truthy(v)
    ensures r == "<set>" <==> Truthy(v) && !(v.Str? && |v.s| > 10)
  {
    if v.Str? && |v.s| > 10 then v.s[..4] + [Ellipsis] + v.s[|v.s| - 6..]
    else if Truthy(v) then "<set>"
    else "<unset>"
  }

  /** The mask of a long secret depends only on its first 4 and last 6 characters:
      whatever lies between them never reaches the log. */
  lemma MaskHidesMiddle(a: string, b: string)
    requires |a| > 10 && |b| > 10
    requires a[..4] == b[..4] && a[|a| - 6..] == b[|b| - 6..]
    ensures Mask(Str(a)) == Mask(Str(b))
  {
  }

  /** A secret of more than 11 characters is never printed whole. */
  lemma MaskNeverRevealsLongSecret(s: string)
    requires |s| > 11
    ensures Mask(Str(s)) != s && |Mask(Str(s))| < |s|
  {
  }

  // ---------------------------------------------------------------------------
  // logError
  // ---------------------------------------------------------------------------

  /** One line `logError` may print: the two unconditional ones, and the ones printed only
      when the probed value is truthy (some of them through `toJSON`). */
  datatype Probe =
    | Always(caption: string, value: JsValue)
    | WhenTruthy(caption: string, value: JsValue, json: bool)

  /** The probes of `logError(err)`, in the order it tries them. Every value is read by
      optional chaining, so building this table never throws, whatever `err` is. */
  function Probes(err: JsValue): (ps: seq<Probe>)
    ensures |ps| == 11
    ensures forall i :: 0 <= i < |ps| ==> (ps[i].Always? <==> i < 2)
  {
    [Always("Error name:", Prop(err, "name")),
     Always("Error message:", Prop(err, "message")),
     WhenTruthy("Error code:", Prop(err, "code"), false),
     WhenTruthy("Reason:", Prop(err, "reason"), false),
     WhenTruthy("Short message:", Prop(err, "shortMessage"), false),
     WhenTruthy("Data:", Prop(err, "data"), true),
     WhenTruthy("Cause:", Prop(err, "cause"), true),
     WhenTruthy("Tx hash:", Prop(err, "transactionHash"), false),
     WhenTruthy("Tx hash:", Prop(Prop(err, "transaction"), "hash"), false),
     WhenTruthy("Receipt:", Prop(err, "receipt"), true),
     WhenTruthy("Meta:", Prop(err, "metaMessages"), true)]
  }

  /** The line a probe prints. */
  function ProbeLine(p: Probe): LogLine
  {
    LogLine(Stderr, p.caption, [if p.WhenTruthy? && p.json then AsJson(p.value) else Plain(p.value)])
  }

  /** Whether a probe prints its line. */
  predicate Fires(p: Probe)
  {
    p.Always? || Truthy(p.value)
  }

  function Emitted(p: Probe): seq<LogLine>
  {
    if Fires(p) then [ProbeLine(p)] else []
  }

  /** The lines of the probes that fire, in table order. */
  function Kept(ps: seq<Probe>): seq<LogLine>
  {
    if ps == [] then [] else Kept(ps[..|ps| - 1]) + Emitted(ps[|ps| - 1])
  }

  /** What `logError(err)` prints. */
  function DiagnosticLines(err: JsValue): seq<LogLine>
  {
    Kept(Probes(err))
  }

  /** `if (v) console.error(caption, v)`, with `toJSON(v)` in place of `v` when `json` holds. */
  method LogIfTruthy(lines: seq<LogLine>, v: JsValue, caption: string, json: bool) returns (lines': seq<LogLine>)
    ensures lines' == lines + Emitted(WhenTruthy(caption, v, json))
  {
    lines' := lines;
    if Truthy(v) {
      lines' := lines' + [LogLine(Stderr, caption, [if json then AsJson(v) else Plain(v)])];
    }
  }

  /** `logError(err)`: name and message, then one guarded line per optional field. */
  method LogError(err: JsValue) returns (lines: seq<LogLine>)
    ensures lines == DiagnosticLines(err)
  {
    lines := [];
    lines := lines + [LogLine(Stderr, "Error name:", [Plain(Prop(err, "name"))])];
    lines := lines + [LogLine(Stderr, "Error message:", [Plain(Prop(err, "message"))])];
    lines := LogIfTruthy(lines, Prop(err, "code"), "Error code:", false);
    lines := LogIfTruthy(lines, Prop(err, "reason"), "Reason:", false);
    lines := LogIfTruthy(lines, Prop(err, "shortMessage"), "Short message:", false);
    lines := LogIfTruthy(lines, Prop(err, "data"), "Data:", true);
    lines := LogIfTruthy(lines, Prop(err, "cause"), "Cause:", true);
    lines := LogIfTruthy(lines, Prop(err, "transactionHash"), "Tx hash:", false);
    lines := LogIfTruthy(lines, Prop(Prop(err, "transaction"), "hash"), "Tx hash:", false);
    lines := LogIfTruthy(lines, Prop(err, "receipt"), "Receipt:", true);
    lines := LogIfTruthy(lines, Prop(err, "metaMessages"), "Meta:", true);
    KeptEleven(Probes(err));
  }

  /** One more probe adds its line, if it fires, at the end. */
  lemma KeptStep(ps: seq<Probe>, k: nat)
    requires k < |ps|
    ensures Kept(ps[..k + 1]) == Kept(ps[..k]) + Emitted(ps[k])
  {
    assert ps[..k + 1][..k] == ps[..k];
  }

  /** `Kept` over a table of eleven probes, spelled out probe by probe. */
  lemma KeptEleven(ps: seq<Probe>)
    requires |ps| == 11
    ensures Kept(ps) == [] + Emitted(ps[0]) + Emitted(ps[1]) + Emitted(ps[2]) + Emitted(ps[3])
      + Emitted(ps[4]) + Emitted(ps[5]) + Emitted(ps[6]) + Emitted(ps[7]) + Emitted(ps[8])
      + Emitted(ps[9]) + Emitted(ps[10])
  {
    assert Kept(ps[..0]) == [];
    KeptStep(ps, 0);
    assert Kept(ps[..1]) == [] + Emitted(ps[0]);
    KeptStep(ps, 1);
    assert Kept(ps[..2]) == [] + Emitted(ps[0]) + Emitted(ps[1]);
    KeptStep(ps, 2);
    assert Kept(ps[..3]) == [] + Emitted(ps[0]) + Emitted(ps[1]) + Emitted(ps[2]);
    KeptStep(ps, 3);
    assert Kept(ps[..4]) == [] + Emitted(ps[0]) + Emitted(ps[1]) + Emitted(ps[2]) + Emitted(ps[3]);
    KeptStep(ps, 4);
    assert Kept(ps[..5]) == [] + Emitted(ps[0]) + Emitted(ps[1]) + Emitted(ps[2]) + Emitted(ps[3]) + Emitted(ps[4]);
    KeptStep(ps, 5);
    assert Kept(ps[..6]) == [] + Emitted(ps[0]) + Emitted(ps[1]) + Emitted(ps[2]) + Emitted(ps[3]) + Emitted(ps[4]) + Emitted(ps[5]);
    KeptStep(ps, 6);
    assert Kept(ps[..7]) == [] + Emitted(ps[0]) + Emitted(ps[1]) + Emitted(ps[2]) + Emitted(ps[3]) + Emitted(ps[4]) + Emitted(ps[5]) + Emitted(ps[6]);
    KeptStep(ps, 7);
    assert Kept(ps[..8]) == [] + Emitted(ps[0]) + Emitted(ps[1]) + Emitted(ps[2]) + Emitted(ps[3]) + Emitted(ps[4]) + Emitted(ps[5]) + Emitted(ps[6]) + Emitted(ps[7]);
    KeptStep(ps, 8);
    assert Kept(ps[..9]) == [] + Emitted(ps[0]) + Emitted(ps[1]) + Emitted(ps[2]) + Emitted(ps[3]) + Emitted(ps[4]) + Emitted(ps[5]) + Emitted(ps[6]) + Emitted(ps[7]) + Emitted(ps[8]);
    KeptStep(ps, 9);
    assert Kept(ps[..10]) == [] + Emitted(ps[0]) + Emitted(ps[1]) + Emitted(ps[2]) + Emitted(ps[3]) + Emitted(ps[4]) + Emitted(ps[5]) + Emitted(ps[6]) + Emitted(ps[7]) + Emitted(ps[8]) + Emitted(ps[9]);
    KeptStep(ps, 10);
    assert Kept(ps[..11]) == [] + Emitted(ps[0]) + Emitted(ps[1]) + Emitted(ps[2]) + Emitted(ps[3]) + Emitted(ps[4]) + Emitted(ps[5]) + Emitted(ps[6]) + Emitted(ps[7]) + Emitted(ps[8]) + Emitted(ps[9]) + Emitted(ps[10]);
    assert ps[..11] == ps;
  }

  /** The indices of the probes that fire, in increasing order. */
  function Origins(ps: seq<Probe>): seq<nat>
  {
    if ps == [] then [] else Origins(ps[..|ps| - 1]) + (if Fires(ps[|ps| - 1]) then [|ps| - 1] else [])
  }

  /** The origins are indices of the table, increasing, and a probe is among them iff it
      fires. */
  lemma {:induction false} OriginsOrdered(ps: seq<Probe>)
    ensures forall i :: 0 <= i < |Origins(ps)| ==> Origins(ps)[i] < |ps|
    ensures forall i, j :: 0 <= i < j < |Origins(ps)| ==> Origins(ps)[i] < Origins(ps)[j]
    ensures forall k :: 0 <= k < |ps| ==> (k in Origins(ps) <==> Fires(ps[k]))
  {
    if ps != [] {
      var n := |ps| - 1;
      var init := ps[..n];
      OriginsOrdered(init);
      assert forall k :: 0 <= k < n ==> init[k] == ps[k];
      assert Origins(ps) == Origins(init) + (if Fires(ps[n]) then [n] else []);
    }
  }

  /** The lines printed are exactly the lines of the probes that fire, one each, in table
      order: the i-th line comes from probe `Origins(ps)[i]`. */
  lemma {:induction false} KeptOrigins(ps: seq<Probe>)
    ensures |Origins(ps)| == |Kept(ps)|
    ensures forall i :: 0 <= i < |Origins(ps)| ==>
      Origins(ps)[i] < |ps| && Kept(ps)[i] == ProbeLine(ps[Origins(ps)[i]])
  {
    OriginsOrdered(ps);
    if ps != [] {
      var n := |ps| - 1;
      var init := ps[..n];
      KeptOrigins(init);
      assert forall k :: 0 <= k < n ==> init[k] == ps[k];
      assert Kept(ps) == Kept(init) + Emitted(ps[n]);
      assert Origins(ps) == Origins(init) + (if Fires(ps[n]) then [n] else []);
    }
  }

  /** The lines of a prefix of the table start the lines of the whole table. */
  lemma {:induction false} KeptPrefix(ps: seq<Probe>, k: nat)
    requires k <= |ps|
    ensures Kept(ps[..k]) <= Kept(ps)
    decreases |ps| - k
  {
    if k < |ps| {
      KeptStep(ps, k);
      KeptPrefix(ps, k + 1);
    } else {
      assert ps[..k] == ps;
    }
  }

  /** `logError` always starts with the error's name and message, and everything it
      prints goes to standard error. */
  lemma DiagnosticHeader(err: JsValue)
    ensures |DiagnosticLines(err)| >= 2
    ensures DiagnosticLines(err)[0] == LogLine(Stderr, "Error name:", [Plain(Prop(err, "name"))])
    ensures DiagnosticLines(err)[1] == LogLine(Stderr, "Error message:", [Plain(Prop(err, "message"))])
    ensures forall i :: 0 <= i < |DiagnosticLines(err)| ==> DiagnosticLines(err)[i].stream == Stderr
  {
    var ps := Probes(err);
    assert Kept(ps[..0]) == [];
    KeptStep(ps, 0);
    KeptStep(ps, 1);
    KeptPrefix(ps, 2);
    KeptOrigins(ps);
    OriginsOrdered(ps);
  }

  /** Each optional field (probes 2 to 10 of the table) has its line printed iff its
      value is truthy; printed lines keep the table order. */
  lemma DiagnosticField(err: JsValue, k: nat)
    requires 2 <= k < 11
    ensures Truthy(Probes(err)[k].value) ==> ProbeLine(Probes(err)[k]) in DiagnosticLines(err)
    ensures k in Origins(Probes(err)) <==> Truthy(Probes(err)[k].value)
  {
    var ps := Probes(err);
    KeptOrigins(ps);
    OriginsOrdered(ps);
    if Truthy(ps[k].value) {
      var i :| 0 <= i < |Origins(ps)| && Origins(ps)[i] == k;
      assert Kept(ps)[i] == ProbeLine(ps[k]);
    }
  }

  /** A thrown value that is not an object (a string, undefined, ...) yields just the two
      unconditional lines, both showing undefined. */
  lemma NonObjectThrown(err: JsValue)
    requires !err.Object?
    ensures DiagnosticLines(err) ==
      [LogLine(Stderr, "Error name:", [Plain(Undefined)]), LogLine(Stderr, "Error message:", [Plain(Undefined)])]
  {
    KeptEleven(Probes(err));
  }

  // ---------------------------------------------------------------------------
  // step
  // ---------------------------------------------------------------------------

  /** What an awaited operation did, and how many milliseconds `Date.now()` says it took. */
  datatype Timed<T> = Timed(outcome: Result<T, JsValue>, elapsedMs: int)

  function StartBanner(name: string): LogLine
  {
    LogLine(Stdout, "\n=== " + name + ": start ===", [])
  }

  function SuccessBanner(name: string, elapsedMs: int): LogLine
  {
    LogLine(Stdout, "=== " + name + ": success in " + IntToString(elapsedMs) + "ms ===", [])
  }

  function FailedBanner(name: string): LogLine
  {
    LogLine(Stderr, "=== " + name + ": FAILED ===", [])
  }

  /** The lines `step(name, fn)` prints: a start banner, then the elapsed time, or a
      failure banner followed by the diagnostic lines of what was thrown. */
  function StepLog<T>(name: string, op: Timed<T>): seq<LogLine>
  {
    match op.outcome
    case Success(_) => [StartBanner(name), SuccessBanner(name, op.elapsedMs)]
    case Failure(err) => [StartBanner(name), FailedBanner(name)] + DiagnosticLines(err)
  }

  /** `step(name, fn)`: awaits the operation once; a value it returns is returned
      unchanged, and a value it throws is thrown again, the very same value. */
  method Step<T>(name: string, op: Timed<T>) returns (result: Result<T, JsValue>, log: seq<LogLine>)
    ensures result == op.outcome
    ensures log == StepLog(name, op)
  {
    log := [StartBanner(name)];
    match op.outcome {
      case Success(res) =>
        log := log + [SuccessBanner(name, op.elapsedMs)];
        result := Success(res);
      case Failure(err) =>
        log := log + [FailedBanner(name)];
        var diagnostics := LogError(err);
        log := log + diagnostics;
        result := Failure(err);
    }
  }

  /** A failing step always reports the error's name and message on standard error. */
  lemma StepFailureIsReported<T>(name: string, op: Timed<T>)
    requires op.outcome.Failure?
    ensures |StepLog(name, op)| >= 4
    ensures StepLog(name, op)[2] == LogLine(Stderr, "Error name:", [Plain(Prop(op.outcome.error, "name"))])
    ensures StepLog(name, op)[3] == LogLine(Stderr, "Error message:", [Plain(Prop(op.outcome.error, "message"))])
  {
    var log := StepLog(name, op);
    DiagnosticHeader(op.outcome.error);
    assert log[2..][0] == log[2] && log[2..][1] == log[3];
  }

  // ---------------------------------------------------------------------------
  // main
  // ---------------------------------------------------------------------------

  /** The environment variables the script reads. */
  datatype Env = Env(privateKey: Option<string>, pinataJwt: Option<string>, identityRegistry: Option<string>)

  datatype Storage = PinataStorage(jwt: string, gatewayUrl: string)

  const PinataGateway: string := "https://gateway.pinata.cloud"

  /** The fixed identity the script registers. */
  const AgentName: string := "warrenbuefet"
  const AgentDomain: string := "https://ethglobalhackaton.vercel.app/agents/warrenbuefet/agent.json"

  /** The configuration handed to the SDK constructor. */
  datatype SdkConfig = SdkConfig(
    agentName: string,
    agentDomain: string,
    agentRole: string,
    network: string,
    privateKey: string,
    storageProvider: Option<Storage>,
    enablePayments: bool,
    enableStorage: bool)

  /** What reading the SDK's address does: there is no `getAddress`, it returns a value,
      or it throws. */
  datatype AddressProbe = NoGetter | Returns(address: JsValue) | Throws

  /** The outcome of every SDK operation the script may perform, in order: `pinata` is
      what `new PinataStorage(...)` does when a token is set. */
  datatype SdkReplies = SdkReplies(
    pinata: Result<(), JsValue>,
    init: Timed<()>,
    address: AddressProbe,
    register: Timed<JsValue>,
    store: Timed<JsValue>,
    stats: Timed<JsValue>)

  /** The SDK operations the script performs, in the order it performs them. */
  datatype SdkCall =
    | NewPinataStorage(storage: Storage)
    | Construct(config: SdkConfig)
    | GetAddress
    | RegisterIdentity
    | StoreEvidence(agentId: JsValue)
    | GetAgentStats(agentId: JsValue)

  /** What `main` had in hand when it resolved. */
  datatype Completion = Completion(agentId: JsValue, txHash: JsValue, cid: JsValue, stats: JsValue)

  /** The SDK calls made and how `main` settled. */
  datatype MainRun = MainRun(calls: seq<SdkCall>, result: Result<Completion, JsValue>)

  /** `new Error('Missing PRIVATE_KEY env var')`. */
  const MissingKeyError: JsValue :=
    Object(map["name" := Str("Error"), "message" := Str("Missing PRIVATE_KEY env var")])

  /** The three overview lines: the key masked, the Pinata token as set or unset, the
      registry override in the clear. */
  function Overview(env: Env): (lines: seq<LogLine>)
    ensures |lines| == 3
    ensures lines[0].args == [Plain(Str(Mask(FromOptional(env.privateKey))))]
    ensures lines[1].args == [Plain(Str("<set>"))] <==> Present(env.pinataJwt)
    ensures lines[1].args == [Plain(Str("<unset>"))] <==> !Present(env.pinataJwt)
  {
    [LogLine(Stdout, "ENV: PRIVATE_KEY:", [Plain(Str(Mask(FromOptional(env.privateKey))))]),
     LogLine(Stdout, "ENV: PINATA_JWT:", [Plain(Str(if Present(env.pinataJwt) then "<set>" else "<unset>"))]),
     LogLine(Stdout, "ENV: IDENTITY_REGISTRY:",
             [Plain(Str(if Present(env.identityRegistry) then env.identityRegistry.value else "<unset>"))])]
  }

  /** The storage provider: Pinata with the token exactly when the token is truthy. */
  function StorageFor(pinataJwt: Option<string>): (s: Option<Storage>)
    ensures s.Some? <==> Present(pinataJwt)
    ensures s.Some? ==> s.value == PinataStorage(pinataJwt.value, PinataGateway)
  {
    if Present(pinataJwt) then Some(PinataStorage(pinataJwt.value, PinataGateway)) else None
  }

  /** The SDK configuration built once the private key is known to be set. */
  function ConfigFor(env: Env): (c: SdkConfig)
    requires Present(env.privateKey)
    ensures c.privateKey == env.privateKey.value && c.privateKey != ""
    ensures c.storageProvider == StorageFor(env.pinataJwt)
  {
    SdkConfig(
      AgentName,
      AgentDomain,
      "SERVER",
      "BASE_SEPOLIA",
      env.privateKey.value,
      StorageFor(env.pinataJwt),
      true,
      true)
  }

  /** The lines printed once the configuration is built: the storage choice and a summary
      of the configuration that leaves the key out. */
  function ConfigLines(config: SdkConfig): (lines: seq<LogLine>)
    ensures |lines| == 2
    ensures lines[0].args == [Plain(Str("Pinata"))] <==> config.storageProvider.Some?
    ensures |lines[1].args| == 1 && lines[1].args[0].v.Object? && "privateKey" !in lines[1].args[0].v.props
  {
    [LogLine(Stdout, "Storage provider:", [Plain(Str(if config.storageProvider.Some? then "Pinata" else "None"))]),
     LogLine(Stdout, "SDK config:", [Plain(Object(map[
       "agentName" := Str(config.agentName),
       "agentDomain" := Str(config.agentDomain),
       "agentRole" := Str("SERVER"),
       "network" := Str("BASE_SEPOLIA"),
       "enablePayments" := Bool(config.enablePayments),
       "enableStorage" := Bool(config.enableStorage)]))])]
  }

  /** The line printed after trying to read the SDK's address; reading it never fails the run. */
  function AddressLine(probe: AddressProbe): LogLine
  {
    match probe
    case NoGetter => LogLine(Stdout, "SDK address:", [Plain(Str("<unknown>"))])
    case Returns(a) => LogLine(Stdout, "SDK address:", [Plain(a)])
    case Throws => LogLine(Stdout, "Could not read SDK address", [])
  }

  function RegisteredLine(agentId: JsValue, txHash: JsValue): LogLine
  {
    LogLine(Stdout, "registerIdentity -> agentId:", [Plain(agentId), Plain(Str("tx:")), Plain(txHash)])
  }

  /** The storage provider built before the configuration, if any. */
  function StorageCalls(env: Env): (calls: seq<SdkCall>)
    ensures |calls| <= 1
    ensures |calls| == 1 <==> Present(env.pinataJwt)
    ensures |calls| == 1 ==> calls[0] == NewPinataStorage(PinataStorage(env.pinataJwt.value, PinataGateway))
  {
    match StorageFor(env.pinataJwt)
    case Some(storage) => [NewPinataStorage(storage)]
    case None => []
  }

  /** Whether the storage step got through: no token, or a provider that was built. */
  predicate StorageBuilt(env: Env, sdk: SdkReplies)
  {
    !Present(env.pinataJwt) || sdk.pinata.Success?
  }

  /** `sdk.getAddress()` is called only when the SDK has such a method. */
  function AddressCalls(probe: AddressProbe): seq<SdkCall>
  {
    if probe.NoGetter? then [] else [GetAddress]
  }

  /** The SDK calls `main()` makes, in order, and how it settles: each `step` that throws,
      and each property read of undefined or null, ends `main` with that thrown value
      before any later SDK call. */
  function MainOutcome(env: Env, sdk: SdkReplies): MainRun
  {
    if !Present(env.privateKey) then MainRun([], Failure(MissingKeyError))
    else
      var calls := StorageCalls(env);
      if !StorageBuilt(env, sdk) then MainRun(calls, Failure(sdk.pinata.error))
      else
        var calls := calls + [Construct(ConfigFor(env))];
        if sdk.init.outcome.Failure? then MainRun(calls, Failure(sdk.init.outcome.error))
        else Registration(sdk, calls)
  }

  /** `main()` once the SDK is constructed, `calls` being the SDK calls made so far: the
      address probe, then registration, evidence and stats. */
  function Registration(sdk: SdkReplies, calls: seq<SdkCall>): MainRun
    requires sdk.init.outcome.Success?
  {
    var calls := calls + AddressCalls(sdk.address);
    var calls := calls + [RegisterIdentity];
    if sdk.register.outcome.Failure? then MainRun(calls, Failure(sdk.register.outcome.error))
    else
      var registered := sdk.register.outcome.value;
      if Nullish(registered) then MainRun(calls, Failure(DestructureError("agentId", registered)))
      else if Nullish(Prop(registered, "agentId")) then
        MainRun(calls, Failure(PropertyReadError("toString", Prop(registered, "agentId"))))
      else EvidenceStage(sdk, calls, Prop(registered, "agentId"), Prop(registered, "txHash"))
  }

  /** `main()` once the agent is registered under `agentId`: store the evidence, then
      read the stats. */
  function EvidenceStage(sdk: SdkReplies, calls: seq<SdkCall>, agentId: JsValue, txHash: JsValue): MainRun
    requires !Nullish(agentId)
  {
    var calls := calls + [StoreEvidence(agentId)];
    if sdk.store.outcome.Failure? then MainRun(calls, Failure(sdk.store.outcome.error))
    else
      var calls := calls + [GetAgentStats(agentId)];
      if sdk.stats.outcome.Failure? then MainRun(calls, Failure(sdk.stats.outcome.error))
      else if Nullish(sdk.stats.outcome.value) then
        MainRun(calls, Failure(PropertyReadError("totalFeedback", sdk.stats.outcome.value)))
      else MainRun(calls, Success(Completion(agentId, txHash, sdk.store.outcome.value, sdk.stats.outcome.value)))
  }

  /** The lines `main()` prints, up to where it settles. */
  function MainLog(env: Env, sdk: SdkReplies): seq<LogLine>
  {
    var overview := Overview(env);
    if !Present(env.privateKey) || !StorageBuilt(env, sdk) then overview
    else
      var log := overview + ConfigLines(ConfigFor(env)) + StepLog("SDK init", sdk.init);
      if sdk.init.outcome.Failure? then log else log + RegistrationLog(sdk)
  }

  /** The lines printed once the SDK is constructed, up to where `main()` settles. */
  function RegistrationLog(sdk: SdkReplies): seq<LogLine>
  {
    [AddressLine(sdk.address)] + RegisteredLog(sdk.register, sdk.store, sdk.stats)
  }

  /** The lines printed from the registration step on. */
  function RegisteredLog(register: Timed<JsValue>, store: Timed<JsValue>, stats: Timed<JsValue>): seq<LogLine>
  {
    var log := StepLog("registerIdentity", register);
    if register.outcome.Failure? || Nullish(register.outcome.value) then log
    else
      var registered := register.outcome.value;
      var agentId := Prop(registered, "agentId");
      var log := log + [RegisteredLine(agentId, Prop(registered, "txHash"))];
      if Nullish(agentId) then log else log + EvidenceLog(store, stats)
  }

  /** The lines printed by the evidence and stats steps. */
  function EvidenceLog(store: Timed<JsValue>, stats: Timed<JsValue>): seq<LogLine>
  {
    var log := StepLog("storeEvidence", store);
    if store.outcome.Failure? then log else log + StepLog("getAgentStats", stats)
  }

  /** Without a truthy `PRIVATE_KEY` the run stops right after the overview: the SDK is
      never constructed and `main` rejects with the missing-key error. */
  lemma MissingKeyStopsBeforeSdk(env: Env, sdk: SdkReplies)
    ensures !Present(env.privateKey) <==> MainOutcome(env, sdk).calls == []
    ensures !Present(env.privateKey) ==>
      MainOutcome(env, sdk).result == Failure(MissingKeyError) && MainLog(env, sdk) == Overview(env)
  {
  }

  /** Every later stage only appends SDK calls to those already made, the registration
      among them. */
  lemma RegistrationExtends(sdk: SdkReplies, calls: seq<SdkCall>)
    requires sdk.init.outcome.Success?
    ensures |Registration(sdk, calls).calls| > |calls| && Registration(sdk, calls).calls[..|calls|] == calls
    ensures RegisterIdentity in Registration(sdk, calls).calls[|calls|..]
  {
    var registering := calls + AddressCalls(sdk.address) + [RegisterIdentity];
    assert registering[..|calls|] == calls;
    assert registering[|registering| - 1] == RegisterIdentity;
    if sdk.register.outcome.Success? {
      var registered := sdk.register.outcome.value;
      if !Nullish(registered) && !Nullish(Prop(registered, "agentId")) {
        var run := EvidenceStage(sdk, registering, Prop(registered, "agentId"), Prop(registered, "txHash"));
        assert run.calls[..|registering|] == registering;
        assert run.calls[..|calls|] == registering[..|calls|];
      }
    }
  }

  /** With a truthy `PINATA_JWT` the Pinata provider is built first, with that token and
      the public gateway, and if that throws `main` rejects with it before printing
      anything more. Otherwise the SDK is constructed next, with the key as given and with
      Pinata storage exactly when `PINATA_JWT` is truthy. */
  lemma StorageChoice(env: Env, sdk: SdkReplies)
    requires Present(env.privateKey)
    ensures var run, k := MainOutcome(env, sdk), |StorageCalls(env)|;
      && (Present(env.pinataJwt) ==>
            |run.calls| >= 1 && run.calls[0] == NewPinataStorage(PinataStorage(env.pinataJwt.value, PinataGateway)))
      && (!StorageBuilt(env, sdk) ==>
            run.calls == StorageCalls(env) && run.result == Failure(sdk.pinata.error) && MainLog(env, sdk) == Overview(env))
      && (StorageBuilt(env, sdk) ==>
            && |run.calls| > k && run.calls[k].Construct?
            && run.calls[k].config.privateKey == env.privateKey.value
            && (run.calls[k].config.storageProvider.Some? <==> Present(env.pinataJwt))
            && (Present(env.pinataJwt) ==>
                  run.calls[k].config.storageProvider == Some(PinataStorage(env.pinataJwt.value, PinataGateway))))
  {
    if StorageBuilt(env, sdk) {
      var start := StorageCalls(env) + [Construct(ConfigFor(env))];
      if sdk.init.outcome.Success? {
        RegistrationExtends(sdk, start);
        assert MainOutcome(env, sdk).calls[..|start|] == start;
      }
    }
  }

  /** Reading the SDK's address is advisory: whether `getAddress` exists, returns or
      throws, `main` settles the same way. The probe's line follows the init step, and
      `getAddress` is called iff the SDK has one. */
  lemma AddressProbeIsAdvisory(env: Env, sdk: SdkReplies, probe: AddressProbe)
    ensures MainOutcome(env, sdk.(address := probe)).result == MainOutcome(env, sdk).result
    ensures Present(env.privateKey) && StorageBuilt(env, sdk) && sdk.init.outcome.Success? ==>
      MainLog(env, sdk.(address := probe)) ==
        Overview(env) + ConfigLines(ConfigFor(env)) + StepLog("SDK init", sdk.init)
        + [AddressLine(probe)] + RegistrationLog(sdk)[1..]
  {
    var sdk' := sdk.(address := probe);
    if Present(env.privateKey) && StorageBuilt(env, sdk) && sdk.init.outcome.Success? {
      var start := StorageCalls(env) + [Construct(ConfigFor(env))];
      RegistrationIgnoresAddress(sdk, start, probe);
      assert RegistrationLog(sdk)[1..] == RegisteredLog(sdk.register, sdk.store, sdk.stats);
      assert MainOutcome(env, sdk') == Registration(sdk', start);
      assert MainOutcome(env, sdk) == Registration(sdk, start);
    }
  }

  /** The stage-level form of the above: the settlement does not depend on the probe. */
  lemma RegistrationIgnoresAddress(sdk: SdkReplies, calls: seq<SdkCall>, probe: AddressProbe)
    requires sdk.init.outcome.Success?
    ensures Registration(sdk.(address := probe), calls).result == Registration(sdk, calls).result
  {
    var sdk' := sdk.(address := probe);
    var c, c' := calls + AddressCalls(sdk.address) + [RegisterIdentity], calls + AddressCalls(probe) + [RegisterIdentity];
    if sdk.register.outcome.Success? {
      var registered := sdk.register.outcome.value;
      if !Nullish(registered) && !Nullish(Prop(registered, "agentId")) {
        var agentId, txHash := Prop(registered, "agentId"), Prop(registered, "txHash");
        assert EvidenceStage(sdk', c', agentId, txHash).result == EvidenceStage(sdk, c, agentId, txHash).result;
      }
    }
  }

  /** A step that throws ends `main` with the very value thrown, and it is the last SDK
      call made. */
  lemma FailedStepEndsRun(env: Env, sdk: SdkReplies)
    requires Present(env.privateKey) && StorageBuilt(env, sdk)
    ensures var run, start := MainOutcome(env, sdk), StorageCalls(env) + [Construct(ConfigFor(env))];
      var registering := start + AddressCalls(sdk.address) + [RegisterIdentity];
      && (sdk.init.outcome.Failure? ==>
            run.calls == start && run.result == Failure(sdk.init.outcome.error))
      && (sdk.init.outcome.Success? && sdk.register.outcome.Failure? ==>
            run.calls == registering && run.result == Failure(sdk.register.outcome.error))
      && (sdk.init.outcome.Success? && sdk.register.outcome.Success? && |run.calls| > |registering| ==>
            var agentId := Prop(sdk.register.outcome.value, "agentId");
            && run.calls[..|registering| + 1] == registering + [StoreEvidence(agentId)]
            && (sdk.store.outcome.Failure? ==>
                  |run.calls| == |registering| + 1 && run.result == Failure(sdk.store.outcome.error))
            && (sdk.store.outcome.Success? && sdk.stats.outcome.Failure? ==>
                  run.calls == registering + [StoreEvidence(agentId), GetAgentStats(agentId)]
                  && run.result == Failure(sdk.stats.outcome.error)))
  {
  }

  /** Reading a property of an undefined or null value ends `main` with V8's TypeError:
      destructuring what `registerIdentity` gave, `agentId.toString()`, and reading the
      stats. */
  lemma NullishReadsThrow(env: Env, sdk: SdkReplies)
    requires Present(env.privateKey) && StorageBuilt(env, sdk)
    requires sdk.init.outcome.Success? && sdk.register.outcome.Success?
    ensures var run, registered := MainOutcome(env, sdk), sdk.register.outcome.value;
      var agentId, stats := Prop(registered, "agentId"), sdk.stats.outcome;
      && (Nullish(registered) ==> run.result == Failure(DestructureError("agentId", registered)))
      && (!Nullish(registered) && Nullish(agentId) ==> run.result == Failure(PropertyReadError("toString", agentId)))
      && (!Nullish(registered) && !Nullish(agentId) && sdk.store.outcome.Success? && stats.Success? && Nullish(stats.value) ==>
            run.result == Failure(PropertyReadError("totalFeedback", stats.value)))
  {
  }

  /** When such a TypeError reaches `logError`, its message line shows V8's non-empty text
      rather than undefined. */
  lemma TypeErrorMessagePrinted(key: string, v: JsValue)
    requires Nullish(v)
    ensures var m := Prop(PropertyReadError(key, v), "message");
      Truthy(m) && |DiagnosticLines(PropertyReadError(key, v))| >= 2 &&
      DiagnosticLines(PropertyReadError(key, v))[1] == LogLine(Stderr, "Error message:", [Plain(m)])
    ensures var m := Prop(DestructureError(key, v), "message");
      Truthy(m) && |DiagnosticLines(DestructureError(key, v))| >= 2 &&
      DiagnosticLines(DestructureError(key, v))[1] == LogLine(Stderr, "Error message:", [Plain(m)])
  {
    TypeErrorsCarryMessages(key, v);
    DiagnosticHeader(PropertyReadError(key, v));
    DiagnosticHeader(DestructureError(key, v));
  }

  /** `main` resolves exactly when the key is set, the storage provider (if any) is built,
      every SDK operation succeeds and none of the values it then reads a property of is
      undefined or null; it has then made all of its SDK calls, in order. */
  lemma MainSucceedsIff(env: Env, sdk: SdkReplies)
    ensures MainOutcome(env, sdk).result.Success? <==>
      && Present(env.privateKey)
      && StorageBuilt(env, sdk)
      && sdk.init.outcome.Success?
      && sdk.register.outcome.Success? && !Nullish(sdk.register.outcome.value)
      && !Nullish(Prop(sdk.register.outcome.value, "agentId"))
      && sdk.store.outcome.Success?
      && sdk.stats.outcome.Success? && !Nullish(sdk.stats.outcome.value)
    ensures MainOutcome(env, sdk).result.Success? ==>
      var agentId := Prop(sdk.register.outcome.value, "agentId");
      && MainOutcome(env, sdk).calls ==
           StorageCalls(env) + [Construct(ConfigFor(env))] + AddressCalls(sdk.address)
           + [RegisterIdentity, StoreEvidence(agentId), GetAgentStats(agentId)]
      && MainOutcome(env, sdk).result.value == Completion(agentId, Prop(sdk.register.outcome.value, "txHash"),
                                                   sdk.store.outcome.value, sdk.stats.outcome.value)
  {
  }

  /** `main()`, run statement by statement. */
  method MainBody(env: Env, sdk: SdkReplies) returns (calls: seq<SdkCall>, log: seq<LogLine>, result: Result<Completion, JsValue>)
    ensures MainRun(calls, result) == MainOutcome(env, sdk)
    ensures log == MainLog(env, sdk)
  {
    calls := [];
    log := Overview(env);
    if !Present(env.privateKey) {
      result := Failure(MissingKeyError);
      return;
    }
    var storage := StorageFor(env.pinataJwt);
    if storage.Some? {
      calls := [NewPinataStorage(storage.value)];
      if sdk.pinata.Failure? {
        result := Failure(sdk.pinata.error);
        return;
      }
    }
    var config := ConfigFor(env);
    log := log + ConfigLines(config);

    calls := calls + [Construct(config)];
    var init, initLog := Step("SDK init", sdk.init);
    log := log + initLog;
    if init.Failure? {
      result := Failure(init.error);
      return;
    }
    var rest;
    calls, rest, result := Register(sdk, calls);
    log := log + rest;
  }

  /** The statements of `main()` after `step('SDK init', ...)` returned, `calls` being the
      SDK calls made so far. */
  method Register(sdk: SdkReplies, calls0: seq<SdkCall>) returns (calls: seq<SdkCall>, log: seq<LogLine>, result: Result<Completion, JsValue>)
    requires sdk.init.outcome.Success?
    ensures MainRun(calls, result) == Registration(sdk, calls0)
    ensures log == RegistrationLog(sdk)
  {
    calls := calls0;
    if !sdk.address.NoGetter? {
      calls := calls + [GetAddress];
    }
    assert calls == calls0 + AddressCalls(sdk.address);
    var line := AddressLine(sdk.address);

    calls := calls + [RegisterIdentity];
    var registered, after := Step("registerIdentity", sdk.register);
    if registered.Failure? {
      log, result := [line] + after, Failure(registered.error);
      return;
    }
    if Nullish(registered.value) {
      log, result := [line] + after, Failure(DestructureError("agentId", registered.value));
      return;
    }
    var agentId, txHash := Prop(registered.value, "agentId"), Prop(registered.value, "txHash");
    after := after + [RegisteredLine(agentId, txHash)];
    if Nullish(agentId) {
      log, result := [line] + after, Failure(PropertyReadError("toString", agentId));
      return;
    }
    var rest;
    calls, rest, result := RecordEvidence(sdk, calls, agentId, txHash);
    log := [line] + (after + rest);
  }

  /** The statements of `main()` from the evidence step on. */
  method RecordEvidence(sdk: SdkReplies, calls0: seq<SdkCall>, agentId: JsValue, txHash: JsValue)
    returns (calls: seq<SdkCall>, log: seq<LogLine>, result: Result<Completion, JsValue>)
    requires !Nullish(agentId)
    ensures MainRun(calls, result) == EvidenceStage(sdk, calls0, agentId, txHash)
    ensures log == EvidenceLog(sdk.store, sdk.stats)
  {
    calls := calls0 + [StoreEvidence(agentId)];
    var cid, storeLog := Step("storeEvidence", sdk.store);
    log := storeLog;
    if cid.Failure? {
      result := Failure(cid.error);
      return;
    }

    calls := calls + [GetAgentStats(agentId)];
    var stats, statsLog := Step("getAgentStats", sdk.stats);
    log := log + statsLog;
    if stats.Failure? {
      result := Failure(stats.error);
      return;
    }
    if Nullish(stats.value) {
      result := Failure(PropertyReadError("totalFeedback", stats.value));
      return;
    }
    result := Success(Completion(agentId, txHash, cid.value, stats.value));
  }

  /** The line `main().catch` prints before the diagnostics. */
  const FatalLine: LogLine := LogLine(Stderr, "FATAL: Unhandled error", [])

  /** `main().catch(...)`: a rejection of `main` is reported with a FATAL line and the
      diagnostic lines of that same value, and the process exits with status 1. */
  method RunMain(env: Env, sdk: SdkReplies) returns (calls: seq<SdkCall>, log: seq<LogLine>, exitStatus: nat)
    ensures calls == MainOutcome(env, sdk).calls
    ensures MainOutcome(env, sdk).result.Success? ==> log == MainLog(env, sdk) && exitStatus == 0
    ensures MainOutcome(env, sdk).result.Failure? ==>
      log == MainLog(env, sdk) + [FatalLine] + DiagnosticLines(MainOutcome(env, sdk).result.error) && exitStatus == 1
  {
    var result;
    calls, log, result := MainBody(env, sdk);
    match result {
      case Success(_) =>
        exitStatus := 0;
      case Failure(err) =>
        log := log + [FatalLine];
        var diagnostics := LogError(err);
        log := log + diagnostics;
        exitStatus := 1;
    }
  }
}
