# ethglobal-8004 agent scripts, modelled in Dafny

This project models the two scripts that hold the decision logic of the ethglobal-8004
repository:

- `scripts/register-agent.ts`, the ERC-8004 registration runner. It reads an agent domain
  and an agent address from the command line (after `--`) and rejects a missing domain or a
  malformed address. It then connects to the network and locates the IdentityRegistry: a
  truthy `IDENTITY_REGISTRY` comes first; otherwise the Ignition deployment artifact of the
  connected chain is read. It calls `newAgent(domain, address)` with 0.005 ether attached,
  waits for the receipt, and tries to read the registration back, without failing if that
  read fails.
- `scripts/chaoschain-deploy-warren.cjs`, the ChaosChain onboarding script. It prints an
  environment overview with the private key masked, and refuses to start without a private
  key. It chooses Pinata storage when a Pinata token is set. It then runs four SDK
  operations, each wrapped in `step`, which logs timing and, on failure, a field-by-field
  decomposition of the error (`logError`) before re-throwing the very same value.

Layout:

- `js.dfy` (module `Js`) holds the JavaScript semantics both scripts lean on: `T | undefined`
  as `Option`, thrown-or-returned outcomes as `Result`, JavaScript values and truthiness,
  optional-chained property reads, and the decimal rendering of numbers in template
  literals.
- `register_agent.dfy` (module `RegisterAgent`) holds:
  - the pure pre-flight decision `Decide`, which yields `UsageError | RegistryNotFound |
    Submit(domain, agentAddress, identityAddress, feeWei)`;
  - the method `ResolveIdentityAddress`, which mirrors the reassignment of
    `identityAddress`;
  - the whole run `Run`, which yields the calls made to the outside world and how the
    process ends.
- `deploy_warren.dfy` (module `DeployWarren`) holds:
  - `Mask`;
  - `LogError`, a method that appends lines, specified by the probe table
    `Probes`/`DiagnosticLines`;
  - `Step`, a method over a `Result`;
  - `MainBody`/`RunMain`, the statement-by-statement `main` and its `catch` handler,
    specified by `MainOutcome` (SDK calls and settlement) and `MainLog` (console lines).

Network, SDK, file-system and clock behaviour are inputs:
- `Replies` holds what the network and the registry contract answer.
- `SdkReplies` holds the outcome and measured duration of each SDK operation.
- `FileSystem` maps paths to what parsing their text gives.

A run's outputs are its trace of calls, its console lines and its outcome.

The code does not hex-check `IDENTITY_REGISTRY`: any truthy value is used verbatim
(register-agent.ts:54-57). The model follows the code (`SelectRegistry`, `OverrideWins`).

## Model

| member | source | states |
|---|---|---|
| Js.Prop | scripts/chaoschain-deploy-warren.cjs:21-32 | optional chaining never throws: on an object holding the key it gives that property's value; on a non-object, or an object without the key, it gives undefined |
| Js.PresentMeans | scripts/register-agent.ts:40 | an optional string is truthy iff it is defined and non-empty |
| Js.Decimal | scripts/register-agent.ts:12 | `${n}` of a chain id is a non-empty string of decimal digits without a leading zero |
| Js.DecimalRoundTrip | scripts/register-agent.ts:12 | reading the rendered digits back gives the number again |
| Js.DecimalInjective | scripts/register-agent.ts:12 | distinct chain ids render as distinct directory names |
| Js.IntToString | scripts/chaoschain-deploy-warren.cjs:39-40 | `${dt}` starts with a minus sign iff the elapsed time is negative; the rest is a non-empty run of decimal digits whose value is the time's magnitude |
| Js.Truthy | scripts/register-agent.ts:40 | JavaScript truthiness; for optional strings `PresentMeans` states it is defined and non-empty |
| Js.FromOptional | scripts/chaoschain-deploy-warren.cjs:51-53 | an absent environment variable reads as undefined and a present one as that string; `PresentMeans` states its truthiness |
| Js.TypeErrorsCarryMessages | scripts/chaoschain-deploy-warren.cjs:93-120 | the TypeErrors thrown by reading a property of undefined or null are named TypeError and carry a non-empty message |
| RegisterAgent.AllHexDigits | scripts/register-agent.ts:24 | true iff every character is in `[0-9a-fA-F]` |
| RegisterAgent.IsHexAddress | scripts/register-agent.ts:23-25 | accepts iff the value is defined, has length 42, starts with "0x" and the other 40 characters are hex digits; undefined and "" are rejected |
| RegisterAgent.AddressCaseInsensitive | scripts/register-agent.ts:24 | letter case does not matter: a mixed-case address is accepted iff its lower-case spelling is, so no EIP-55 checksum is checked |
| RegisterAgent.AddressExamples | scripts/register-agent.ts:24 | "0x123" is rejected and "0x" followed by forty 'a' is accepted |
| RegisterAgent.UserArgs | scripts/register-agent.ts:33 | `process.argv.slice(2)` is the suffix of the arguments that drops exactly the runtime and the script, and is empty when there are fewer than two |
| RegisterAgent.IndexOf | scripts/register-agent.ts:34 | returns the first position of the element, or -1 iff the element is absent |
| RegisterAgent.Positional | scripts/register-agent.ts:34-35 | without "--" the positional arguments are all arguments; otherwise they are those after the first "--" |
| RegisterAgent.At | scripts/register-agent.ts:37-38 | reading `pos[i]` past the end gives undefined, never an error; what the two reads decide is stated by `CheckUsage` and `UsageErrorIff` |
| RegisterAgent.CheckUsage | scripts/register-agent.ts:37-45 | arguments are accepted iff there are at least two positional ones, the first non-empty and the second a hex address; then domain and address are those two |
| RegisterAgent.PositionalAppend | scripts/register-agent.ts:34-35 | arguments appended without bringing in the first "--" are appended to the positional ones |
| RegisterAgent.SameFirstTwo | scripts/register-agent.ts:37-40 | the usage check depends only on the first two positional arguments |
| RegisterAgent.ExtraArgumentsIgnored | scripts/register-agent.ts:33-40 | appending arguments that add no first "--" leaves an accepted decision unchanged |
| RegisterAgent.ArtifactPath | scripts/register-agent.ts:8-14 | the artifact path extends the working directory by four segments, the third being "chain-" followed by the chain id's digits |
| RegisterAgent.ArtifactPathInjective | scripts/register-agent.ts:8-14 | two chains never share an artifact file |
| RegisterAgent.LookupIdentity | scripts/register-agent.ts:16-17 | the key lookup in the parsed document; what a written or broken artifact gives back is stated by `ArtifactRoundTrip` and `ArtifactUnusable` |
| RegisterAgent.ResolveIdentityFromIgnition | scripts/register-agent.ts:6-21 | every failure inside the `try` gives undefined rather than an error; its properties are stated by `ArtifactRoundTrip`, `ArtifactUnusable` and `ArtifactOfOtherChainIgnored` |
| RegisterAgent.ArtifactOfOtherChainIgnored | scripts/register-agent.ts:6-21 | the lookup for one chain does not depend on any other chain's artifact |
| RegisterAgent.ResolveIdentityAddress | scripts/register-agent.ts:54-57 | the address is the truthy override, else the artifact's value; the artifact is consulted iff the override is falsy |
| RegisterAgent.RegistrationFeeIsParsed | scripts/register-agent.ts:73 | the fee constant equals `parseEther("0.005")`, i.e. 5·10^15 wei, five thousandths of 10^18 |
| RegisterAgent.UsageErrorIff | scripts/register-agent.ts:40-45 | the decision is a usage error iff the domain is falsy or the address fails `isHexAddress`, whatever the environment and artifact |
| RegisterAgent.OverrideWins | scripts/register-agent.ts:54-57 | a truthy override is submitted verbatim, with no hex check and whatever the artifact holds |
| RegisterAgent.ArtifactFallback | scripts/register-agent.ts:54-64 | with a falsy override the registry is not found iff the artifact gives nothing truthy; otherwise the artifact's value is submitted |
| RegisterAgent.SubmitShape | scripts/register-agent.ts:40-75 | a submitted registration has a non-empty domain, a well-formed address, a non-empty registry and the fixed fee |
| RegisterAgent.ExitStatus | scripts/register-agent.ts:40-64 | the exit status is 0 only for a registered agent; which runs exit with 1 is stated by `UsageRejectedBeforeNetwork` and `NotFoundBeforeContractCall`, and that the read-back leaves it unchanged by `ReadBackIsAdvisory` |
| RegisterAgent.UsageRejectedBeforeNetwork | scripts/register-agent.ts:40-48 | a usage error ends the run with status 1 before any call; every other run starts by connecting |
| RegisterAgent.NotFoundBeforeContractCall | scripts/register-agent.ts:59-64 | after connecting, the run ends "not found" iff the decision says so, with status 1 and no contract call |
| RegisterAgent.SubmitFollowsDecision | scripts/register-agent.ts:71-75 | the decided `newAgent` call, to the decided registry with the decided domain and address and the fixed fee, is made iff `getContractAt` succeeds, and then exactly once, so the fee is paid once; no other `newAgent` call is ever made |
| RegisterAgent.OverrideSkipsArtifact | scripts/register-agent.ts:54-57 | with a truthy override the artifact is never read and the file system does not affect the run |
| RegisterAgent.ConnectedFacts | scripts/register-agent.ts:47-64 | a connected run starts with the connection, ends "not found" iff no truthy registry address was found (then with no contract call), and reads the artifact only when the override is falsy |
| RegisterAgent.ConnectedSubmits | scripts/register-agent.ts:67-75 | with a registry address and a signer, the run binds that registry and sends the `newAgent` call, to it with the domain, the address and the fixed fee, iff `getContractAt` succeeds; no other `newAgent` call is made |
| RegisterAgent.ConnectedSubmitsOnce | scripts/register-agent.ts:71-75 | once `getContractAt` succeeds, the run sends the `newAgent` call exactly once |
| RegisterAgent.SubmittedEffects | scripts/register-agent.ts:75-86 | after `newAgent` the only further calls are, in this order and as far as the run gets, the receipt wait for the returned hash and the read-back of the submitted agent; a failed `newAgent` ends the calls, and the run registers iff both follow |
| RegisterAgent.SubmittedOnce | scripts/register-agent.ts:75-86 | the calls after `newAgent` never repeat it: it occurs once more than before it was sent |
| RegisterAgent.ReadBackIsAdvisory | scripts/register-agent.ts:81-86 | the read-back outcome changes neither the calls, nor the exit status, nor the reported hash and block |
| RegisterAgent.RegisteredMeansMined | scripts/register-agent.ts:71-79 | a run registers iff usage, connection, decision, signer, `getContractAt`, submission and receipt all succeed; it then reports the network's hash and block |
| RegisterAgent.ArtifactRoundTrip | scripts/register-agent.ts:6-21 | after writing a JSON object as the chain's artifact, the lookup gives back its registry entry if it has one, and undefined otherwise |
| RegisterAgent.ArtifactUnusable | scripts/register-agent.ts:6-21 | a missing artifact, text that is not JSON, a document that is not an object, or one without the registry key all give undefined |
| RegisterAgent.SelectRegistry | scripts/register-agent.ts:54-57 | the `||`-like choice of the override over the artifact; stated by `ResolveIdentityAddress`, `OverrideWins` and `ArtifactFallback` |
| RegisterAgent.ParseEther | scripts/register-agent.ts:73 | `parseEther` on a decimal with at most 18 fraction digits; `RegistrationFeeIsParsed` states the fee it gives |
| RegisterAgent.Decide | scripts/register-agent.ts:33-64 | the pre-flight decision; stated by `UsageErrorIff`, `OverrideWins`, `ArtifactFallback` and `SubmitShape` |
| RegisterAgent.Run | scripts/register-agent.ts:33-86 | the whole run; stated by `UsageRejectedBeforeNetwork`, `NotFoundBeforeContractCall`, `SubmitFollowsDecision`, `OverrideSkipsArtifact`, `ReadBackIsAdvisory` and `RegisteredMeansMined` |
| RegisterAgent.Connected | scripts/register-agent.ts:48-86 | the run after connecting; stated by `ConnectedFacts`, `ConnectedSubmits` and `ConnectedReadBack` |
| RegisterAgent.Submitted | scripts/register-agent.ts:75-86 | the run after `newAgent` is sent; stated by `SubmittedEffects` |
| RegisterAgent.ConnectedReadBack | scripts/register-agent.ts:78-86 | after connecting, the read-back outcome changes neither the calls, nor whether the agent is registered, nor the reported hash and block |
| DeployWarren.Mask | scripts/chaoschain-deploy-warren.cjs:12 | the output has length 11 iff the input is a string longer than 10, built from its first 4 characters, "…" and its last 6; "<unset>" iff falsy; "<set>" for every other truthy value |
| DeployWarren.MaskHidesMiddle | scripts/chaoschain-deploy-warren.cjs:12 | two long secrets with the same first 4 and last 6 characters mask identically |
| DeployWarren.MaskNeverRevealsLongSecret | scripts/chaoschain-deploy-warren.cjs:12 | a secret longer than 11 characters is never printed whole |
| DeployWarren.Probes | scripts/chaoschain-deploy-warren.cjs:20-32 | the probe table has eleven entries: the first two (name and message) print unconditionally, the other nine only when truthy |
| DeployWarren.LogIfTruthy | scripts/chaoschain-deploy-warren.cjs:23-32 | one guarded `console.error` appends the field's line iff its value is truthy |
| DeployWarren.LogError | scripts/chaoschain-deploy-warren.cjs:20-33 | the lines appended are exactly those of the probe table that fire, in table order |
| DeployWarren.OriginsOrdered | scripts/chaoschain-deploy-warren.cjs:20-33 | the probes that print are listed in increasing table order, and a probe is listed iff it fires |
| DeployWarren.KeptOrigins | scripts/chaoschain-deploy-warren.cjs:20-33 | the i-th printed line is the line of the i-th probe that fires, one line per firing probe |
| DeployWarren.DiagnosticHeader | scripts/chaoschain-deploy-warren.cjs:21-22 | the first two lines are always the error's name and message, and every line goes to standard error |
| DeployWarren.DiagnosticField | scripts/chaoschain-deploy-warren.cjs:23-32 | each optional field is printed iff its value is truthy |
| DeployWarren.NonObjectThrown | scripts/chaoschain-deploy-warren.cjs:21-32 | for a thrown non-object, probing never throws and only name and message print, both undefined |
| DeployWarren.Step | scripts/chaoschain-deploy-warren.cjs:34-47 | a returned value is passed through unchanged and a thrown value is re-thrown as the very same value; the log is the start banner plus the timing line, or the failure banner plus the diagnostics |
| DeployWarren.StepFailureIsReported | scripts/chaoschain-deploy-warren.cjs:42-45 | a failing step's log always shows the error's name and message right after its banners |
| DeployWarren.Overview | scripts/chaoschain-deploy-warren.cjs:51-53 | three lines: the first shows the key masked, the second "<set>" iff `PINATA_JWT` is truthy and "<unset>" otherwise |
| DeployWarren.StorageFor | scripts/chaoschain-deploy-warren.cjs:59-61 | the storage choice; `StorageCalls` and `StorageChoice` state that the Pinata provider is built first, from the token and the public gateway, iff `PINATA_JWT` is truthy |
| DeployWarren.ConfigFor | scripts/chaoschain-deploy-warren.cjs:64-73 | the SDK is configured with the key as given, which is non-empty, and with the storage choice above |
| DeployWarren.ConfigLines | scripts/chaoschain-deploy-warren.cjs:62-81 | the storage line says "Pinata" iff a provider was chosen, and the configuration summary omits the private key |
| DeployWarren.MissingKeyStopsBeforeSdk | scripts/chaoschain-deploy-warren.cjs:55-57 | no SDK call is made iff the key is falsy; `main` then rejects with the missing-key error after printing only the overview |
| DeployWarren.StorageChoice | scripts/chaoschain-deploy-warren.cjs:59-83 | with a truthy `PINATA_JWT` the first SDK call builds the Pinata provider from the token and the public gateway, and if that throws `main` rejects with it after only the overview; otherwise the next call constructs the SDK with the key and with Pinata storage iff `PINATA_JWT` is truthy |
| DeployWarren.FailedStepEndsRun | scripts/chaoschain-deploy-warren.cjs:83-119 | a step that throws ends `main` with the thrown value, and its operation is the last SDK call; the calls before it are the storage call, the construction, the address probe when the SDK has a getter, and the earlier steps |
| DeployWarren.MainSucceedsIff | scripts/chaoschain-deploy-warren.cjs:49-121 | `main` resolves iff the key is set, the Pinata provider (if any) is built, all four operations succeed, and the values it reads properties of are not undefined or null; every SDK call was then made, in order, and the completion holds the values returned |
| DeployWarren.MainBody | scripts/chaoschain-deploy-warren.cjs:49-121 | the statement-by-statement `main` makes exactly the calls of `MainOutcome`, settles as `MainOutcome` says, and prints `MainLog` |
| DeployWarren.RunMain | scripts/chaoschain-deploy-warren.cjs:123-127 | exit status 0 iff `main` resolves; a rejection adds the FATAL line and the diagnostics of that same value, then exits with status 1 |
| DeployWarren.DiagnosticLines | scripts/chaoschain-deploy-warren.cjs:20-33 | the lines `logError` prints; stated by `LogError`, `DiagnosticHeader`, `DiagnosticField` and `NonObjectThrown` |
| DeployWarren.StepLog | scripts/chaoschain-deploy-warren.cjs:34-47 | the lines `step` prints; stated by `Step` and `StepFailureIsReported` |
| DeployWarren.StorageCalls | scripts/chaoschain-deploy-warren.cjs:59-61 | `new PinataStorage` is called once iff `PINATA_JWT` is truthy, with that token and the public gateway, and not at all otherwise |
| DeployWarren.AddressLine | scripts/chaoschain-deploy-warren.cjs:85-91 | the address probe's line; `AddressProbeIsAdvisory` states that the probe never changes how `main` settles |
| DeployWarren.AddressProbeIsAdvisory | scripts/chaoschain-deploy-warren.cjs:85-91 | whether `getAddress` is missing, returns or throws, `main` settles the same way, and only the address line of the log differs |
| DeployWarren.RegistrationIgnoresAddress | scripts/chaoschain-deploy-warren.cjs:85-120 | once the SDK is constructed, how `main` settles does not depend on the address probe |
| DeployWarren.RegistrationExtends | scripts/chaoschain-deploy-warren.cjs:85-120 | every stage after construction only appends SDK calls to those already made, and `registerIdentity` is among them |
| DeployWarren.NullishReadsThrow | scripts/chaoschain-deploy-warren.cjs:93-120 | destructuring an undefined or null registration, `agentId.toString()` on an undefined or null id, and reading the stats of undefined or null each end `main` with V8's TypeError for that read |
| DeployWarren.TypeErrorMessagePrinted | scripts/chaoschain-deploy-warren.cjs:93-127 | when such a TypeError reaches `logError`, the message line shows its non-empty text |
| DeployWarren.MainOutcome | scripts/chaoschain-deploy-warren.cjs:49-121 | the SDK calls `main` makes and how it settles; stated by `MissingKeyStopsBeforeSdk`, `StorageChoice`, `FailedStepEndsRun`, `NullishReadsThrow`, `AddressProbeIsAdvisory` and `MainSucceedsIff`, and computed by `MainBody` |
| DeployWarren.MainLog | scripts/chaoschain-deploy-warren.cjs:49-121 | the lines `main` prints; stated by `MissingKeyStopsBeforeSdk`, `StorageChoice` and `AddressProbeIsAdvisory`, and printed by `MainBody` |
| DeployWarren.Register | scripts/chaoschain-deploy-warren.cjs:85-120 | the statements after construction make exactly the calls of `Registration`, settle as it says, and print its log |
| DeployWarren.RecordEvidence | scripts/chaoschain-deploy-warren.cjs:97-120 | the evidence and stats statements make exactly the calls of `EvidenceStage`, settle as it says, and print its log |

## Left out

- scripts/deploy-8004.ts and ignition/modules/ERC8004.ts are not part of this model. They only sequence contract deployments and hold no decision logic.
- The network connection, signer lookup, receipt wait, registry contracts, ChaosChain SDK and Pinata are not modelled. Their answers are inputs (`Replies`, `SdkReplies`), and `newAgent` and `resolveByAddress` are abstract.
- Console output of `register-agent.ts` is not modelled; only its calls and outcome are.
- In `chaoschain-deploy-warren.cjs`, three lines are not modelled: the evidence preview (line 102), the stored-CID line (line 105) and the stats line (line 120). Each renders values the model does not represent: a clock reading, a float, and template interpolation of arbitrary values. Whether reading the stats throws is modelled.
- `toJSON` and `JSON.stringify` are not modelled. A line that passes a value through `toJSON` records the value, marked `AsJson`.
- `Date.now` is an input: each step's measured duration.
- The evidence payload and its timestamp are not modelled. `StoreEvidence` records only the agent id the payload was built from.
- The commented-out x402 payment and feedback code is dead and not modelled.
- JavaScript numbers are modelled as integers. NaN, fractions and bigint are not represented.
- `Js.Decimal`, `Js.IntToString` and `RegisterAgent.ArtifactPathInjective` hold only for safe integers (at most 2^53 - 1). This range holds every chain id and elapsed time the scripts see. From 10^21 up, JavaScript renders a number in exponent notation ("1e+21"), and above 2^53 distinct integers may share one double, so the digits and the injectivity stated there no longer describe the scripts.
- `Mask` counts string length in characters, not UTF-16 code units, so astral-plane characters are counted differently.
- `RegisterAgent.LookupIdentity` assumes artifact values are strings. A non-string JSON value under the key, such as a number, is not represented.
- `RegisterAgent.Run` treats the chain id as a natural number and the receipt as its block number only; the receipt's status field is not inspected, as in the code.
- `path.join` normalisation of the working directory is not modelled; paths are segment lists.
- The four awaits that open the connection in `register-agent.ts` (`network.connect`, `getPublicClient`, `getWalletClients`, `getChainId`, lines 48-52) are one reply, `connect`; a failure of any of them is one crash right after the `Connect` call.
- The TypeErrors thrown by reading a property of undefined or null carry V8's wording (Node.js); other engines word them differently, and their stack traces are not modelled.
- Objects are modelled by the properties readable on them. A getter that throws is not represented, so optional chaining is total.
