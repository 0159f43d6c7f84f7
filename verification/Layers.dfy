/** The repository's own layers: every rule, and what it lets the core reach. */
module Layers {
  import opened Values
  import opened ImportGraph

  datatype Name =
    | V2ContainerParentIo | Core | V2ContainerParentIoInventory | V2HostAcceptanceContract | V2Private
    | V2ContainerOwnerSchema | WorkerEndpointOriginV2AcceptanceComposition | Domain | V2Contract
    | V2ContainerBindingAuthority | V2Form | V2ForwardContainerBindingAuthority | V2OperationGenerationIndex
    | V2ForwardNativeSource | V2Extension | V2Config | V2State | V2CodeValidation | V2Runtime
    | V2ServiceBindingAuthority | V2QueueManager | V2ActorSqlGraph | V2ActorPhysicalBackend
    | V2ActorBindingAuthority | V2WorkflowBindingAuthority | V2WorkflowManager | V2WorkflowSelectedMaterials
    | V2SqliteMigrationNative | V2QueueBridge | App | V2WorkflowNativeSelection | Adapter
    | V2WorkflowForwardRuntime | V2SelfhostWorkflowComposition | PackageSurface | V2WorkflowBindingProjection
    | V2ServiceBindingBroker | V2WorkflowBindingBoot | V2ActorGraphAuthority | V2ActorAdmission | NativeContract
    | V2ActorForwardRuntime | V2SelfhostActorBoot | V2SelfhostComposition | V2SelfhostWorkflowBoot
    | V2SelfhostRuntimeBoot | V2Engine | V2Http | V2Host | V2WorkerWake | V2Accounts | V2Application
    | V2Documentation | V2SelfhostEndpointHttps | V2SelfhostEndpointBoot | V2SelfhostEndpointFrontend
    | SelfhostPublicHttpsArtifactTransport | V2SelfhostPublicArtifactSourceComposition
    | V2SelfhostQueueWorkerCapability | V2SelfhostScheduledComposition | V2SelfhostConfiguredInputSealer
    | V2SelfhostQueueCancel | V2SelfhostQueueComposition | V2SelfhostQueueScheduler | ReleaseData | Routes | Entry
    | SharedAppLedgerD1Composition

  /** The rules in the order they are tried, eight to a row. */
  const RULES: seq<seq<Rule<Name>>> := [
    [Rule(V2ContainerParentIo, {Core}),
     Rule(V2ContainerParentIoInventory, {Core, V2ContainerParentIo}),
     Rule(V2HostAcceptanceContract, {Core, V2Private}),
     Rule(V2ContainerOwnerSchema, {Core}),
     Rule(WorkerEndpointOriginV2AcceptanceComposition, {Core, Domain, V2Contract}),
     Rule(V2ContainerBindingAuthority, {Core, V2Form}),
     Rule(V2ForwardContainerBindingAuthority, {Core, V2Form, V2OperationGenerationIndex}),
     Rule(V2OperationGenerationIndex, {Core})],
    [Rule(V2ForwardNativeSource, {}),
     Rule(V2Extension, {Core, V2ContainerParentIo, V2ContainerParentIoInventory, V2Contract, V2Config, V2Private,
       V2State, V2Form, V2CodeValidation, V2Runtime, V2ServiceBindingAuthority,
       V2ForwardContainerBindingAuthority, V2QueueManager, V2ActorSqlGraph, V2ActorPhysicalBackend,
       V2ActorBindingAuthority, V2WorkflowBindingAuthority, V2WorkflowManager, V2WorkflowSelectedMaterials}),
     Rule(V2Private, {Core}),
     Rule(V2Contract, {Core, V2Contract, V2Private}),
     Rule(V2State, {Core, V2Contract, V2Private, V2State, V2OperationGenerationIndex}),
     Rule(V2SqliteMigrationNative, {Core, V2Form}),
     Rule(V2Form, {Core, V2Contract, V2Form}),
     Rule(V2CodeValidation, {Core, V2Form, V2CodeValidation})],
    [Rule(V2QueueBridge, {Domain}),
     Rule(V2QueueManager, {Core, Domain, V2Contract, V2Form, V2Runtime, V2QueueManager}),
     Rule(V2WorkflowManager, {Core, Domain, V2Contract, V2Form, V2WorkflowManager}),
     Rule(V2WorkflowSelectedMaterials, {Core, Domain, App, V2Form, V2Runtime, V2WorkflowManager}),
     Rule(V2WorkflowNativeSelection, {Core, Domain, Adapter, App, V2Form, V2Runtime, V2WorkflowSelectedMaterials}),
     Rule(V2WorkflowForwardRuntime, {Core, Domain, App, V2WorkflowNativeSelection}),
     Rule(V2SelfhostWorkflowComposition, {Core, Domain, App, PackageSurface, V2Form, V2Runtime, V2WorkflowManager,
       V2WorkflowNativeSelection, V2WorkflowForwardRuntime}),
     Rule(V2Runtime, {Core, V2Contract, V2State, V2Form, V2CodeValidation, V2Runtime, V2WorkflowBindingAuthority,
       V2WorkflowBindingProjection, V2ServiceBindingBroker, Adapter})],
    [Rule(V2ServiceBindingAuthority, {Core, V2Form}),
     Rule(V2ServiceBindingBroker, {Core, V2ServiceBindingAuthority}),
     Rule(V2WorkflowBindingAuthority, {Core, V2Form, V2WorkflowManager}),
     Rule(V2WorkflowBindingProjection, {Core, V2Form}),
     Rule(V2WorkflowBindingBoot, {Core, Domain, Adapter, App, V2Form, V2WorkflowBindingAuthority,
       V2WorkflowBindingProjection}),
     Rule(V2ActorSqlGraph, {Core, V2Form}),
     Rule(V2ActorGraphAuthority, {Core, Adapter, App, V2Form, V2Runtime, V2ActorSqlGraph}),
     Rule(V2ActorAdmission, {Core, V2Contract, V2Form})],
    [Rule(V2ActorPhysicalBackend, {Core, App, NativeContract, V2Contract, V2Form, V2ActorAdmission, V2ActorSqlGraph}),
     Rule(V2ActorBindingAuthority, {Core, App, V2Form, V2ActorPhysicalBackend, NativeContract}),
     Rule(V2ActorForwardRuntime, {Core, Adapter, App, V2Form, V2ActorBindingAuthority}),
     Rule(V2SelfhostActorBoot, {Core, App, V2ActorBindingAuthority, V2ActorForwardRuntime, V2ActorPhysicalBackend,
       V2ActorGraphAuthority, V2SelfhostComposition}),
     Rule(V2SelfhostWorkflowBoot, {Core, App, Domain, V2SelfhostComposition, V2SelfhostWorkflowComposition,
       V2WorkflowBindingAuthority, V2WorkflowBindingBoot}),
     Rule(V2SelfhostRuntimeBoot, {Core, App, V2SelfhostActorBoot, V2SelfhostWorkflowBoot, V2ActorGraphAuthority,
       V2SelfhostComposition, V2Runtime}),
     Rule(V2Engine, {Core, V2Contract, V2Private, V2State}),
     Rule(V2Http, {Core, V2Contract, V2Private, V2Engine})],
    [Rule(V2Host, {V2Contract, V2Engine, V2Http}),
     Rule(V2WorkerWake, {V2Contract}),
     Rule(V2Accounts, {Core, Domain, V2Http}),
     Rule(V2Config, {Core, V2Contract, V2Form}),
     Rule(V2Application, {Core, Domain, V2Contract, V2Private, V2Config, V2Accounts, V2Form, V2Host}),
     Rule(V2Documentation, {}),
     Rule(V2SelfhostEndpointHttps, {Core, Adapter, V2Runtime}),
     Rule(V2SelfhostEndpointBoot, {Core, V2Contract, V2Runtime, V2SelfhostEndpointFrontend, V2SelfhostEndpointHttps})],
    [Rule(App, {V2Contract}),
     Rule(SelfhostPublicHttpsArtifactTransport, {}),
     Rule(V2SelfhostPublicArtifactSourceComposition, {Core, V2Form, SelfhostPublicHttpsArtifactTransport}),
     Rule(V2SelfhostComposition, {Core, Adapter, V2Application, V2Config, V2Form, V2SqliteMigrationNative,
       V2Runtime, V2Private, V2CodeValidation, V2SelfhostQueueWorkerCapability, V2SelfhostScheduledComposition,
       V2QueueManager, V2SelfhostWorkflowComposition, V2ServiceBindingAuthority}),
     Rule(V2SelfhostEndpointFrontend, {Core, Adapter, V2Application, V2Config, V2Form, V2Runtime, V2Private,
       V2CodeValidation, V2SelfhostQueueWorkerCapability, V2QueueManager}),
     Rule(V2SelfhostQueueWorkerCapability, {Core, V2Form, V2QueueManager, V2Runtime}),
     Rule(V2SelfhostScheduledComposition, {Core, V2Runtime}),
     Rule(V2SelfhostConfiguredInputSealer, {App, V2CodeValidation})],
    [Rule(V2SelfhostQueueCancel, {Core, V2QueueManager}),
     Rule(V2SelfhostQueueComposition, {Core, Domain, Adapter, V2QueueManager, V2Runtime, V2SelfhostQueueCancel}),
     Rule(V2SelfhostQueueScheduler, {Core, Domain, V2Form, V2QueueManager, V2SelfhostQueueComposition}),
     Rule(ReleaseData, {ReleaseData}),
     Rule(NativeContract, {Core, Adapter, NativeContract}),
     Rule(Core, {Core, ReleaseData}),
     Rule(Adapter, {Core, Adapter, NativeContract}),
     Rule(Adapter, {Core, Domain})],
    [Rule(Domain, {Core, Domain, ReleaseData}),
     Rule(Domain, {}),
     Rule(Routes, {Core, Adapter, Domain, Routes, V2Documentation}),
     Rule(App, {Core, Adapter, NativeContract, Domain, Routes, App, ReleaseData, V2Application, V2Config,
       V2Contract, V2Private}),
     Rule(App, {Core, Domain, App}),
     Rule(Entry, {Core, Adapter, Domain, Routes, App, Entry, V2Config, V2SelfhostComposition,
       V2SelfhostQueueComposition, V2SelfhostQueueScheduler, V2SelfhostConfiguredInputSealer,
       V2SelfhostRuntimeBoot, V2SelfhostEndpointBoot, V2SelfhostPublicArtifactSourceComposition, V2WorkerWake}),
     Rule(Core, {Core}),
     Rule(App, {Core, Domain, App})],
    [Rule(Core, {Core}),
     Rule(App, {Core, Domain, App}),
     Rule(PackageSurface, {Core, Adapter, Domain, Routes, App, PackageSurface}),
     Rule(Domain, {Core, Domain}),
     Rule(Domain, {Core, Domain, ReleaseData}),
     Rule(Domain, {Core, Domain}),
     Rule(Domain, {Core, Domain}),
     Rule(App, {Core, Domain, Adapter, App})],
    [Rule(Domain, {Core, Domain}),
     Rule(Domain, {Core, Domain}),
     Rule(App, {Core, Domain, App}),
     Rule(Domain, {Core, Domain}),
     Rule(App, {Core, Domain, App}),
     Rule(App, {Core, Domain, App}),
     Rule(App, {Core, Domain, App}),
     Rule(App, {Core, Domain, App})],
    [Rule(Domain, {Core, Domain}),
     Rule(Domain, {Core, Domain}),
     Rule(App, {Core, Domain, App}),
     Rule(Domain, {Core, Domain}),
     Rule(Domain, {Core, Domain, ReleaseData}),
     Rule(SharedAppLedgerD1Composition, {Core, Adapter, Domain}),
     Rule(Domain, {Core, Domain}),
     Rule(Domain, {Core, Domain})]
  ]

  const COUNT := 96

  lemma RuleCount()
    ensures |RULES| == 12 && forall k | 0 <= k < 12 :: |RULES[k]| == 8
  {
  }

  function RuleAt(i: nat): Rule<Name>
    requires i < COUNT
  {
    RuleCount();
    RULES[i / 8][i % 8]
  }

  // ----- The patterns of the core and the release data -----

  /** The first pattern of the core, an alternation of exact paths. */
  predicate IsCore(p: Path) {
    IsCorePrimitive(p) || IsCorePort(p)
  }

  predicate IsCorePrimitive(p: Path) {
    p in {
      "src/ports.ts", "src/json.ts", "src/strict-json.ts", "src/container-contract.ts", "src/container-http.ts",
      "src/artifact-path.ts", "src/object-bucket-binding-profile.ts", "src/cron.ts", "src/selfhost-socket-layout.ts",
      "src/error-envelope.ts", "src/route-table.ts", "src/request-authorization.ts", "src/request-body.ts",
      "src/request-lifetime.ts", "src/public-host-identity.ts", "src/form-ref.ts", "src/interface-ref.ts",
      "src/actor-abi-ref.ts", "src/standard-service-port.ts"}
  }

  predicate IsCorePort(p: Path) {
    p in {
      "src/worker-class-runtime-port.ts", "src/worker-module-inspection-contract.ts",
      "src/worker-invocation-port.ts", "src/queue-v2-batch-custody-contract.ts", "src/queue-v2-sqlite-contract.ts",
      "src/queue-v2-sqlite-physical-fence.ts", "src/workflow-v2-resource-authority.ts", "src/provider-port.ts",
      "src/provider-meter-port.ts", "src/provider-runtime-input-port.ts", "src/provider-worker-endpoint-origin.ts",
      "src/ai-port.ts", "src/database.ts", "src/database-schema.ts", "src/db-schema.ts", "src/migrate-sqlite.ts",
      "src/sqlite-migration-policy.ts", "src/stripe-mode-realm.ts", "src/vector-index-codec.ts",
      "src/takoform/limits.ts"}
  }

  predicate IsNativeSourceContract(p: Path) {
    p == "src/auth103-native-source-contract.ts"
  }

  predicate IsSourceClock(p: Path) {
    p == "src/auth103-source-clock.ts"
  }

  predicate IsReleaseFile(p: Path) {
    p in {
      "src/generated/takoform-stable-v1-catalog.ts", "src/generated/takoform-stable-error-taxonomy.ts",
      "src/generated/takoform-integration-form-packages.ts", "src/generated/takoform-publisher-set-receipt.ts",
      "src/generated/takoform-publisher-set-authority-closure.ts"}
  }

  predicate LineBreak(c: char) {
    c in {'\n', '\r', '\U{2028}', '\U{2029}'}
  }

  predicate IsVendored(p: Path) {
    |p| >= 21 && p[..16] == "vendor/takoform/" && p[|p| - 5..] == ".json" &&
    forall i | 16 <= i < |p| - 5 :: !LineBreak(p[i])
  }

  /** The places of these patterns among the rules. */
  const RELEASE_DATA := 59
  const CORE_FILES := 61
  const NATIVE_SOURCE_CONTRACT := 70
  const SOURCE_CLOCK := 72

  /** Paths classified by name before any pattern is tried. */
  predicate Pinned(p: Path) {
    p in {
      "config/shared-hosted-pricing.json",
      "config/shared-hosted-pricing-revisions/hosted-20261014-final-v1.json",
      "config/shared-hosted-pricing-revisions/hosted-20261015-container-proposed-v1.json",
      "src/generated/takoform-forward-candidate-catalog.ts"}
  }

  /** Which pattern matches which path. */
  type Patterns = (nat, Path) -> bool

  /** The four patterns are as above; nothing is asked of the others. */
  ghost predicate Patterned(matches: Patterns) {
    forall p ::
      && matches(RELEASE_DATA, p) == (IsReleaseFile(p) || IsVendored(p))
      && matches(CORE_FILES, p) == IsCore(p)
      && matches(NATIVE_SOURCE_CONTRACT, p) == IsNativeSourceContract(p)
      && matches(SOURCE_CLOCK, p) == IsSourceClock(p)
  }

  // ----- The classification -----

  /** The first rule from `i` on whose pattern matches. */
  function FirstMatch(matches: Patterns, p: Path, i: nat): (r: Option<nat>)
    ensures r.Some? ==> i <= r.value < COUNT && matches(r.value, p)
    ensures forall k | i <= k < COUNT && (r.Some? ==> k < r.value) :: !matches(k, p)
    decreases COUNT - i
  {
    if i >= COUNT then None
    else if matches(i, p) then Some(i)
    else FirstMatch(matches, p, i + 1)
  }

  function FirstNamed(name: Name, i: nat): (r: Option<nat>)
    ensures r.Some? ==> i <= r.value < COUNT && RuleAt(r.value).name == name
    decreases COUNT - i
  {
    if i >= COUNT then None
    else if RuleAt(i).name == name then Some(i)
    else FirstNamed(name, i + 1)
  }

  function IndexOf(matches: Patterns, p: Path): (r: Option<nat>)
    ensures r.Some? ==> r.value < COUNT && (RuleAt(r.value).name == Domain || matches(r.value, p))
  {
    if Pinned(p) then FirstNamed(Domain, 0) else FirstMatch(matches, p, 0)
  }

  /** `layerOf` */
  function LayerOf(matches: Patterns, p: Path): Option<Rule<Name>> {
    var found := IndexOf(matches, p);
    if found.None? then None else Some(RuleAt(found.value))
  }

  const CORE := {Core, ReleaseData}

  /** The four rules named core or release data. */
  lemma CoreRules(i: nat)
    requires i < COUNT && RuleAt(i).name in CORE
    ensures i in {RELEASE_DATA, CORE_FILES, NATIVE_SOURCE_CONTRACT, SOURCE_CLOCK}
  {
    RuleCount();
    CoreRows(i / 8, i % 8);
  }

  lemma CoreRows(k: nat, j: nat)
    requires k < |RULES| == 12 && j < |RULES[k]| == 8 && RULES[k][j].name in CORE
    ensures 8 * k + j in {RELEASE_DATA, CORE_FILES, NATIVE_SOURCE_CONTRACT, SOURCE_CLOCK}
  {
  }

  lemma CoreAllowsCore()
    ensures forall i | i in {RELEASE_DATA, CORE_FILES, NATIVE_SOURCE_CONTRACT, SOURCE_CLOCK} :: RuleAt(i).may <= CORE
  {
    RuleCount();
    assert RULES[7][3].may <= CORE && RULES[7][5].may <= CORE && RULES[8][6].may <= CORE && RULES[9][0].may <= CORE;
  }

  // ----- The reviewed edges -----

  /** The imports allowed one by one, each only with the exact text of its declaration. */
  predicate ReviewedEdge(p: Path, t: Path) {
    || (t == "src/takoform-v2/configured-update-inputs-schema.ts" &&
        p == "src/takoform-v2/configured-private-inputs.ts")
    || (t == "src/takoform-v2/forms/worker-specs.ts" && p in {
          "src/takoform-v2/worker-invocation-custody.ts", "src/worker-endpoint-origin-v2-acceptance.ts"})
    || (t == "src/takoform-v2/forward-worker-native-source.ts" &&
        p == "src/takoform-v2/forward-worker-native-schema.ts")
    || (t == "src/takoform-v2/worker-publication-state.ts" &&
        p == "src/takoform-v2/forward-container-binding-authority.ts")
    || (t == "src/takoform-v2/host-acceptance.ts" && p in {
          "src/providers/selfhost-container-entry-contract.ts", "src/providers/docker-container-core-owner.ts",
          "src/takoform-v2/engine.ts", "src/takoform-v2/store.ts", "src/takoform-v2/host.ts",
          "src/takoform-v2/application.ts", "src/worker-endpoint-origin-v2-acceptance.ts", "src/app.ts",
          "src/entry-worker.ts", "src/takoform-v2/container-owner-schema.ts"})
    || (t == "src/takoform-v2/types.ts" && p in {
          "src/providers/selfhost-container-entry-contract.ts",
          "src/providers/docker-container-configured-inputs.ts", "src/providers/docker-container-core-owner.ts",
          "src/selfhost-v2-worker-endpoint-frontend.ts"})
    || (t == "src/takoform-v2/private-inputs.ts" && p in {
          "src/providers/container-secret-codec.ts", "src/providers/docker-container-configured-inputs.ts"})
    || (t == "src/takoform-v2/configured-private-inputs.ts" && p in {
          "src/providers/docker-container-configured-inputs.ts", "src/providers/docker-container-core-owner.ts"})
    || (t == "src/takoform-v2/forms/container.ts" && p == "src/providers/docker-container-configured-inputs.ts")
    || (t == "src/takoform-v2/container-owner-schema.ts" && p in {
          "src/providers/docker-container-core-owner.ts", "src/takoform-v2/index.ts"})
    || (t == "src/money-cutover-sql.ts" && p in {
          "src/shared-financial-customer-tracked-execution.ts", "src/shared-financial-source.ts",
          "src/shared-financial-source-enrollment.ts", "src/shared-financial-source-genesis-admission.ts",
          "src/shared-financial-admission.ts", "src/shared-financial-customer-history.ts",
          "src/financial-current-consent-customer.ts"})
    || (t == "src/financial-request-origin.ts" && p in {
          "src/shared-auth-financial-consent-store.ts", "src/shared-auth-financial-consent.ts",
          "src/shared-auth-financial-source.ts"})
    || (t == "src/worker-endpoint-origin-v2-acceptance.ts" && p in {
          "src/app.ts", "src/provider-extension.ts"})
    || (t == "src/container-egress-policy.ts" && p == "src/providers/linux-container-egress.ts")
    || (t == "src/takoform-v2/worker-queue-delivery.ts" && p == "src/provider-extension.ts")
    || (t == "src/takoform-v2/worker-queue-scheduler.ts" && p == "src/provider-extension.ts")
    || (t == "src/shared-app-ledger-d1.ts" && p in {
          "src/index.ts", "src/provider-extension.ts"})
  }

  predicate FinancialSource(p: Path) {
    p in {
      "src/financial-current-consent-customer.ts", "src/shared-auth-financial-consent-store.ts",
      "src/shared-auth-financial-consent.ts", "src/shared-auth-financial-source.ts",
      "src/shared-financial-admission.ts", "src/shared-financial-customer-history.ts",
      "src/shared-financial-customer-tracked-execution.ts", "src/shared-financial-source-enrollment.ts",
      "src/shared-financial-source-genesis-admission.ts", "src/shared-financial-source.ts"}
  }

  predicate EntrySource(p: Path) {
    p in {
      "src/app.ts", "src/entry-worker.ts", "src/index.ts", "src/provider-extension.ts",
      "src/selfhost-v2-worker-endpoint-frontend.ts", "src/worker-endpoint-origin-v2-acceptance.ts"}
  }

  predicate HostSource(p: Path) {
    p in {
      "src/takoform-v2/application.ts", "src/takoform-v2/configured-private-inputs.ts",
      "src/takoform-v2/container-owner-schema.ts", "src/takoform-v2/engine.ts",
      "src/takoform-v2/forward-container-binding-authority.ts", "src/takoform-v2/forward-worker-native-schema.ts",
      "src/takoform-v2/host.ts", "src/takoform-v2/index.ts", "src/takoform-v2/store.ts",
      "src/takoform-v2/worker-invocation-custody.ts"}
  }

  predicate ProviderSource(p: Path) {
    p in {
      "src/providers/container-secret-codec.ts", "src/providers/docker-container-configured-inputs.ts",
      "src/providers/docker-container-core-owner.ts", "src/providers/linux-container-egress.ts",
      "src/providers/selfhost-container-entry-contract.ts"}
  }

  lemma EdgeSources(p: Path, t: Path)
    requires ReviewedEdge(p, t)
    ensures FinancialSource(p) || EntrySource(p) || HostSource(p) || ProviderSource(p)
  {
  }

  /** The length and the last letter before the extension, enough to tell the files
      of the core from the sources of the reviewed edges, but for one. */
  predicate CoreEnding(p: Path) {
    |p| > 4 &&
    match p[|p| - 4] {
      case 'a' => |p| in {16, 22}
      case 'c' => |p| in {25}
      case 'e' => |p| in {15, 18, 21, 23, 36, 37, 57}
      case 'f' => |p| in {15, 20}
      case 'g' => |p| in {43}
      case 'h' => |p| in {20}
      case 'k' => |p| in {27}
      case 'm' => |p| in {24}
      case 'n' => |p| in {11, 18, 28, 38}
      case 'p' => |p| in {21}
      case 's' => |p| in {12, 22, 51}
      case 't' => |p| in {14, 20, 25, 26, 28, 29, 31, 32, 34, 37, 38, 40, 47}
      case 'y' => |p| in {19, 27, 30, 37, 47}
      case _ => false
    }
  }

  const CONFIGURED_INPUTS := "src/providers/docker-container-configured-inputs.ts"

  lemma PrimitiveEnds(p: Path)
    requires IsCorePrimitive(p)
    ensures CoreEnding(p)
  {
  }

  lemma PortEnds(p: Path)
    requires IsCorePort(p)
    ensures CoreEnding(p)
  {
  }

  lemma ReleaseFileEnds(p: Path)
    requires IsReleaseFile(p)
    ensures CoreEnding(p)
  {
  }

  lemma OtherEnds(p: Path)
    requires IsNativeSourceContract(p) || IsSourceClock(p)
    ensures CoreEnding(p)
  {
  }

  lemma FinancialDiffers(p: Path)
    requires FinancialSource(p)
    ensures |p| > 4 && !CoreEnding(p) && p[|p| - 1] == 's'
  {
  }

  lemma EntryDiffers(p: Path)
    requires EntrySource(p)
    ensures |p| > 4 && !CoreEnding(p) && p[|p| - 1] == 's'
  {
  }

  lemma HostDiffers(p: Path)
    requires HostSource(p)
    ensures |p| > 4 && !CoreEnding(p) && p[|p| - 1] == 's'
  {
  }

  lemma ProviderDiffers(p: Path)
    requires ProviderSource(p)
    ensures |p| > 4 && (CoreEnding(p) ==> p == CONFIGURED_INPUTS) && p[|p| - 1] == 's'
  {
  }

  lemma VendoredIsData(p: Path)
    requires IsVendored(p)
    ensures p[|p| - 1] == 'n'
  {
    assert p[|p| - 5..][4] == p[|p| - 1];
  }

  lemma ConfiguredInputsDiffers()
    ensures !IsCore(CONFIGURED_INPUTS)
  {
  }

  lemma ConfiguredInputsDiffersToo()
    ensures !IsReleaseFile(CONFIGURED_INPUTS)
    ensures !IsNativeSourceContract(CONFIGURED_INPUTS) && !IsSourceClock(CONFIGURED_INPUTS)
  {
  }

  lemma SourceDiffers(p: Path, t: Path)
    requires ReviewedEdge(p, t)
    ensures |p| > 4 && p[|p| - 1] == 's' && (CoreEnding(p) ==> p == CONFIGURED_INPUTS)
  {
    hide ReviewedEdge, FinancialSource, EntrySource, HostSource, ProviderSource, CoreEnding, CONFIGURED_INPUTS;
    EdgeSources(p, t);
    if FinancialSource(p) {
      FinancialDiffers(p);
    } else if EntrySource(p) {
      EntryDiffers(p);
    } else if HostSource(p) {
      HostDiffers(p);
    } else {
      ProviderDiffers(p);
    }
  }

  /** No reviewed edge starts in a file of the core or the release data. */
  lemma EdgesStartOutside(p: Path, t: Path)
    requires ReviewedEdge(p, t)
    ensures !IsCore(p) && !IsNativeSourceContract(p) && !IsSourceClock(p) && !IsReleaseFile(p) && !IsVendored(p)
  {
    hide ReviewedEdge, CoreEnding, IsCorePrimitive, IsCorePort, IsNativeSourceContract, IsSourceClock, IsReleaseFile,
      IsVendored, CONFIGURED_INPUTS;
    SourceDiffers(p, t);
    ConfiguredInputsDiffers();
    ConfiguredInputsDiffersToo();
    if IsVendored(p) {
      VendoredIsData(p);
    } else if IsCorePrimitive(p) {
      PrimitiveEnds(p);
    } else if IsCorePort(p) {
      PortEnds(p);
    } else if IsReleaseFile(p) {
      ReleaseFileEnds(p);
    } else if IsNativeSourceContract(p) || IsSourceClock(p) {
      OtherEnds(p);
    }
  }

  // ----- The core is closed -----

  /** A module classified as core or release data may import only these, and no
      reviewed edge starts at it. */
  lemma CoreIsClosed(matches: Patterns, p: Path, t: Path)
    requires Patterned(matches) && LayerOf(matches, p).Some? && LayerOf(matches, p).value.name in CORE
    ensures LayerOf(matches, p).value.may <= CORE && !ReviewedEdge(p, t)
  {
    hide RuleAt, IndexOf, ReviewedEdge, IsCore, IsNativeSourceContract, IsSourceClock, IsReleaseFile, IsVendored;
    var i := IndexOf(matches, p).value;
    CoreRules(i);
    CoreAllowsCore();
    if ReviewedEdge(p, t) {
      EdgesStartOutside(p, t);
    }
  }

  /** The repository's layering: its classification, and exceptions only among the
      reviewed edges. */
  ghost predicate Repository(l: Layering<Name>, matches: Patterns) {
    && Patterned(matches)
    && (forall p :: l.ruleOf(p) == LayerOf(matches, p))
    && (forall p, t :: l.excepted(p, t) ==> ReviewedEdge(p, t))
  }

  /** In every module graph that passes the gate, all that is reached from a core
      module is core or release data. */
  lemma CoreReachesCore(l: Layering<Name>, matches: Patterns, g: Graph, modules: seq<Path>, entry: Path, p: Path)
    requires Repository(l, matches) && Layered(l, g, modules) && g.imports.Keys <= (set m | m in modules)
    requires InLayers(l, CORE, entry) && Reaches(g, [entry], p)
    ensures InLayers(l, CORE, p)
  {
    hide LayerOf, ReviewedEdge, Patterned;
    forall q, t | l.ruleOf(q).Some? && l.ruleOf(q).value.name in CORE
      ensures !l.excepted(q, t)
    {
      CoreIsClosed(matches, q, t);
    }
    forall q | l.ruleOf(q).Some? && l.ruleOf(q).value.name in CORE
      ensures l.ruleOf(q).value.may <= CORE
    {
      CoreIsClosed(matches, q, q);
    }
    assert ClosedLayers(l, CORE);
    var chain :| IsChain(g, chain) && chain != [] && chain[0] in [entry] && chain[|chain| - 1] == p;
    LayersAreClosed(l, g, modules, CORE, chain);
  }
}
