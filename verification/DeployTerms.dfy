/** What each surface of the deploy command takes, and that the gates let the
    standard surfaces through exactly then. */
module DeployTerms {
  import opened Values
  import opened Sorting
  import opened DeployFlags
  import opened DeployOperands

  // ----- The terms of each surface -----

  /** What a surface takes beside its action, environment and commit: flags it must
      have and flags it may have. */
  datatype Terms = Terms(actions: set<string>, environments: set<string>, must: set<Slot>, may: set<Slot>)

  const ACTIONS := {"status", "apply", "mint", "issue", "revoke"}
  const ANYWHERE := {"integration", "rehearsal", "production"}
  const CHANGE := {"status", "apply"}
  const STAGING := {"integration"}
  const REHEARSAL := {"rehearsal"}
  const SERVED := {"integration", "production"}
  const REBIND := {RebindDatabase, RebindBucket}

  function TermsOf(s: Surface): Terms {
    match s
    case D1Schema => Terms(CHANGE, ANYWHERE, {}, {ThroughMigration, RegisterRuntime, FinalizeRuntime})
    case SchemaRehearsalBaseline => Terms(CHANGE, REHEARSAL, {}, {})
    case Schema0058Rehearsal => Terms(CHANGE, REHEARSAL, {}, {ProtectedReference})
    case WorkerBootstrap => Terms(CHANGE, STAGING, {}, {RepairMoney})
    case OrganizationBootstrap => Terms(CHANGE, STAGING, {}, {})
    case HostRetirement => Terms(CHANGE, STAGING, {RetiredTarget, RetiredDeployment, RetiredVersion}, {})
    case StorageDisposal => Terms(CHANGE, STAGING, {}, {})
    case StorageGeneration => Terms(CHANGE, STAGING, {Generation}, {FreshLineage, EpochDirectory})
    case ProductionFreshInit => Terms(CHANGE, {"production"}, {Generation}, {FreshLineage})
    case OrgApiKey =>
      Terms({"mint", "status", "revoke"}, ANYWHERE, {Organization}, {KeyName, ExpiresInDays, KeyId, ProtectedReference})
    case OperatorIdentity => Terms(CHANGE, ANYWHERE, {Organization}, {ProtectedReference})
    case IntegrationOperatorIdentity => Terms(CHANGE, STAGING, {Organization}, {ProtectedReference})
    case RehearsalD1Create => Terms(CHANGE, REHEARSAL, {}, {})
    case MoneyCutoverRehearsal => Terms(CHANGE, REHEARSAL, {}, {})
    case MoneyShadowCreate => Terms(CHANGE, STAGING, {}, {})
    case MoneyShadowRehearsal => Terms(CHANGE, STAGING, {}, {})
    case MoneyShadowNativeProbe => Terms(CHANGE, STAGING, {}, {})
    case SnapshotRestore => Terms(CHANGE, REHEARSAL, {}, {})
    case AuthorityCutover => Terms(CHANGE, ANYWHERE, {}, {LegacyPredecessor, ClosurePredecessor} + REBIND)
    case SponsorshipAuthorityWorker => Terms(CHANGE, ANYWHERE, {}, {ClosurePredecessor})
    case FormAuthorityWorker =>
      Terms(CHANGE, ANYWHERE, {}, {ClosurePredecessor, AdoptLive, VerifierBridge, ProbePredecessor} + REBIND)
    case IntegrationFormAuthorityWorker => Terms(CHANGE, STAGING, {}, {ClosurePredecessor, AdoptLive, ScopeTransition} + REBIND)
    case IntegrationFormAuthorityOperatorWorker => Terms(CHANGE, STAGING, {}, {ClosurePredecessor, AdoptLive, ScopeTransition})
    case FormAuthorityIdentityProbe => Terms(CHANGE, ANYWHERE, {}, {ClosurePredecessor, AdoptLive})
    case IntegrationFormAuthority => Terms(CHANGE, STAGING, {}, {})
    case IntegrationFormAuthorityDeactivation => Terms(CHANGE, STAGING, {}, {ScopeTransition})
    case E2eCredentials => Terms({"status", "issue", "revoke"}, STAGING, {}, {})
    case SponsorshipRouteRetirement => Terms(CHANGE, SERVED, {LegacyHostPredecessor}, {Reverse})
    case TopologyRetirement => Terms(CHANGE, SERVED, {LegacyHostPredecessor}, {Reverse})
    case TokenRetirement => Terms(CHANGE, SERVED, {LegacyHostPredecessor}, {})
    case AttributionRepair => Terms(CHANGE, SERVED, {LegacyHostPredecessor, UnattributedSuccessor}, {})
    case Other(_) => Terms(CHANGE, ANYWHERE, {}, {})
  }

  const STAGING_ONLY_MIGRATIONS := {"0093", "0094", "0098", "0100", "0103", "0104", "0105", "0106", "0107", "0108"}

  /** What the flags ask of one another. */
  predicate Companions(d: Slots) {
    && (Has(d, AdoptLive) ==> Is(d, Action, "status"))
    && (Has(d, Reverse) ==> Is(d, Action, "apply"))
    && (Has(d, RepairMoney) ==> Is(d, Action, "apply"))
    && (Has(d, LegacyPredecessor) ==> Is(d, Environment, "integration"))
    && (Has(d, VerifierBridge) <==> Has(d, ProbePredecessor))
    && (Has(d, VerifierBridge) ==> Is(d, Action, "apply") && !Has(d, ClosurePredecessor))
    && (Has(d, EpochDirectory) ==> Is(d, FreshLineage, "v2-0100-money-preserved"))
    && (Has(d, RegisterRuntime) || Has(d, FinalizeRuntime) ==>
          Is(d, Environment, "integration") && Is(d, ThroughMigration, "0103"))
    && (Has(d, FinalizeRuntime) ==> Is(d, Action, "apply"))
    && (Has(d, RebindDatabase) <==> Has(d, RebindBucket))
    && (Has(d, RebindDatabase) ==> Has(d, ClosurePredecessor) && Is(d, Environment, "integration"))
  }

  /** A closure predecessor comes with at least one change, at most thirty-two
      names, none twice; without one there are no names. */
  predicate DeltaFits(d: Slots, t: Tally) {
    if Has(d, ClosurePredecessor) then
      && (t.deltaNames > 0 || Has(d, RebindDatabase)) && t.deltaNames <= 32 && t.distinct
      && (t.serviceBindings > 0 ==> Is(d, Environment, "integration"))
    else t.deltaNames == 0
  }

  /** Minting names the key, its scopes and its days; revoking names its id. */
  predicate KeyFits(d: Slots, t: Tally) {
    if Is(d, Action, "mint") then Has(d, KeyName) && Has(d, ExpiresInDays) && !Has(d, KeyId) && 1 <= t.scopes <= 9
    else !Has(d, KeyName) && !Has(d, ExpiresInDays) && t.scopes == 0 && (Is(d, Action, "revoke") <==> Has(d, KeyId))
  }

  predicate SurfaceFits(s: Surface, d: Slots, t: Tally) {
    && (if s == OrgApiKey then KeyFits(d, t) else t.scopes == 0)
    && (s == ProductionFreshInit && Has(d, FreshLineage) ==> d[FreshLineage] in {"v2-0088", "v2-0089"})
    && (s == D1Schema && !Is(d, Environment, "integration") ==>
          Has(d, ThroughMigration) && d[ThroughMigration] !in STAGING_ONLY_MIGRATIONS)
  }

  /** The flags given are those the surface must have, and none it may not. */
  predicate Shaped(s: Surface, d: Slots) {
    TermsOf(s).must <= d.Keys <= BASE + TermsOf(s).must + TermsOf(s).may
  }

  predicate Meets(s: Surface, d: Slots, t: Tally) {
    && BASE <= d.Keys && d[Action] in TermsOf(s).actions && d[Environment] in TermsOf(s).environments
    && Shaped(s, d) && Companions(d) && DeltaFits(d, t) && SurfaceFits(s, d, t)
  }

  // ----- Counting -----

  /** How the flags leave the parser: counted, read, and not clashing. */
  predicate Left(n: nat, d: Slots, t: Tally) {
    && n == 1 + |d| + t.deltaNames + t.scopes && t.serviceBindings <= t.deltaNames
    && (Has(d, Action) ==> d[Action] in ACTIONS) && (Has(d, Environment) ==> d[Environment] in ANYWHERE)
    && (Has(d, FreshLineage) ==> d[FreshLineage] in LINEAGES)
    && !(Has(d, RegisterRuntime) && Has(d, FinalizeRuntime))
    && !(Has(d, LegacyPredecessor) && Has(d, LegacyHostPredecessor))
    && !(Has(d, LegacyPredecessor) && Has(d, ClosurePredecessor))
    && !(Has(d, LegacyHostPredecessor) && Has(d, ClosurePredecessor))
  }

  /** A count tells whether there is anything else. */
  lemma Sizes(d: Slots, keys: set<Slot>)
    ensures keys <= d.Keys ==> |keys| <= |d| && (|d| == |keys| <==> d.Keys == keys)
    ensures d.Keys <= keys ==> |d| <= |keys|
  {
    assert |d| == |d.Keys|;
    if keys <= d.Keys {
      Fewer(keys, d.Keys);
    }
    if d.Keys <= keys {
      Fewer(d.Keys, keys);
    }
  }

  // ----- The gates by themselves -----

  const SPECIAL := {HostRetirement, ProductionFreshInit, OrgApiKey, OperatorIdentity, IntegrationOperatorIdentity}

  /** None of these flags is given. */
  predicate Free(d: Slots, slots: set<Slot>) {
    d.Keys !! slots
  }

  lemma RuntimeGate(s: Surface, n: nat, d: Slots)
    requires s != D1Schema && s != WorkerBootstrap
    ensures !RuntimeRefused(s, n, d) <==> Free(d, {RegisterRuntime, FinalizeRuntime, RepairMoney})
  {
    hide Is, StatusOrApply;
  }

  lemma RetirementGate(s: Surface, n: nat, d: Slots)
    requires s != HostRetirement
    ensures !RetirementRefused(s, n, d) <==> Free(d, {RetiredTarget, RetiredDeployment, RetiredVersion})
  {
    hide Is, StatusOrApply;
  }

  lemma StorageGate(s: Surface, n: nat, d: Slots)
    requires s != StorageGeneration && s != ProductionFreshInit
    ensures !StorageRefused(s, n, d) <==> Free(d, {Generation, FreshLineage, EpochDirectory})
  {
    hide Is, StatusOrApply, STAGING_LINEAGES;
  }

  lemma KeyGate(d: Slots, t: Tally)
    ensures KeyOperands(d, t) == 0 <==> Free(d, {Organization, KeyName, ExpiresInDays, KeyId}) && t.scopes == 0
  {
  }

  lemma HostFinishes(n: nat, v: View)
    ensures Finish(HostRetirement, n, v).Some? <==>
            BASE <= v.slots.Keys && !RuntimeRefused(HostRetirement, n, v.slots) && !RetirementRefused(HostRetirement, n, v.slots)
  {
    hide RuntimeRefused, RetirementRefused, BootstrapRefused, StorageRefused, Fields;
  }

  lemma FreshFinishes(n: nat, v: View)
    ensures Finish(ProductionFreshInit, n, v).Some? <==>
            BASE <= v.slots.Keys && !RuntimeRefused(ProductionFreshInit, n, v.slots) &&
            !RetirementRefused(ProductionFreshInit, n, v.slots) && !StorageRefused(ProductionFreshInit, n, v.slots) &&
            FreshInit(n, v.slots).Some?
  {
    hide RuntimeRefused, RetirementRefused, StorageRefused, FreshInit;
  }

  /** What every surface but three asks first. */
  predicate PastFirst(s: Surface, n: nat, d: Slots) {
    && BASE <= d.Keys && !RuntimeRefused(s, n, d) && !RetirementRefused(s, n, d) && !BootstrapRefused(s, n, d)
    && !StorageRefused(s, n, d) && (Has(d, RebindDatabase) <==> Has(d, RebindBucket))
  }

  lemma KeyFinishes(n: nat, v: View)
    ensures Finish(OrgApiKey, n, v).Some? <==>
            PastFirst(OrgApiKey, n, v.slots) && ApiKey(v.slots, v.tally, v.scopes).Some?
  {
    hide RuntimeRefused, RetirementRefused, BootstrapRefused, StorageRefused, ApiKey;
  }

  lemma IdentityFinishes(s: Surface, n: nat, v: View)
    requires s == OperatorIdentity || s == IntegrationOperatorIdentity
    ensures Finish(s, n, v).Some? <==> PastFirst(s, n, v.slots) && Identity(s, v.slots, v.tally).Some?
  {
    hide RuntimeRefused, RetirementRefused, BootstrapRefused, StorageRefused, Identity;
  }

  lemma PlainFinishes(s: Surface, n: nat, v: View)
    requires PlainEnvironment(s).Some?
    ensures Finish(s, n, v).Some? <==>
            PastFirst(s, n, v.slots) && KeyOperands(v.slots, v.tally) == 0 && !Is(v.slots, Action, "mint") &&
            Is(v.slots, Environment, PlainEnvironment(s).value) && StatusOrApply(v.slots) && n == 4
  {
    hide RuntimeRefused, RetirementRefused, BootstrapRefused, StorageRefused, KeyOperands, Fields, Is, StatusOrApply;
  }

  predicate IsStandard(s: Surface) {
    s !in SPECIAL && PlainEnvironment(s).None?
  }

  lemma StandardFinishes(s: Surface, n: nat, v: View)
    requires IsStandard(s)
    ensures Finish(s, n, v).Some? <==>
            PastFirst(s, n, v.slots) && KeyOperands(v.slots, v.tally) == 0 && !Is(v.slots, Action, "mint") &&
            !ClosureRefused(s, n, v.slots, v.tally) && !SchemaRefused(s, n, v.slots) && !BridgeRefused(s, v.slots) &&
            !PredecessorRefused(s, v.slots)
  {
    hide RuntimeRefused, RetirementRefused, BootstrapRefused, StorageRefused, KeyOperands, Fields, Is, ClosureRefused,
      SchemaRefused, BridgeRefused, PredecessorRefused;
  }

  // ----- Surface by surface -----

  /** The flags that ask for others. */
  const LINKED := {AdoptLive, Reverse, RepairMoney, LegacyPredecessor, VerifierBridge, ProbePredecessor, EpochDirectory,
                   RegisterRuntime, FinalizeRuntime, RebindDatabase, RebindBucket, ClosurePredecessor}

  lemma Unlinked(d: Slots, t: Tally)
    requires Free(d, LINKED)
    ensures Companions(d) && (DeltaFits(d, t) <==> t.deltaNames == 0)
  {
    hide Is;
  }

  /** Surfaces whose flags are fixed: nothing beside them. */
  predicate Bare(d: Slots, t: Tally, keys: set<Slot>) {
    d.Keys == BASE + keys && t.deltaNames == 0 && t.scopes == 0
  }

  lemma MeetsBare(s: Surface, d: Slots, t: Tally, must: set<Slot>)
    requires TermsOf(s).must == must && TermsOf(s).may == {} && must !! LINKED && s != OrgApiKey && s != D1Schema
    requires s != ProductionFreshInit
    ensures Meets(s, d, t) <==>
            Bare(d, t, must) && d[Action] in TermsOf(s).actions && d[Environment] in TermsOf(s).environments
  {
    hide TermsOf, Companions, DeltaFits, LINKED;
    if d.Keys == BASE + must {
      assert Free(d, LINKED) by {
        BaseUnlinked();
      }
      Unlinked(d, t);
    }
    if BASE <= d.Keys && must <= d.Keys <= BASE + must + TermsOf(s).may {
      assert d.Keys == BASE + must;
      assert Free(d, LINKED) by {
        BaseUnlinked();
      }
      Unlinked(d, t);
    }
  }

  lemma BaseUnlinked()
    ensures BASE !! LINKED
  {
  }

  lemma ExactCount(n: nat, d: Slots, t: Tally, keys: set<Slot>, size: nat)
    requires n == 1 + |d| + t.deltaNames + t.scopes && BASE + keys <= d.Keys && |BASE + keys| == size
    ensures n == 1 + size <==> Bare(d, t, keys)
  {
    Sizes(d, BASE + keys);
  }

  const FOREIGN := {RegisterRuntime, FinalizeRuntime, RepairMoney, RetiredTarget, RetiredDeployment, RetiredVersion, Generation,
                    FreshLineage, EpochDirectory, Organization, KeyName, ExpiresInDays, KeyId}
  const LOCAL := {ProtectedReference, LegacyPredecessor, LegacyHostPredecessor, ClosurePredecessor, UnattributedSuccessor,
                  ScopeTransition, AdoptLive, VerifierBridge, ProbePredecessor, ThroughMigration, Reverse, RebindDatabase,
                  RebindBucket}

  lemma Partition(slot: Slot)
    ensures slot in BASE || slot in FOREIGN || slot in LOCAL
    ensures !(slot in BASE && slot in LOCAL)
  {
  }

  /** What the standard surfaces ask first, but for the three with flags of their own. */
  lemma FirstGates(s: Surface, n: nat, d: Slots, t: Tally)
    requires IsStandard(s)
    requires s !in {D1Schema, WorkerBootstrap, OrganizationBootstrap, StorageDisposal, StorageGeneration}
    ensures PastFirst(s, n, d) && KeyOperands(d, t) == 0 <==>
            BASE <= d.Keys && Free(d, FOREIGN) && t.scopes == 0 && (Has(d, RebindDatabase) <==> Has(d, RebindBucket))
  {
    hide RuntimeRefused, RetirementRefused, StorageRefused, KeyOperands;
    RuntimeGate(s, n, d);
    RetirementGate(s, n, d);
    StorageGate(s, n, d);
    KeyGate(d, t);
  }

  predicate LastGates(s: Surface, n: nat, d: Slots, t: Tally) {
    && !ClosureRefused(s, n, d, t) && !SchemaRefused(s, n, d) && !BridgeRefused(s, d) && !PredecessorRefused(s, d)
    && !Is(d, Action, "mint")
  }

  // ----- Counting the local flags -----

  const LOCALS := [
    ProtectedReference, LegacyPredecessor, LegacyHostPredecessor, ClosurePredecessor, UnattributedSuccessor,
    ScopeTransition, AdoptLive, VerifierBridge, ProbePredecessor, ThroughMigration, Reverse, RebindDatabase,
    RebindBucket
  ]

  function Given(d: Slots, slot: Slot): nat {
    One(Has(d, slot))
  }

  function Sum(d: Slots, slots: seq<Slot>): nat {
    if slots == [] then 0 else Given(d, slots[0]) + Sum(d, slots[1..])
  }

  predicate Apart(slots: seq<Slot>) {
    forall i, j | 0 <= i < j < |slots| :: slots[i] != slots[j]
  }

  lemma WithoutOne(d: Slots, slot: Slot)
    ensures |d| == Given(d, slot) + |d - {slot}|
  {
    var without := d - {slot};
    if slot in d {
      assert d == without[slot := d[slot]];
    } else {
      assert without == d;
    }
  }

  lemma {:induction false} Summed(d: Slots, slots: seq<Slot>)
    requires Apart(slots)
    ensures |d| == Sum(d, slots) + |d - Among(slots)|
  {
    hide Given, Among;
    if slots == [] {
      AmongNone(d);
    } else {
      var slot, rest := slots[0], slots[1..];
      Summed(d, rest);
      assert slots == [slot] + rest;
      WithoutOne(d - Among(rest), slot);
      RestKeeps(d, slot, rest);
    }
  }

  function Among(slots: seq<Slot>): set<Slot> {
    set x | x in slots
  }

  lemma RestKeeps(d: Slots, slot: Slot, rest: seq<Slot>)
    requires slot !in rest
    ensures Given(d - Among(rest), slot) == Given(d, slot)
    ensures d - Among([slot] + rest) == d - Among(rest) - {slot}
  {
  }

  lemma AmongNone(d: Slots)
    ensures d - Among([]) == d
  {
  }

  lemma SumOne(d: Slots, slot: Slot, rest: seq<Slot>)
    ensures Sum(d, [slot] + rest) == Given(d, slot) + Sum(d, rest)
  {
    assert ([slot] + rest)[1..] == rest;
  }

  lemma SumFour(d: Slots, a: Slot, b: Slot, c: Slot, e: Slot, rest: seq<Slot>)
    ensures Sum(d, [a, b, c, e] + rest) == Given(d, a) + Given(d, b) + Given(d, c) + Given(d, e) + Sum(d, rest)
  {
    hide Given, Sum;
    SumOne(d, e, rest);
    SumOne(d, c, [e] + rest);
    SumOne(d, b, [c] + ([e] + rest));
    SumOne(d, a, [b] + ([c] + ([e] + rest)));
    assert [a, b, c, e] + rest == [a] + ([b] + ([c] + ([e] + rest)));
  }

  function LocalCount(d: Slots): nat {
    Given(d, ProtectedReference) + Given(d, LegacyPredecessor) + Given(d, LegacyHostPredecessor) +
    Given(d, ClosurePredecessor) + Given(d, UnattributedSuccessor) + Given(d, ScopeTransition) +
    Given(d, AdoptLive) + Given(d, VerifierBridge) + Given(d, ProbePredecessor) + Given(d, ThroughMigration) +
    Given(d, Reverse) + Given(d, RebindDatabase) + Given(d, RebindBucket)
  }

  lemma LocalsSummed(d: Slots)
    ensures Sum(d, LOCALS) == LocalCount(d)
  {
    hide Given, Sum;
    SumFour(d, ProtectedReference, LegacyPredecessor, LegacyHostPredecessor, ClosurePredecessor, LOCALS[4..]);
    SumFour(d, UnattributedSuccessor, ScopeTransition, AdoptLive, VerifierBridge, LOCALS[8..]);
    SumFour(d, ProbePredecessor, ThroughMigration, Reverse, RebindDatabase, LOCALS[12..]);
    assert LOCALS == [ProtectedReference, LegacyPredecessor, LegacyHostPredecessor, ClosurePredecessor] + LOCALS[4..];
    assert LOCALS[4..] == [UnattributedSuccessor, ScopeTransition, AdoptLive, VerifierBridge] + LOCALS[8..];
    assert LOCALS[8..] == [ProbePredecessor, ThroughMigration, Reverse, RebindDatabase] + LOCALS[12..];
    SumLast(d, RebindBucket);
    assert LOCALS[12..] == [RebindBucket];
  }

  lemma SumLast(d: Slots, slot: Slot)
    ensures Sum(d, [slot]) == Given(d, slot)
  {
    assert [slot][1..] == [];
  }

  /** The place of a local flag in the list. */
  function PlaceOf(slot: Slot): nat {
    match slot
    case ProtectedReference => 0
    case LegacyPredecessor => 1
    case LegacyHostPredecessor => 2
    case ClosurePredecessor => 3
    case UnattributedSuccessor => 4
    case ScopeTransition => 5
    case AdoptLive => 6
    case VerifierBridge => 7
    case ProbePredecessor => 8
    case ThroughMigration => 9
    case Reverse => 10
    case RebindDatabase => 11
    case RebindBucket => 12
    case _ => 13
  }

  lemma LocalsPlaced(i: nat)
    requires i < |LOCALS|
    ensures PlaceOf(LOCALS[i]) == i && LOCALS[i] in LOCAL
  {
  }

  lemma LocalsListed(slot: Slot)
    requires slot in LOCAL
    ensures PlaceOf(slot) < |LOCALS| && LOCALS[PlaceOf(slot)] == slot
  {
  }

  lemma LocalsApart()
    ensures Apart(LOCALS) && Among(LOCALS) == LOCAL
  {
    hide LOCALS, LOCAL, PlaceOf;
    forall i | 0 <= i < |LOCALS|
      ensures PlaceOf(LOCALS[i]) == i && LOCALS[i] in LOCAL
    {
      LocalsPlaced(i);
    }
    forall slot | slot in LOCAL
      ensures slot in LOCALS
    {
      LocalsListed(slot);
    }
  }

  /** Without foreign flags, the count is that of the local ones. */
  lemma Counted(d: Slots)
    requires Free(d, FOREIGN) && BASE <= d.Keys
    ensures |d| == 3 + LocalCount(d)
  {
    hide FOREIGN, LOCAL, LOCALS, LocalCount, Sum, Apart;
    LocalsApart();
    Summed(d, LOCALS);
    LocalsSummed(d);
    var rest := d - LOCAL;
    forall slot: Slot
      ensures slot in rest.Keys <==> slot in BASE
    {
      Partition(slot);
    }
    assert rest.Keys == BASE;
    assert |rest| == |rest.Keys| && |BASE| == 3;
  }

  // ----- The standard surfaces -----

  /** Whether a local flag is there only if the surface knows it. */
  predicate Fits(s: Surface, d: Slots, slot: Slot) {
    && (Has(d, slot) ==> slot in TermsOf(s).must || slot in TermsOf(s).may)
    && (slot in TermsOf(s).must ==> Has(d, slot))
  }

  lemma ShapedLocally(s: Surface, d: Slots)
    requires Free(d, FOREIGN) && BASE <= d.Keys && TermsOf(s).must + TermsOf(s).may <= LOCAL
    ensures Shaped(s, d) <==>
              Fits(s, d, ProtectedReference) && Fits(s, d, LegacyPredecessor) &&
              Fits(s, d, LegacyHostPredecessor) && Fits(s, d, ClosurePredecessor) &&
              Fits(s, d, UnattributedSuccessor) && Fits(s, d, ScopeTransition) && Fits(s, d, AdoptLive) &&
              Fits(s, d, VerifierBridge) && Fits(s, d, ProbePredecessor) && Fits(s, d, ThroughMigration) &&
              Fits(s, d, Reverse) && Fits(s, d, RebindDatabase) && Fits(s, d, RebindBucket)
  {
    hide FOREIGN, LOCAL, TermsOf, BASE, Fits, Shaped;
    ShapedTogether(s, d);
    LocalOneByOne(s, d);
  }

  lemma ShapedTogether(s: Surface, d: Slots)
    requires Free(d, FOREIGN) && BASE <= d.Keys && TermsOf(s).must + TermsOf(s).may <= LOCAL
    ensures Shaped(s, d) <==> forall slot | slot in LOCAL :: Fits(s, d, slot)
  {
    hide FOREIGN, LOCAL, TermsOf, BASE;
    var must, may := TermsOf(s).must, TermsOf(s).may;
    if forall slot | slot in LOCAL :: Fits(s, d, slot) {
      forall slot | slot in d
        ensures slot in BASE + must + may
      {
        Partition(slot);
        assert slot in LOCAL ==> Fits(s, d, slot);
      }
      forall slot | slot in must
        ensures slot in d
      {
        assert Fits(s, d, slot);
      }
    } else {
      var slot :| slot in LOCAL && !Fits(s, d, slot);
      Partition(slot);
    }
  }

  lemma LocalOneByOne(s: Surface, d: Slots)
    ensures (forall slot | slot in LOCAL :: Fits(s, d, slot)) <==>
              Fits(s, d, ProtectedReference) && Fits(s, d, LegacyPredecessor) &&
              Fits(s, d, LegacyHostPredecessor) && Fits(s, d, ClosurePredecessor) &&
              Fits(s, d, UnattributedSuccessor) && Fits(s, d, ScopeTransition) && Fits(s, d, AdoptLive) &&
              Fits(s, d, VerifierBridge) && Fits(s, d, ProbePredecessor) && Fits(s, d, ThroughMigration) &&
              Fits(s, d, Reverse) && Fits(s, d, RebindDatabase) && Fits(s, d, RebindBucket)
  {
    hide Fits;
  }

  lemma NoForeign(d: Slots)
    requires Free(d, FOREIGN)
    ensures !Has(d, RegisterRuntime) && !Has(d, FinalizeRuntime) && !Has(d, RepairMoney)
    ensures !Has(d, FreshLineage) && !Has(d, EpochDirectory)
  {
  }

  /** The words an action and an environment can be. */
  lemma Words(n: nat, d: Slots, t: Tally)
    requires Left(n, d, t) && BASE <= d.Keys
    ensures Has(d, Action) && Has(d, Environment)
    ensures d[Action] in CHANGE <==> Is(d, Action, "status") || Is(d, Action, "apply")
    ensures d[Action] in {"status", "issue", "revoke"} <==>
            Is(d, Action, "status") || Is(d, Action, "issue") || Is(d, Action, "revoke")
    ensures Is(d, Action, "status") || Is(d, Action, "apply") || Is(d, Action, "mint") || Is(d, Action, "issue") ||
            Is(d, Action, "revoke")
    ensures Is(d, Action, "status") ==>
              !Is(d, Action, "apply") && !Is(d, Action, "mint") && !Is(d, Action, "issue") && !Is(d, Action, "revoke")
    ensures Is(d, Action, "apply") ==> !Is(d, Action, "mint") && !Is(d, Action, "issue") && !Is(d, Action, "revoke")
    ensures Is(d, Action, "mint") ==> !Is(d, Action, "issue") && !Is(d, Action, "revoke")
    ensures Is(d, Action, "issue") ==> !Is(d, Action, "revoke")
    ensures d[Action] in {"mint", "status", "revoke"} <==>
            Is(d, Action, "mint") || Is(d, Action, "status") || Is(d, Action, "revoke")
    ensures d[Environment] in {"production"} <==> Is(d, Environment, "production")
    ensures d[Environment] in ANYWHERE
    ensures d[Environment] in STAGING <==> Is(d, Environment, "integration")
    ensures d[Environment] in REHEARSAL <==> Is(d, Environment, "rehearsal")
    ensures d[Environment] in SERVED <==> Is(d, Environment, "integration") || Is(d, Environment, "production")
    ensures !(Is(d, Environment, "integration") && Is(d, Environment, "rehearsal"))
  {
  }

  /** What the standard surfaces are asked once they are past the first gates. */
  predicate Past(n: nat, d: Slots, t: Tally) {
    && Left(n, d, t) && BASE <= d.Keys && Free(d, FOREIGN) && t.scopes == 0
    && (Has(d, RebindDatabase) <==> Has(d, RebindBucket))
  }

  /** All of it in words and flags. */
  lemma Prepare(s: Surface, n: nat, d: Slots, t: Tally)
    requires Past(n, d, t) && TermsOf(s).must + TermsOf(s).may <= LOCAL
    ensures n == 4 + LocalCount(d) + t.deltaNames
    ensures Shaped(s, d) <==>
              Fits(s, d, ProtectedReference) && Fits(s, d, LegacyPredecessor) &&
              Fits(s, d, LegacyHostPredecessor) && Fits(s, d, ClosurePredecessor) &&
              Fits(s, d, UnattributedSuccessor) && Fits(s, d, ScopeTransition) && Fits(s, d, AdoptLive) &&
              Fits(s, d, VerifierBridge) && Fits(s, d, ProbePredecessor) && Fits(s, d, ThroughMigration) &&
              Fits(s, d, Reverse) && Fits(s, d, RebindDatabase) && Fits(s, d, RebindBucket)
  {
    hide FOREIGN, LOCAL, TermsOf, LocalCount, Fits, Shaped, BASE, LINEAGES, ACTIONS;
    Counted(d);
    ShapedLocally(s, d);
  }

  lemma SchemaRehearsalBaselineAccepted(n: nat, d: Slots, t: Tally)
    requires Past(n, d, t)
    ensures LastGates(SchemaRehearsalBaseline, n, d, t) <==> Meets(SchemaRehearsalBaseline, d, t)
  {
    hide FOREIGN, LINEAGES, Shaped, Is, CHANGE, ACTIONS, ANYWHERE, STAGING, REHEARSAL, SERVED, BASE, LATE_MIGRATIONS,
      STAGING_ONLY_MIGRATIONS;
    NoForeign(d);
    Prepare(SchemaRehearsalBaseline, n, d, t);
    Words(n, d, t);
  }

  lemma Schema0058RehearsalAccepted(n: nat, d: Slots, t: Tally)
    requires Past(n, d, t)
    ensures LastGates(Schema0058Rehearsal, n, d, t) <==> Meets(Schema0058Rehearsal, d, t)
  {
    hide FOREIGN, LINEAGES, Shaped, Is, CHANGE, ACTIONS, ANYWHERE, STAGING, REHEARSAL, SERVED, BASE, LATE_MIGRATIONS,
      STAGING_ONLY_MIGRATIONS;
    NoForeign(d);
    Prepare(Schema0058Rehearsal, n, d, t);
    Words(n, d, t);
  }

  lemma AuthorityCutoverAccepted(n: nat, d: Slots, t: Tally)
    requires Past(n, d, t)
    ensures LastGates(AuthorityCutover, n, d, t) <==> Meets(AuthorityCutover, d, t)
  {
    hide FOREIGN, LINEAGES, Shaped, Is, CHANGE, ACTIONS, ANYWHERE, STAGING, REHEARSAL, SERVED, BASE, LATE_MIGRATIONS,
      STAGING_ONLY_MIGRATIONS;
    NoForeign(d);
    Prepare(AuthorityCutover, n, d, t);
    Words(n, d, t);
  }

  lemma SponsorshipAuthorityWorkerAccepted(n: nat, d: Slots, t: Tally)
    requires Past(n, d, t)
    ensures LastGates(SponsorshipAuthorityWorker, n, d, t) <==> Meets(SponsorshipAuthorityWorker, d, t)
  {
    hide FOREIGN, LINEAGES, Shaped, Is, CHANGE, ACTIONS, ANYWHERE, STAGING, REHEARSAL, SERVED, BASE, LATE_MIGRATIONS,
      STAGING_ONLY_MIGRATIONS;
    NoForeign(d);
    Prepare(SponsorshipAuthorityWorker, n, d, t);
    Words(n, d, t);
  }

  lemma FormAuthorityWorkerAccepted(n: nat, d: Slots, t: Tally)
    requires Past(n, d, t)
    ensures LastGates(FormAuthorityWorker, n, d, t) <==> Meets(FormAuthorityWorker, d, t)
  {
    hide FOREIGN, LINEAGES, Shaped, Is, CHANGE, ACTIONS, ANYWHERE, STAGING, REHEARSAL, SERVED, BASE, LATE_MIGRATIONS,
      STAGING_ONLY_MIGRATIONS;
    NoForeign(d);
    Prepare(FormAuthorityWorker, n, d, t);
    Words(n, d, t);
  }

  lemma IntegrationFormAuthorityWorkerAccepted(n: nat, d: Slots, t: Tally)
    requires Past(n, d, t)
    ensures LastGates(IntegrationFormAuthorityWorker, n, d, t) <==> Meets(IntegrationFormAuthorityWorker, d, t)
  {
    hide FOREIGN, LINEAGES, Shaped, Is, CHANGE, ACTIONS, ANYWHERE, STAGING, REHEARSAL, SERVED, BASE, LATE_MIGRATIONS,
      STAGING_ONLY_MIGRATIONS;
    NoForeign(d);
    Prepare(IntegrationFormAuthorityWorker, n, d, t);
    Words(n, d, t);
  }

  lemma IntegrationFormAuthorityOperatorWorkerAccepted(n: nat, d: Slots, t: Tally)
    requires Past(n, d, t)
    ensures LastGates(IntegrationFormAuthorityOperatorWorker, n, d, t) <==> Meets(IntegrationFormAuthorityOperatorWorker, d, t)
  {
    hide FOREIGN, LINEAGES, Shaped, Is, CHANGE, ACTIONS, ANYWHERE, STAGING, REHEARSAL, SERVED, BASE, LATE_MIGRATIONS,
      STAGING_ONLY_MIGRATIONS;
    NoForeign(d);
    Prepare(IntegrationFormAuthorityOperatorWorker, n, d, t);
    Words(n, d, t);
  }

  lemma FormAuthorityIdentityProbeAccepted(n: nat, d: Slots, t: Tally)
    requires Past(n, d, t)
    ensures LastGates(FormAuthorityIdentityProbe, n, d, t) <==> Meets(FormAuthorityIdentityProbe, d, t)
  {
    hide FOREIGN, LINEAGES, Shaped, Is, CHANGE, ACTIONS, ANYWHERE, STAGING, REHEARSAL, SERVED, BASE, LATE_MIGRATIONS,
      STAGING_ONLY_MIGRATIONS;
    NoForeign(d);
    Prepare(FormAuthorityIdentityProbe, n, d, t);
    Words(n, d, t);
  }

  lemma IntegrationFormAuthorityAccepted(n: nat, d: Slots, t: Tally)
    requires Past(n, d, t)
    ensures LastGates(IntegrationFormAuthority, n, d, t) <==> Meets(IntegrationFormAuthority, d, t)
  {
    hide FOREIGN, LINEAGES, Shaped, Is, CHANGE, ACTIONS, ANYWHERE, STAGING, REHEARSAL, SERVED, BASE, LATE_MIGRATIONS,
      STAGING_ONLY_MIGRATIONS;
    NoForeign(d);
    Prepare(IntegrationFormAuthority, n, d, t);
    Words(n, d, t);
  }

  lemma IntegrationFormAuthorityDeactivationAccepted(n: nat, d: Slots, t: Tally)
    requires Past(n, d, t)
    ensures LastGates(IntegrationFormAuthorityDeactivation, n, d, t) <==> Meets(IntegrationFormAuthorityDeactivation, d, t)
  {
    hide FOREIGN, LINEAGES, Shaped, Is, CHANGE, ACTIONS, ANYWHERE, STAGING, REHEARSAL, SERVED, BASE, LATE_MIGRATIONS,
      STAGING_ONLY_MIGRATIONS;
    NoForeign(d);
    Prepare(IntegrationFormAuthorityDeactivation, n, d, t);
    Words(n, d, t);
  }

  lemma E2eCredentialsAccepted(n: nat, d: Slots, t: Tally)
    requires Past(n, d, t)
    ensures LastGates(E2eCredentials, n, d, t) <==> Meets(E2eCredentials, d, t)
  {
    hide FOREIGN, LINEAGES, Shaped, Is, CHANGE, ACTIONS, ANYWHERE, STAGING, REHEARSAL, SERVED, BASE, LATE_MIGRATIONS,
      STAGING_ONLY_MIGRATIONS;
    NoForeign(d);
    Prepare(E2eCredentials, n, d, t);
    Words(n, d, t);
  }

  lemma SponsorshipRouteRetirementAccepted(n: nat, d: Slots, t: Tally)
    requires Past(n, d, t)
    ensures LastGates(SponsorshipRouteRetirement, n, d, t) <==> Meets(SponsorshipRouteRetirement, d, t)
  {
    hide FOREIGN, LINEAGES, Shaped, Is, CHANGE, ACTIONS, ANYWHERE, STAGING, REHEARSAL, SERVED, BASE, LATE_MIGRATIONS,
      STAGING_ONLY_MIGRATIONS;
    NoForeign(d);
    Prepare(SponsorshipRouteRetirement, n, d, t);
    Words(n, d, t);
  }

  lemma TopologyRetirementAccepted(n: nat, d: Slots, t: Tally)
    requires Past(n, d, t)
    ensures LastGates(TopologyRetirement, n, d, t) <==> Meets(TopologyRetirement, d, t)
  {
    hide FOREIGN, LINEAGES, Shaped, Is, CHANGE, ACTIONS, ANYWHERE, STAGING, REHEARSAL, SERVED, BASE, LATE_MIGRATIONS,
      STAGING_ONLY_MIGRATIONS;
    NoForeign(d);
    Prepare(TopologyRetirement, n, d, t);
    Words(n, d, t);
  }

  lemma TokenRetirementAccepted(n: nat, d: Slots, t: Tally)
    requires Past(n, d, t)
    ensures LastGates(TokenRetirement, n, d, t) <==> Meets(TokenRetirement, d, t)
  {
    hide FOREIGN, LINEAGES, Shaped, Is, CHANGE, ACTIONS, ANYWHERE, STAGING, REHEARSAL, SERVED, BASE, LATE_MIGRATIONS,
      STAGING_ONLY_MIGRATIONS;
    NoForeign(d);
    Prepare(TokenRetirement, n, d, t);
    Words(n, d, t);
  }

  lemma AttributionRepairAccepted(n: nat, d: Slots, t: Tally)
    requires Past(n, d, t)
    ensures LastGates(AttributionRepair, n, d, t) <==> Meets(AttributionRepair, d, t)
  {
    hide FOREIGN, LINEAGES, Shaped, Is, CHANGE, ACTIONS, ANYWHERE, STAGING, REHEARSAL, SERVED, BASE, LATE_MIGRATIONS,
      STAGING_ONLY_MIGRATIONS;
    NoForeign(d);
    Prepare(AttributionRepair, n, d, t);
    Words(n, d, t);
  }

  lemma OtherAccepted(name: string, n: nat, d: Slots, t: Tally)
    requires Past(n, d, t)
    ensures LastGates(Other(name), n, d, t) <==> Meets(Other(name), d, t)
  {
    hide FOREIGN, LINEAGES, Shaped, Is, CHANGE, ACTIONS, ANYWHERE, STAGING, REHEARSAL, SERVED, BASE, LATE_MIGRATIONS,
      STAGING_ONLY_MIGRATIONS;
    NoForeign(d);
    Prepare(Other(name), n, d, t);
    Words(n, d, t);
  }
}
