/** Which command lines are accepted, surface by surface. */
module DeployAcceptance {
  import opened Values
  import opened Sorting
  import opened DeployFlags
  import opened DeployOperands
  import opened DeployTerms

  // ----- The other surfaces -----

  lemma ShapedAtAll(s: Surface, d: Slots)
    requires BASE <= d.Keys
    ensures Shaped(s, d) <==>
              Fits(s, d, RegisterRuntime) && Fits(s, d, FinalizeRuntime) && Fits(s, d, RepairMoney) &&
              Fits(s, d, RetiredTarget) && Fits(s, d, RetiredDeployment) && Fits(s, d, RetiredVersion) &&
              Fits(s, d, Generation) && Fits(s, d, FreshLineage) && Fits(s, d, EpochDirectory) &&
              Fits(s, d, Organization) && Fits(s, d, KeyName) && Fits(s, d, ExpiresInDays) && Fits(s, d, KeyId) &&
              Fits(s, d, ProtectedReference) && Fits(s, d, LegacyPredecessor) &&
              Fits(s, d, LegacyHostPredecessor) && Fits(s, d, ClosurePredecessor) &&
              Fits(s, d, UnattributedSuccessor) && Fits(s, d, ScopeTransition) && Fits(s, d, AdoptLive) &&
              Fits(s, d, VerifierBridge) && Fits(s, d, ProbePredecessor) && Fits(s, d, ThroughMigration) &&
              Fits(s, d, Reverse) && Fits(s, d, RebindDatabase) && Fits(s, d, RebindBucket)
  {
    hide FOREIGN, LOCAL, TermsOf, BASE, Fits, Shaped;
    assert Shaped(s, d) <==> forall slot | slot in FOREIGN + LOCAL :: Fits(s, d, slot) by {
      TermsBeyond(s);
      ShapedBeyond(s, d);
    }
    LocalOneByOne(s, d);
    ForeignOneByOne(s, d);
  }

  lemma ShapedBeyond(s: Surface, d: Slots)
    requires BASE <= d.Keys && TermsOf(s).must + TermsOf(s).may !! BASE
    ensures Shaped(s, d) <==> forall slot | slot in FOREIGN + LOCAL :: Fits(s, d, slot)
  {
    hide FOREIGN, LOCAL, TermsOf, BASE;
    var must, may := TermsOf(s).must, TermsOf(s).may;
    if forall slot | slot in FOREIGN + LOCAL :: Fits(s, d, slot) {
      forall slot | slot in d
        ensures slot in BASE + must + may
      {
        Partition(slot);
        assert slot in FOREIGN + LOCAL ==> Fits(s, d, slot);
      }
      forall slot | slot in must
        ensures slot in d
      {
        Partition(slot);
        assert Fits(s, d, slot);
      }
    } else {
      var slot :| slot in FOREIGN + LOCAL && !Fits(s, d, slot);
      Partition(slot);
      BaseApart(slot);
    }
  }

  lemma TermsBeyond(s: Surface)
    ensures TermsOf(s).must !! BASE && TermsOf(s).may !! BASE
  {
  }

  lemma BaseApart(slot: Slot)
    ensures !(slot in BASE && slot in FOREIGN)
  {
  }

  lemma ForeignOneByOne(s: Surface, d: Slots)
    ensures (forall slot | slot in FOREIGN :: Fits(s, d, slot)) <==>
              Fits(s, d, RegisterRuntime) && Fits(s, d, FinalizeRuntime) && Fits(s, d, RepairMoney) &&
              Fits(s, d, RetiredTarget) && Fits(s, d, RetiredDeployment) && Fits(s, d, RetiredVersion) &&
              Fits(s, d, Generation) && Fits(s, d, FreshLineage) && Fits(s, d, EpochDirectory) &&
              Fits(s, d, Organization) && Fits(s, d, KeyName) && Fits(s, d, ExpiresInDays) && Fits(s, d, KeyId)
  {
    hide Fits;
  }

  /** What the key and identity surfaces are asked first. */
  lemma KeyFirst(s: Surface, n: nat, d: Slots)
    requires s in {OrgApiKey, OperatorIdentity, IntegrationOperatorIdentity}
    ensures PastFirst(s, n, d) <==>
              BASE <= d.Keys && !Has(d, RegisterRuntime) && !Has(d, FinalizeRuntime) && !Has(d, RepairMoney) &&
              !Has(d, RetiredTarget) && !Has(d, RetiredDeployment) && !Has(d, RetiredVersion) && !Has(d, Generation) &&
              !Has(d, FreshLineage) && !Has(d, EpochDirectory) && (Has(d, RebindDatabase) <==> Has(d, RebindBucket))
  {
    hide RuntimeRefused, RetirementRefused, StorageRefused;
    RuntimeGate(s, n, d);
    RetirementGate(s, n, d);
    StorageGate(s, n, d);
  }

  lemma KeyAccepted(n: nat, v: View)
    requires Left(n, v.slots, v.tally)
    ensures Finish(OrgApiKey, n, v).Some? <==> Meets(OrgApiKey, v.slots, v.tally)
  {
    hide LINEAGES, Shaped, PastFirst, Finish, Is, ACTIONS, ANYWHERE, CHANGE, Fields, BASE;
    var d, t := v.slots, v.tally;
    KeyFinishes(n, v);
    KeyFirst(OrgApiKey, n, d);
    if BASE <= d.Keys {
      ShapedAtAll(OrgApiKey, d);
      Words(n, d, t);
    }
  }

  lemma IdentityAccepted(s: Surface, n: nat, v: View)
    requires Left(n, v.slots, v.tally) && (s == OperatorIdentity || s == IntegrationOperatorIdentity)
    ensures Finish(s, n, v).Some? <==> Meets(s, v.slots, v.tally)
  {
    hide LINEAGES, Shaped, PastFirst, Finish, Is, ACTIONS, ANYWHERE, CHANGE, STAGING, Fields, BASE;
    var d, t := v.slots, v.tally;
    IdentityFinishes(s, n, v);
    KeyFirst(s, n, d);
    if BASE <= d.Keys {
      ShapedAtAll(s, d);
      Words(n, d, t);
    }
  }

  lemma HostAccepted(n: nat, v: View)
    requires Left(n, v.slots, v.tally)
    ensures Finish(HostRetirement, n, v).Some? <==> Meets(HostRetirement, v.slots, v.tally)
  {
    hide LINEAGES, RuntimeRefused, Finish, Is, ACTIONS, ANYWHERE, CHANGE, STAGING, Meets;
    var d, t := v.slots, v.tally;
    var keys := {RetiredTarget, RetiredDeployment, RetiredVersion};
    HostFinishes(n, v);
    RuntimeGate(HostRetirement, n, d);
    MeetsBare(HostRetirement, d, t, keys);
    if BASE + keys <= d.Keys {
      assert |BASE + keys| == 6;
      ExactCount(n, d, t, keys, 6);
      Words(n, d, t);
    }
  }

  /** With nothing but an action, an environment and a commit, most gates are open. */
  lemma BareGates(s: Surface, n: nat, d: Slots, t: Tally)
    requires Bare(d, t, {}) && t.serviceBindings == 0 && n == 4
    requires s !in {HostRetirement, StorageGeneration, ProductionFreshInit}
    ensures !RuntimeRefused(s, n, d) && !RetirementRefused(s, n, d) && !StorageRefused(s, n, d) && KeyOperands(d, t) == 0
    ensures !Has(d, RebindDatabase) && !Has(d, RebindBucket) && !Has(d, RepairMoney) && !ClosureRefused(s, n, d, t)
  {
    hide Is, StatusOrApply, STAGING_LINEAGES, TRANSITIONS, REBINDS;
  }

  lemma PlainTerms(s: Surface)
    requires PlainEnvironment(s).Some?
    ensures TermsOf(s) == Terms(CHANGE, if PlainEnvironment(s) == Some("rehearsal") then REHEARSAL else STAGING, {}, {})
    ensures PlainEnvironment(s) == Some("rehearsal") || PlainEnvironment(s) == Some("integration")
    ensures s !in {HostRetirement, StorageGeneration, ProductionFreshInit, OrgApiKey, D1Schema, WorkerBootstrap}
    ensures s !in {OrganizationBootstrap, StorageDisposal}
  {
  }

  lemma PlainAccepted(s: Surface, n: nat, v: View)
    requires Left(n, v.slots, v.tally) && PlainEnvironment(s).Some?
    ensures Finish(s, n, v).Some? <==> Meets(s, v.slots, v.tally)
  {
    hide LINEAGES, RuntimeRefused, RetirementRefused, StorageRefused, Finish, Is, ACTIONS, ANYWHERE, CHANGE, STAGING, REHEARSAL, Meets,
      KeyOperands, ClosureRefused, TermsOf, LINKED, PlainEnvironment;
    var d, t := v.slots, v.tally;
    PlainFinishes(s, n, v);
    PlainTerms(s);
    MeetsBare(s, d, t, {});
    if BASE <= d.Keys {
      assert BASE + {} == BASE && |BASE| == 3;
      ExactCount(n, d, t, {}, 3);
      Words(n, d, t);
      if n == 4 {
        BareGates(s, n, d, t);
      }
    }
  }

  lemma ResetAccepted(s: Surface, n: nat, v: View)
    requires Left(n, v.slots, v.tally) && (s == OrganizationBootstrap || s == StorageDisposal)
    ensures Finish(s, n, v).Some? <==> Meets(s, v.slots, v.tally)
  {
    hide LINEAGES, RuntimeRefused, RetirementRefused, StorageRefused, Finish, Is, ACTIONS, ANYWHERE, CHANGE, STAGING, Meets,
      KeyOperands, ClosureRefused, SchemaRefused, BridgeRefused, PredecessorRefused;
    var d, t := v.slots, v.tally;
    StandardFinishes(s, n, v);
    MeetsBare(s, d, t, {});
    if BASE <= d.Keys {
      assert BASE + {} == BASE && |BASE| == 3;
      ExactCount(n, d, t, {}, 3);
      Words(n, d, t);
      if n == 4 {
        BareGates(s, n, d, t);
        if Is(d, Action, "status") || Is(d, Action, "apply") {
          BareLastGates(s, n, d, t);
        }
      }
      assert !Has(d, RepairMoney) || RuntimeRefused(s, n, d) by {
        RuntimeGate(s, n, d);
      }
    }
  }

  /** A surface of its own kind passes the last gates with nothing but the base. */
  lemma BareLastGates(s: Surface, n: nat, d: Slots, t: Tally)
    requires Left(n, d, t) && d.Keys == BASE && (Is(d, Action, "status") || Is(d, Action, "apply"))
    requires s in {OrganizationBootstrap, StorageDisposal, WorkerBootstrap, StorageGeneration}
    ensures !SchemaRefused(s, n, d) && !BridgeRefused(s, d) && !PredecessorRefused(s, d)
  {
    hide Is, LINEAGES, ADOPTS, ACTIONS, ANYWHERE;
    Words(n, d, t);
  }

  lemma BootstrapAccepted(n: nat, v: View)
    requires Left(n, v.slots, v.tally)
    ensures Finish(WorkerBootstrap, n, v).Some? <==> Meets(WorkerBootstrap, v.slots, v.tally)
  {
    hide LINEAGES, Finish, Is, ACTIONS, ANYWHERE, CHANGE, STAGING, Meets, RuntimeRefused, RetirementRefused, StorageRefused,
      KeyOperands, SchemaRefused, BridgeRefused, PredecessorRefused, ClosureRefused, BASE, TermsOf;
    var d, t := v.slots, v.tally;
    StandardFinishes(WorkerBootstrap, n, v);
    BootstrapMeets(d, t);
    if BASE <= d.Keys {
      Words(n, d, t);
      BaseCount(n, d, t);
      if Has(d, RepairMoney) {
        RepairCount(n, d, t);
      }
      if Bare(d, t, {}) {
        BareGates(WorkerBootstrap, n, d, t);
        if StatusOrApply(d) {
          BaseAlone(d);
          BareLastGates(WorkerBootstrap, n, d, t);
        }
      } else if Bare(d, t, {RepairMoney}) {
        RepairGates(n, d, t);
      }
    }
  }

  lemma BaseAlone(d: Slots)
    requires d.Keys == BASE + {}
    ensures d.Keys == BASE
  {
  }

  lemma BootstrapMeets(d: Slots, t: Tally)
    ensures Meets(WorkerBootstrap, d, t) <==>
            (Bare(d, t, {}) || Bare(d, t, {RepairMoney})) && Has(d, Action) && Has(d, Environment) &&
            d[Environment] in STAGING && d[Action] in CHANGE && (Has(d, RepairMoney) ==> Is(d, Action, "apply"))
    ensures Bare(d, t, {RepairMoney}) ==> Has(d, RepairMoney)
    ensures Bare(d, t, {}) ==> !Has(d, RepairMoney)
  {
    hide Is, LINEAGES;
  }

  lemma BaseCount(n: nat, d: Slots, t: Tally)
    requires Left(n, d, t) && BASE <= d.Keys
    ensures n == 4 <==> Bare(d, t, {})
  {
    assert BASE + {} == BASE && |BASE| == 3;
    ExactCount(n, d, t, {}, 3);
  }

  lemma RepairCount(n: nat, d: Slots, t: Tally)
    requires Left(n, d, t) && BASE <= d.Keys && Has(d, RepairMoney)
    ensures n == 5 <==> Bare(d, t, {RepairMoney})
  {
    assert |BASE + {RepairMoney}| == 4;
    ExactCount(n, d, t, {RepairMoney}, 4);
  }

  lemma RepairGates(n: nat, d: Slots, t: Tally)
    requires Left(n, d, t) && Bare(d, t, {RepairMoney}) && n == 5
    ensures !RuntimeRefused(WorkerBootstrap, n, d) <==> Is(d, Action, "apply") && Is(d, Environment, "integration")
    ensures !RetirementRefused(WorkerBootstrap, n, d) && !StorageRefused(WorkerBootstrap, n, d) && KeyOperands(d, t) == 0
    ensures !Has(d, RebindDatabase) && !Has(d, RebindBucket) && !ClosureRefused(WorkerBootstrap, n, d, t)
    ensures Is(d, Action, "apply") ==>
              !SchemaRefused(WorkerBootstrap, n, d) && !BridgeRefused(WorkerBootstrap, d) && !PredecessorRefused(WorkerBootstrap, d)
  {
    hide Is, LINEAGES, ACTIONS, ANYWHERE, STAGING_LINEAGES, CHANGE, STAGING, REHEARSAL, SERVED;
    Words(n, d, t);
    RepairAlone(d);
    hide BASE;
  }

  lemma RepairAlone(d: Slots)
    requires d.Keys == BASE + {RepairMoney}
    ensures Has(d, RepairMoney) && !Has(d, RegisterRuntime) && !Has(d, FinalizeRuntime)
    ensures !Has(d, RetiredTarget) && !Has(d, RetiredDeployment) && !Has(d, RetiredVersion)
    ensures !Has(d, Generation) && !Has(d, FreshLineage) && !Has(d, EpochDirectory)
    ensures !Has(d, Organization) && !Has(d, KeyName) && !Has(d, ExpiresInDays) && !Has(d, KeyId)
    ensures !Has(d, ProtectedReference) && !Has(d, LegacyPredecessor) && !Has(d, LegacyHostPredecessor) && !Has(d, ClosurePredecessor) && !Has(d, UnattributedSuccessor)
    ensures !Has(d, ScopeTransition) && !Has(d, AdoptLive) && !Has(d, VerifierBridge) && !Has(d, ProbePredecessor) && !Has(d, ThroughMigration)
    ensures !Has(d, Reverse) && !Has(d, RebindDatabase) && !Has(d, RebindBucket)
  {
  }

  // ----- The two storage surfaces -----

  /** The flags a storage generation comes with. */
  function StorageKeys(d: Slots): set<Slot> {
    {Generation} + (if Has(d, FreshLineage) then {FreshLineage} else {}) +
    (if Has(d, EpochDirectory) then {EpochDirectory} else {})
  }

  lemma StorageSize(lineage: bool, epoch: bool)
    ensures |BASE + ({Generation} + (if lineage then {FreshLineage} else {}) + (if epoch then {EpochDirectory} else {}))| ==
            4 + One(lineage) + One(epoch)
  {
    if lineage && epoch {
      assert |BASE + {Generation, FreshLineage, EpochDirectory}| == 6;
      assert {Generation} + {FreshLineage} + {EpochDirectory} == {Generation, FreshLineage, EpochDirectory};
    } else if lineage {
      assert |BASE + {Generation, FreshLineage}| == 5;
      assert {Generation} + {FreshLineage} + {} == {Generation, FreshLineage};
    } else if epoch {
      assert |BASE + {Generation, EpochDirectory}| == 5;
      assert {Generation} + {} + {EpochDirectory} == {Generation, EpochDirectory};
    } else {
      assert |BASE + {Generation}| == 4;
      assert {Generation} + {} + {} == {Generation};
    }
  }

  lemma StorageCount(n: nat, d: Slots, t: Tally)
    requires Left(n, d, t) && BASE <= d.Keys && Has(d, Generation)
    ensures n == 5 + One(Has(d, FreshLineage)) + One(Has(d, EpochDirectory)) <==> Bare(d, t, StorageKeys(d))
  {
    var keys := StorageKeys(d);
    StorageSize(Has(d, FreshLineage), Has(d, EpochDirectory));
    ExactCount(n, d, t, keys, |BASE + keys|);
  }

  /** Nothing but the base and storage flags is given. */
  lemma StorageAlone(d: Slots)
    requires d.Keys == BASE + StorageKeys(d)
    ensures !Has(d, RegisterRuntime) && !Has(d, FinalizeRuntime) && !Has(d, RepairMoney)
    ensures !Has(d, RetiredTarget) && !Has(d, RetiredDeployment) && !Has(d, RetiredVersion)
    ensures !Has(d, Organization) && !Has(d, KeyName) && !Has(d, ExpiresInDays) && !Has(d, KeyId)
    ensures !Has(d, ProtectedReference) && !Has(d, LegacyPredecessor) && !Has(d, LegacyHostPredecessor) && !Has(d, ClosurePredecessor) && !Has(d, UnattributedSuccessor)
    ensures !Has(d, ScopeTransition) && !Has(d, AdoptLive) && !Has(d, VerifierBridge) && !Has(d, ProbePredecessor) && !Has(d, ThroughMigration)
    ensures !Has(d, Reverse) && !Has(d, RebindDatabase) && !Has(d, RebindBucket)
  {
  }

  lemma StorageGates(s: Surface, n: nat, d: Slots, t: Tally)
    requires Left(n, d, t) && Bare(d, t, StorageKeys(d)) && n <= 7 && (n == 7 ==> Has(d, EpochDirectory))
    requires s == StorageGeneration || s == ProductionFreshInit
    ensures !RuntimeRefused(s, n, d) && !RetirementRefused(s, n, d) && KeyOperands(d, t) == 0
    ensures !Has(d, RebindDatabase) && !Has(d, RebindBucket) && !ClosureRefused(s, n, d, t)
    ensures Companions(d) <==> (Has(d, EpochDirectory) ==> Is(d, FreshLineage, "v2-0100-money-preserved"))
    ensures DeltaFits(d, t)
    ensures s == StorageGeneration && StatusOrApply(d) ==>
              !SchemaRefused(s, n, d) && !BridgeRefused(s, d) && !PredecessorRefused(s, d)
  {
    hide Is, LINEAGES, ACTIONS, ANYWHERE, STAGING_LINEAGES, CHANGE, STAGING, REHEARSAL, SERVED;
    Words(n, d, t);
    StorageAlone(d);
    hide BASE;
  }

  lemma StorageShaped(s: Surface, d: Slots, t: Tally)
    requires BASE <= d.Keys && (s == StorageGeneration || s == ProductionFreshInit)
    ensures Shaped(s, d) && t.deltaNames == 0 && t.scopes == 0 <==>
            Bare(d, t, StorageKeys(d)) && Has(d, Generation) && (s == ProductionFreshInit ==> !Has(d, EpochDirectory))
  {
  }

  lemma GenerationAccepted(n: nat, v: View)
    requires Left(n, v.slots, v.tally)
    ensures Finish(StorageGeneration, n, v).Some? <==> Meets(StorageGeneration, v.slots, v.tally)
  {
    hide LINEAGES, Finish, Is, ACTIONS, ANYWHERE, CHANGE, STAGING, Shaped, RuntimeRefused, RetirementRefused, KeyOperands,
      SchemaRefused, BridgeRefused, PredecessorRefused, ClosureRefused, BASE, STAGING_LINEAGES, Companions, StorageKeys;
    var d, t := v.slots, v.tally;
    StandardFinishes(StorageGeneration, n, v);
    if BASE <= d.Keys {
      Words(n, d, t);
      StorageShaped(StorageGeneration, d, t);
      IsGiven(d, FreshLineage, "v2-0100-money-preserved");
      if Has(d, Generation) {
        StorageCount(n, d, t);
      }
      if Bare(d, t, StorageKeys(d)) && Has(d, Generation) && (Has(d, EpochDirectory) ==> Has(d, FreshLineage)) {
        StorageGates(StorageGeneration, n, d, t);
      }
      if Meets(StorageGeneration, d, t) {
        GenerationMeets(d, t);
      }
    }
  }

  lemma GenerationMeets(d: Slots, t: Tally)
    requires Meets(StorageGeneration, d, t)
    ensures t.deltaNames == 0 && t.scopes == 0 && (Has(d, EpochDirectory) ==> Is(d, FreshLineage, "v2-0100-money-preserved"))
    ensures Has(d, EpochDirectory) ==> Has(d, FreshLineage)
  {
    hide LINEAGES;
  }

  lemma FreshAccepted(n: nat, v: View)
    requires Left(n, v.slots, v.tally)
    ensures Finish(ProductionFreshInit, n, v).Some? <==> Meets(ProductionFreshInit, v.slots, v.tally)
  {
    hide Finish, Is, ACTIONS, ANYWHERE, CHANGE, Shaped, RuntimeRefused, RetirementRefused, KeyOperands, ClosureRefused, BASE,
      Companions, StorageKeys, Fields;
    var d, t := v.slots, v.tally;
    FreshFinishes(n, v);
    if BASE <= d.Keys {
      Words(n, d, t);
      if Has(d, FreshLineage) {
        Lineages(n, d, t);
      }
      StorageShaped(ProductionFreshInit, d, t);
      if Has(d, Generation) {
        StorageCount(n, d, t);
      }
      if Bare(d, t, StorageKeys(d)) && Has(d, Generation) && !Has(d, EpochDirectory) {
        StorageGates(ProductionFreshInit, n, d, t);
      }
      if Meets(ProductionFreshInit, d, t) {
        FreshMeets(d, t);
      }
    }
  }

  lemma FreshMeets(d: Slots, t: Tally)
    requires Meets(ProductionFreshInit, d, t)
    ensures t.deltaNames == 0 && t.scopes == 0
  {
    hide LINEAGES, Is;
  }

  /** Of the lineages, production takes those that are not of staging. */
  lemma Lineages(n: nat, d: Slots, t: Tally)
    requires Left(n, d, t) && Has(d, FreshLineage)
    ensures d[FreshLineage] in STAGING_LINEAGES <==> d[FreshLineage] !in {"v2-0088", "v2-0089"}
  {
  }

  lemma IsGiven(d: Slots, slot: Slot, value: string)
    ensures Is(d, slot, value) ==> Has(d, slot)
  {
  }

  // ----- The schema -----

  /** Whether the given migration may be named outside integration. */
  predicate Everywhere(d: Slots) {
    Has(d, ThroughMigration) && d[ThroughMigration] !in STAGING_ONLY_MIGRATIONS
  }

  lemma MigrationGates(n: nat, d: Slots)
    ensures !SchemaRefused(D1Schema, n, d) <==>
            !Has(d, ProtectedReference) && (Is(d, Environment, "integration") || Everywhere(d))
  {
    hide Is;
  }

  lemma SchemaCount(n: nat, d: Slots, t: Tally, runtime: Slot)
    requires Left(n, d, t) && BASE <= d.Keys && Has(d, ThroughMigration) && Has(d, runtime) && runtime in RUNTIME
    ensures n == 6 <==> Bare(d, t, {ThroughMigration, runtime})
  {
    assert |BASE + {ThroughMigration, runtime}| == 5;
    ExactCount(n, d, t, {ThroughMigration, runtime}, 5);
  }

  lemma SchemaFew(d: Slots, t: Tally)
    requires BASE <= d.Keys && Shaped(D1Schema, d) && !(Has(d, RegisterRuntime) && Has(d, FinalizeRuntime))
    ensures |d| <= 5
    ensures t.deltaNames == 0 && t.scopes == 0 && Has(d, ThroughMigration) && Has(d, RegisterRuntime) ==>
              Bare(d, t, {ThroughMigration, RegisterRuntime})
    ensures t.deltaNames == 0 && t.scopes == 0 && Has(d, ThroughMigration) && Has(d, FinalizeRuntime) ==>
              Bare(d, t, {ThroughMigration, FinalizeRuntime})
  {
    var keys := BASE + {ThroughMigration, if Has(d, RegisterRuntime) then RegisterRuntime else FinalizeRuntime};
    assert |keys| == 5;
    Sizes(d, keys);
  }

  lemma SchemaFirst(n: nat, d: Slots, t: Tally)
    ensures PastFirst(D1Schema, n, d) && KeyOperands(d, t) == 0 <==>
              BASE <= d.Keys && !RuntimeRefused(D1Schema, n, d) && !Has(d, RetiredTarget) && !Has(d, RetiredDeployment) &&
              !Has(d, RetiredVersion) && !Has(d, Generation) && !Has(d, FreshLineage) && !Has(d, EpochDirectory) &&
              !Has(d, Organization) && !Has(d, KeyName) && !Has(d, ExpiresInDays) && !Has(d, KeyId) && t.scopes == 0 &&
              (Has(d, RebindDatabase) <==> Has(d, RebindBucket))
  {
    hide RuntimeRefused, RetirementRefused, StorageRefused, KeyOperands;
    RetirementGate(D1Schema, n, d);
    StorageGate(D1Schema, n, d);
    KeyGate(d, t);
  }

  lemma SchemaLast(n: nat, d: Slots, t: Tally)
    requires Left(n, d, t) && BASE <= d.Keys && !Has(d, EpochDirectory) && (Has(d, RebindDatabase) <==> Has(d, RebindBucket))
    ensures !ClosureRefused(D1Schema, n, d, t) && !BridgeRefused(D1Schema, d) && !PredecessorRefused(D1Schema, d) &&
            !Is(d, Action, "mint") <==>
              (Is(d, Action, "status") || Is(d, Action, "apply")) && t.deltaNames == 0 && n <= 6 &&
              !Has(d, LegacyPredecessor) && !Has(d, LegacyHostPredecessor) && !Has(d, ClosurePredecessor) &&
              !Has(d, UnattributedSuccessor) && !Has(d, ScopeTransition) && !Has(d, AdoptLive) && !Has(d, VerifierBridge) &&
              !Has(d, ProbePredecessor) && !Has(d, Reverse) && !Has(d, RebindDatabase)
  {
    hide LINEAGES, Is, ACTIONS, ANYWHERE, CHANGE, STAGING, REHEARSAL, SERVED;
    Words(n, d, t);
  }

  lemma SchemaAccepted(n: nat, v: View)
    requires Left(n, v.slots, v.tally)
    ensures Finish(D1Schema, n, v).Some? <==> Meets(D1Schema, v.slots, v.tally)
  {
    hide LINEAGES, Finish, Is, ACTIONS, ANYWHERE, CHANGE, STAGING, Shaped, PastFirst, KeyOperands, SchemaRefused, BASE,
      LATE_MIGRATIONS, STAGING_ONLY_MIGRATIONS, ClosureRefused, BridgeRefused, PredecessorRefused;
    var d, t := v.slots, v.tally;
    StandardFinishes(D1Schema, n, v);
    SchemaFirst(n, d, t);
    MigrationGates(n, d);
    IsGiven(d, ThroughMigration, "0103");
    if BASE <= d.Keys {
      Words(n, d, t);
      ShapedAtAll(D1Schema, d);
      if !Has(d, EpochDirectory) && (Has(d, RebindDatabase) <==> Has(d, RebindBucket)) {
        SchemaLast(n, d, t);
      }
      if Has(d, ThroughMigration) && Has(d, RegisterRuntime) {
        SchemaCount(n, d, t, RegisterRuntime);
      }
      if Has(d, ThroughMigration) && Has(d, FinalizeRuntime) {
        SchemaCount(n, d, t, FinalizeRuntime);
      }
      if Shaped(D1Schema, d) {
        SchemaFew(d, t);
      }
    }
  }

  // ----- All of them -----

  const OWN_KIND := {D1Schema, WorkerBootstrap, OrganizationBootstrap, StorageDisposal, StorageGeneration}

  lemma LocalTerms(s: Surface)
    requires IsStandard(s) && s !in OWN_KIND
    ensures TermsOf(s).must + TermsOf(s).may <= LOCAL && s != OrgApiKey
  {
  }

  lemma MeetsPast(s: Surface, n: nat, d: Slots, t: Tally)
    requires IsStandard(s) && s !in OWN_KIND && Left(n, d, t) && Meets(s, d, t)
    ensures Past(n, d, t)
  {
    hide TermsOf, LOCAL, FOREIGN, LINEAGES, OWN_KIND, IsStandard, DeltaFits;
    LocalTerms(s);
    forall slot | slot in FOREIGN
      ensures slot !in d
    {
      ForeignApart(slot);
    }
  }

  lemma ForeignApart(slot: Slot)
    requires slot in FOREIGN
    ensures slot !in BASE && slot !in LOCAL
  {
  }

  lemma PastAccepted(s: Surface, n: nat, d: Slots, t: Tally)
    requires IsStandard(s) && s !in OWN_KIND && Past(n, d, t)
    ensures LastGates(s, n, d, t) <==> Meets(s, d, t)
  {
    hide Past, LastGates, Meets;
    match s
    case SchemaRehearsalBaseline => SchemaRehearsalBaselineAccepted(n, d, t);
    case Schema0058Rehearsal => Schema0058RehearsalAccepted(n, d, t);
    case AuthorityCutover => AuthorityCutoverAccepted(n, d, t);
    case SponsorshipAuthorityWorker => SponsorshipAuthorityWorkerAccepted(n, d, t);
    case FormAuthorityWorker => FormAuthorityWorkerAccepted(n, d, t);
    case IntegrationFormAuthorityWorker => IntegrationFormAuthorityWorkerAccepted(n, d, t);
    case IntegrationFormAuthorityOperatorWorker => IntegrationFormAuthorityOperatorWorkerAccepted(n, d, t);
    case FormAuthorityIdentityProbe => FormAuthorityIdentityProbeAccepted(n, d, t);
    case IntegrationFormAuthority => IntegrationFormAuthorityAccepted(n, d, t);
    case IntegrationFormAuthorityDeactivation => IntegrationFormAuthorityDeactivationAccepted(n, d, t);
    case E2eCredentials => E2eCredentialsAccepted(n, d, t);
    case SponsorshipRouteRetirement => SponsorshipRouteRetirementAccepted(n, d, t);
    case TopologyRetirement => TopologyRetirementAccepted(n, d, t);
    case TokenRetirement => TokenRetirementAccepted(n, d, t);
    case AttributionRepair => AttributionRepairAccepted(n, d, t);
    case Other(name) => OtherAccepted(name, n, d, t);
    case _ =>
  }

  lemma StandardAccepted(s: Surface, n: nat, v: View)
    requires IsStandard(s) && s !in OWN_KIND && Left(n, v.slots, v.tally)
    ensures Finish(s, n, v).Some? <==> Meets(s, v.slots, v.tally)
  {
    hide Finish, Meets, IsStandard, OWN_KIND, PastFirst, KeyOperands, ClosureRefused, SchemaRefused, BridgeRefused,
      PredecessorRefused, FOREIGN, LINEAGES, Is;
    var d, t := v.slots, v.tally;
    StandardFinishes(s, n, v);
    FirstFor(s, n, d, t);
    if Past(n, d, t) {
      PastAccepted(s, n, d, t);
    } else if Meets(s, d, t) {
      MeetsPast(s, n, d, t);
    }
  }

  lemma FirstFor(s: Surface, n: nat, d: Slots, t: Tally)
    requires IsStandard(s) && s !in OWN_KIND
    ensures PastFirst(s, n, d) && KeyOperands(d, t) == 0 <==>
            BASE <= d.Keys && Free(d, FOREIGN) && t.scopes == 0 && (Has(d, RebindDatabase) <==> Has(d, RebindBucket))
  {
    hide PastFirst, KeyOperands, FOREIGN;
    FirstGates(s, n, d, t);
  }

  /** What the gates let through, surface by surface: exactly what meets its terms. */
  lemma SurfaceAccepted(s: Surface, n: nat, v: View)
    requires Left(n, v.slots, v.tally)
    ensures Finish(s, n, v).Some? <==> Meets(s, v.slots, v.tally)
  {
    hide Finish, Meets, Left, OWN_KIND;
    if s == HostRetirement {
      HostAccepted(n, v);
    } else if s == ProductionFreshInit {
      FreshAccepted(n, v);
    } else if s == OrgApiKey {
      KeyAccepted(n, v);
    } else if s == OperatorIdentity || s == IntegrationOperatorIdentity {
      IdentityAccepted(s, n, v);
    } else if PlainEnvironment(s).Some? {
      PlainAccepted(s, n, v);
    } else if s == D1Schema {
      SchemaAccepted(n, v);
    } else if s == WorkerBootstrap {
      BootstrapAccepted(n, v);
    } else if s == OrganizationBootstrap || s == StorageDisposal {
      ResetAccepted(s, n, v);
    } else if s == StorageGeneration {
      GenerationAccepted(n, v);
    } else {
      assert s !in OWN_KIND by {
        OwnKinds(s);
      }
      StandardAccepted(s, n, v);
    }
  }

  lemma OwnKinds(s: Surface)
    ensures s in OWN_KIND <==>
            s in {D1Schema, WorkerBootstrap, OrganizationBootstrap, StorageDisposal} || s == StorageGeneration
  {
  }

  // ----- On the flags -----

  /** The names given for closure lists, and the scopes, in order. */
  function Named(fs: seq<Flag>): seq<string> {
    if fs == [] then [] else (if fs[0].Name? then [fs[0].name] else []) + Named(fs[1..])
  }

  function Scoped(fs: seq<Flag>): seq<string> {
    if fs == [] then [] else (if fs[0].Scope? then [fs[0].scope] else []) + Scoped(fs[1..])
  }

  function ServiceBindings(fs: seq<Flag>): nat {
    if fs == [] then 0
    else (if fs[0].Name? && fs[0].kind == RefreshServiceBinding then 1 else 0) + ServiceBindings(fs[1..])
  }

  function SlotsOf(fs: seq<Flag>): Slots {
    if fs == [] then map[]
    else if fs[0].Set? then SlotsOf(fs[1..])[fs[0].slot := fs[0].value]
    else SlotsOf(fs[1..])
  }

  function TallyOf(fs: seq<Flag>): Tally {
    Tally(|Named(fs)|, |set name | name in Named(fs)| == |Named(fs)|, ServiceBindings(fs), |Scoped(fs)|)
  }

  /** Actions, environments and lineages read only as the words there are. */
  predicate Readable(fs: seq<Flag>) {
    forall f | f in fs && f.Set? ::
      (f.slot == Action ==> f.value in ACTIONS) && (f.slot == Environment ==> f.value in ANYWHERE) &&
      (f.slot == FreshLineage ==> f.value in LINEAGES)
  }

  lemma NamesAmong(d: Draft, x: string)
    ensures x in DeltaNames(d) <==> exists k :: x in NamesOf(d, k)
  {
    hide NamesOf;
    if k :| x in NamesOf(d, k) {
      NameAmong(d, k, x);
    }
  }

  lemma TakenName(d: Draft, kind: Kind, name: string)
    ensures var e := Take(d, Name(kind, name)).value;
            |DeltaNames(e)| == |DeltaNames(d)| + 1 && (forall x :: x in DeltaNames(e) <==> x in DeltaNames(d) || x == name) &&
            |NamesOf(e, RefreshServiceBinding)| ==
              |NamesOf(d, RefreshServiceBinding)| + if kind == RefreshServiceBinding then 1 else 0
  {
    hide NamesOf, DeltaNames;
    var e := Take(d, Name(kind, name)).value;
    NameCounts(d, kind, name);
    forall k
      ensures NamesOf(e, k) == NamesOf(d, k) + if k == kind then [name] else []
    {
      NamesTaken(d, kind, name, k);
    }
    forall x
      ensures x in DeltaNames(e) <==> x in DeltaNames(d) || x == name
    {
      NamesAmong(d, x);
      NamesAmong(e, x);
      assert x in NamesOf(e, kind) <==> x in NamesOf(d, kind) || x == name;
    }
  }

  lemma {:induction false} TakenLists(d: Draft, fs: seq<Flag>)
    requires TakeAll(d, fs).Some?
    ensures var e := TakeAll(d, fs).value;
            |DeltaNames(e)| == |DeltaNames(d)| + |Named(fs)| && e.scopes == d.scopes + Scoped(fs) &&
            (forall x :: x in DeltaNames(e) <==> x in DeltaNames(d) || x in Named(fs)) &&
            |NamesOf(e, RefreshServiceBinding)| == |NamesOf(d, RefreshServiceBinding)| + ServiceBindings(fs)
    decreases |fs|
  {
    hide DeltaNames, NamesOf, Take;
    if fs != [] {
      var f, rest := fs[0], fs[1..];
      TakenLists(Take(d, f).value, rest);
      if f.Name? {
        TakenName(d, f.kind, f.name);
        NameKeepsScopes(d, f);
        assert Named(fs) == [f.name] + Named(rest);
      } else {
        SameLists(d, f);
        assert Named(fs) == Named(rest);
      }
    }
  }

  lemma NameKeepsScopes(d: Draft, f: Flag)
    requires f.Name?
    ensures Take(d, f).Some? && Take(d, f).value.scopes == d.scopes
  {
  }

  lemma SameLists(d: Draft, f: Flag)
    requires Take(d, f).Some? && !f.Name?
    ensures DeltaNames(Take(d, f).value) == DeltaNames(d)
    ensures NamesOf(Take(d, f).value, RefreshServiceBinding) == NamesOf(d, RefreshServiceBinding)
    ensures Take(d, f).value.scopes == d.scopes + if f.Scope? then [f.scope] else []
  {
  }

  lemma {:induction false} SlotsSaid(fs: seq<Flag>, slot: Slot)
    requires Acceptable(fs)
    ensures slot in SlotsOf(fs) <==> exists f | f in fs :: f.Set? && f.slot == slot
    ensures forall f | f in fs && f.Set? && f.slot == slot :: Is(SlotsOf(fs), slot, f.value)
  {
    hide Acceptable;
    if fs != [] {
      AcceptableRest(fs);
      SlotsSaid(fs[1..], slot);
      forall f
        ensures f in fs <==> f == fs[0] || f in fs[1..]
      {
        assert fs == [fs[0]] + fs[1..];
      }
    }
  }

  lemma AcceptableRest(fs: seq<Flag>)
    requires Acceptable(fs) && fs != []
    ensures Acceptable(fs[1..])
    ensures fs[0].Set? ==> forall f | f in fs[1..] && f.Set? :: f.slot != fs[0].slot
  {
    forall f | f in fs[1..] && f.Set? && fs[0].Set?
      ensures f.slot != fs[0].slot
    {
      var j :| 0 <= j < |fs[1..]| && fs[1..][j] == f;
      assert !Clash(fs[0], fs[j + 1]);
    }
  }

  /** What the flags leave the parser with. */
  lemma FlagsLeave(fs: seq<Flag>, d: Draft)
    requires TakeAll(EMPTY, fs) == Some(d) && Acceptable(fs) && Drafted(d, fs) && Readable(fs)
    ensures d.slots == SlotsOf(fs) && Count(d) == TallyOf(fs) && Left(|fs| + 1, d.slots, Count(d))
  {
    hide TakeAll, Acceptable, Count, TallyOf, SlotsOf, LINEAGES, ACTIONS, ANYWHERE, Excludes, Drafted, Readable;
    SlotsMatch(fs, d);
    TallyMatches(fs, d);
    SizeLeft(fs, d);
    Unclashed(fs, d);
    Pairs(d.slots);
    Worded(fs, d);
  }

  lemma SlotsMatch(fs: seq<Flag>, d: Draft)
    requires Acceptable(fs) && Drafted(d, fs)
    ensures d.slots == SlotsOf(fs)
  {
    hide Acceptable, SlotsOf;
    forall slot
      ensures slot in d.slots <==> slot in SlotsOf(fs)
      ensures slot in d.slots ==> d.slots[slot] == SlotsOf(fs)[slot]
    {
      SlotsSaid(fs, slot);
      if slot in d.slots {
        var f :| f in fs && f.Set? && f.slot == slot;
        assert Is(d.slots, f.slot, f.value);
      }
    }
  }

  lemma TallyMatches(fs: seq<Flag>, d: Draft)
    requires TakeAll(EMPTY, fs) == Some(d)
    ensures Count(d) == TallyOf(fs)
  {
    hide TakeAll, DeltaNames, NamesOf, Named, Scoped, ServiceBindings;
    TakenLists(EMPTY, fs);
    NothingNamed();
    assert (set name | name in DeltaNames(d)) == (set name | name in Named(fs));
  }

  lemma SizeLeft(fs: seq<Flag>, d: Draft)
    requires TakeAll(EMPTY, fs) == Some(d)
    ensures |fs| == |d.slots| + Count(d).deltaNames + Count(d).scopes && Count(d).serviceBindings <= Count(d).deltaNames
  {
    hide TakeAll, DeltaNames, NamesOf;
    TakeAllCounts(EMPTY, fs);
    Nothing();
    ServiceAmong(d);
  }

  lemma Pairs(d: Slots)
    requires forall a, b | Has(d, a) && Has(d, b) && a != b :: !Excludes(a, b)
    ensures !(Has(d, RegisterRuntime) && Has(d, FinalizeRuntime)) && !(Has(d, LegacyPredecessor) && Has(d, LegacyHostPredecessor))
    ensures !(Has(d, LegacyPredecessor) && Has(d, ClosurePredecessor))
    ensures !(Has(d, LegacyHostPredecessor) && Has(d, ClosurePredecessor))
  {
    assert Excludes(RegisterRuntime, FinalizeRuntime) && Excludes(LegacyPredecessor, LegacyHostPredecessor);
    assert Excludes(LegacyPredecessor, ClosurePredecessor) && Excludes(LegacyHostPredecessor, ClosurePredecessor);
  }

  lemma NothingNamed()
    ensures DeltaNames(EMPTY) == [] && NamesOf(EMPTY, RefreshServiceBinding) == []
  {
  }

  lemma ServiceAmong(d: Draft)
    ensures |NamesOf(d, RefreshServiceBinding)| <= |DeltaNames(d)|
  {
  }

  lemma Unclashed(fs: seq<Flag>, d: Draft)
    requires Acceptable(fs) && Drafted(d, fs)
    ensures forall a, b | Has(d.slots, a) && Has(d.slots, b) && a != b :: !Excludes(a, b)
  {
    hide Excludes;
    forall a, b | Has(d.slots, a) && Has(d.slots, b) && a != b
      ensures !Excludes(a, b)
    {
      var f :| f in fs && f.Set? && f.slot == a;
      var g :| g in fs && g.Set? && g.slot == b;
      var i :| 0 <= i < |fs| && fs[i] == f;
      var j :| 0 <= j < |fs| && fs[j] == g;
      assert !Clash(fs[if i < j then i else j], fs[if i < j then j else i]);
      ExcludesBoth(a, b);
    }
  }

  lemma ExcludesBoth(a: Slot, b: Slot)
    ensures Excludes(a, b) == Excludes(b, a)
  {
  }

  lemma Worded(fs: seq<Flag>, d: Draft)
    requires Drafted(d, fs) && Readable(fs)
    ensures Has(d.slots, Action) ==> d.slots[Action] in ACTIONS
    ensures Has(d.slots, Environment) ==> d.slots[Environment] in ANYWHERE
    ensures Has(d.slots, FreshLineage) ==> d.slots[FreshLineage] in LINEAGES
  {
    hide LINEAGES, ACTIONS, ANYWHERE;
    forall slot | slot in d.slots
      ensures exists f | f in fs :: f == Set(slot, d.slots[slot])
    {
      var f :| f in fs && f.Set? && f.slot == slot;
      assert Is(d.slots, f.slot, f.value);
    }
  }

  lemma NotTooMany(s: Surface, n: nat, v: View)
    requires Left(n, v.slots, v.tally) && Finish(s, n, v).Some?
    ensures 4 <= n <= 41
  {
    hide Finish, Meets, LINEAGES;
    SurfaceAccepted(s, n, v);
    var d, t := v.slots, v.tally;
    assert BASE <= d.Keys by {
      MeetsBase(s, d, t);
    }
    assert |BASE| == 3;
    Sizes(d, BASE);
    if IsStandard(s) {
      StandardFinishes(s, n, v);
    } else {
      SpecialFew(s, n, d, t);
    }
  }

  lemma MeetsBase(s: Surface, d: Slots, t: Tally)
    requires Meets(s, d, t)
    ensures BASE <= d.Keys
  {
  }

  /** The other surfaces take few flags. */
  lemma SpecialFew(s: Surface, n: nat, d: Slots, t: Tally)
    requires Left(n, d, t) && Meets(s, d, t) && !IsStandard(s)
    ensures n <= 41
  {
    hide Is, LINEAGES, ACTIONS, ANYWHERE, TermsOf, IsStandard, BASE, KEY_FLAGS, HOST_FLAGS, FRESH_FLAGS, Companions;
    SpecialTerms(s);
    SpecialSizes(d);
  }

  lemma SpecialSizes(d: Slots)
    ensures d.Keys <= BASE + KEY_FLAGS ==> |d| <= 8 && !Has(d, ClosurePredecessor)
    ensures d.Keys <= BASE + HOST_FLAGS ==> |d| <= 8 && !Has(d, ClosurePredecessor)
    ensures d.Keys <= BASE + FRESH_FLAGS ==> |d| <= 8 && !Has(d, ClosurePredecessor)
  {
    hide BASE, KEY_FLAGS, HOST_FLAGS, FRESH_FLAGS;
    KeySize();
    HostSize();
    FreshSize();
    Sizes(d, BASE + KEY_FLAGS);
    Sizes(d, BASE + HOST_FLAGS);
    Sizes(d, BASE + FRESH_FLAGS);
  }

  lemma KeySize()
    ensures |BASE + KEY_FLAGS| == 8 && ClosurePredecessor !in BASE + KEY_FLAGS
  {
  }

  lemma HostSize()
    ensures |BASE + HOST_FLAGS| == 6 && ClosurePredecessor !in BASE + HOST_FLAGS
  {
  }

  lemma FreshSize()
    ensures |BASE + FRESH_FLAGS| == 5 && ClosurePredecessor !in BASE + FRESH_FLAGS
  {
  }

  const KEY_FLAGS := {Organization, KeyName, ExpiresInDays, KeyId, ProtectedReference}
  const HOST_FLAGS := {RetiredTarget, RetiredDeployment, RetiredVersion}
  const FRESH_FLAGS := {Generation, FreshLineage}

  lemma SpecialTerms(s: Surface)
    requires !IsStandard(s)
    ensures TermsOf(s).must + TermsOf(s).may <= KEY_FLAGS || TermsOf(s).must + TermsOf(s).may <= HOST_FLAGS ||
            TermsOf(s).must + TermsOf(s).may <= FRESH_FLAGS
  {
    if PlainEnvironment(s).Some? {
      PlainTerms(s);
    }
  }

  /** No flag is malformed, none is given twice, and there is at most one
      predecessor and one runtime flag. */
  predicate StandTogether(fs: seq<Flag>) {
    && Bad !in fs
    && (forall i, j | 0 <= i < j < |fs| && fs[i].Set? && fs[j].Set? :: !SameChoice(fs[i].slot, fs[j].slot))
    && (forall i, j | 0 <= i < j < |fs| && fs[i].Scope? && fs[j].Scope? :: fs[i].scope != fs[j].scope)
  }

  predicate SameChoice(a: Slot, b: Slot) {
    || a == b
    || {a, b} == {RegisterRuntime, FinalizeRuntime}
    || {a, b} <= {LegacyPredecessor, LegacyHostPredecessor, ClosurePredecessor}
  }

  lemma StandTogetherExactly(fs: seq<Flag>)
    ensures Acceptable(fs) <==> StandTogether(fs)
  {
    hide SameChoice, Excludes;
    forall a, b
      ensures Excludes(a, b) <==> SameChoice(a, b)
    {
      SameChoiceExactly(a, b);
    }
  }

  lemma SameChoiceExactly(a: Slot, b: Slot)
    ensures Excludes(a, b) <==> SameChoice(a, b)
  {
    assert a in {a, b} && b in {a, b};
  }

  /** A command line is accepted exactly when its flags are well formed and do not
      clash, and they meet the terms of its surface. */
  lemma AcceptedExactly(s: Surface, fs: seq<Flag>)
    requires Readable(fs)
    ensures Parse(s, fs).Some? <==> StandTogether(fs) && Meets(s, SlotsOf(fs), TallyOf(fs))
  {
    StandTogetherExactly(fs);
    hide StandTogether, TakeAll, Finish, Acceptable, Meets, Readable, SlotsOf, TallyOf, Left, Drafted, Count, DeltaOf, Sort;
    FlagsTaken(fs);
    if Acceptable(fs) {
      var d := TakeAll(EMPTY, fs).value;
      FlagsLeave(fs, d);
      ViewSlots(d);
      SurfaceAccepted(s, |fs| + 1, ViewOf(d));
      if Finish(s, |fs| + 1, ViewOf(d)).Some? {
        NotTooMany(s, |fs| + 1, ViewOf(d));
      }
    }
  }
}
