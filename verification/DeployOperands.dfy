/** What becomes of the operands of an accepted deploy invocation. */
module DeployOperands {
  import opened Values
  import opened Sorting
  import opened DeployFlags

  // ----- Nothing given is ignored -----

  predicate IsKeySurface(s: Surface) {
    s == OrgApiKey || s == OperatorIdentity || s == IntegrationOperatorIdentity
  }

  const LINEAGES := STAGING_LINEAGES + {"v2-0088", "v2-0089"}

  /** A lineage flag reads only as one of the seven lineages. */
  predicate WellRead(fs: seq<Flag>) {
    forall f | f in fs && f.Set? && f.slot == FreshLineage :: f.value in LINEAGES
  }

  /** The invocation carries what the flag said. */
  predicate Carries(inv: Invocation, f: Flag) {
    match f
    case Set(slot, value) =>
      || Is(inv.fields, slot, value)
      || (inv.delta.Some? && inv.delta.value.rebind.Some? &&
          ((slot == RebindDatabase && value == inv.delta.value.rebind.value.0) ||
           (slot == RebindBucket && value == inv.delta.value.rebind.value.1)))
    case Name(kind, name) => inv.delta.Some? && kind in inv.delta.value.lists && name in inv.delta.value.lists[kind]
    case Scope(scope) => scope in inv.scopes
    case Bad => false
  }

  /** Every flag taken is one slot, one name or one scope. */
  function Size(d: Draft): nat {
    |d.slots| + |DeltaNames(d)| + |d.scopes|
  }

  lemma TakeCounts(d: Draft, f: Flag)
    requires Take(d, f).Some?
    ensures Size(Take(d, f).value) == Size(d) + 1
  {
    if f.Set? {
      assert Excludes(f.slot, f.slot);
      assert f.slot !in d.slots;
      assert DeltaNames(Take(d, f).value) == DeltaNames(d);
    } else if f.Name? {
      NameCounts(d, f.kind, f.name);
    } else {
      assert DeltaNames(Take(d, f).value) == DeltaNames(d);
    }
  }

  lemma NameCounts(d: Draft, kind: Kind, name: string)
    ensures |DeltaNames(Take(d, Name(kind, name)).value)| == |DeltaNames(d)| + 1
  {
    hide NamesOf;
    forall k
      ensures |NamesOf(Take(d, Name(kind, name)).value, k)| == |NamesOf(d, k)| + if k == kind then 1 else 0
    {
      NamesTaken(d, kind, name, k);
    }
  }

  lemma {:induction false} TakeAllCounts(d: Draft, fs: seq<Flag>)
    requires TakeAll(d, fs).Some?
    ensures Size(TakeAll(d, fs).value) == Size(d) + |fs|
    decreases |fs|
  {
    hide Take, Size;
    if fs != [] {
      TakeCounts(d, fs[0]);
      TakeAllCounts(Take(d, fs[0]).value, fs[1..]);
    }
  }

  /** When the count leaves room for nothing else, there is nothing else. */
  lemma NothingElse(d: Draft, keys: set<Slot>)
    requires keys <= d.slots.Keys && Size(d) <= |keys|
    ensures d.slots.Keys == keys && DeltaNames(d) == [] && d.scopes == []
  {
    assert |d.slots| == |d.slots.Keys|;
    if keys != d.slots.Keys {
      Fewer(keys, d.slots.Keys);
    } else {
      assert |d.slots| == |keys|;
    }
    Fewer(keys, d.slots.Keys);
  }

  lemma Fewer(a: set<Slot>, b: set<Slot>)
    requires a <= b
    ensures |a| <= |b| && (a != b ==> |a| < |b|)
  {
    var rest := b - a;
    assert b == a + rest;
    if a != b {
      assert rest != {};
    }
  }

  /** The one operand that can get lost: no gate before the key surfaces' early
      return looks at it. */
  predicate Ignored(s: Surface, slot: Slot) {
    slot == ProtectedReference && IsKeySurface(s)
  }

  /** A slot of the draft is in the invocation, directly or in its storage rebind. */
  predicate Kept(inv: Invocation, d: Draft, slot: Slot)
    requires slot in d.slots
  {
    Carries(inv, Set(slot, d.slots[slot]))
  }

  predicate GoodLineage(d: Draft) {
    Has(d.slots, FreshLineage) ==> d.slots[FreshLineage] in LINEAGES
  }

  /** The surfaces that ask for an exact number of flags. */
  lemma HostKept(d: Draft, slot: Slot)
    requires Finish(HostRetirement, Size(d) + 1, ViewOf(d)).Some? && slot in d.slots
    ensures Kept(Finish(HostRetirement, Size(d) + 1, ViewOf(d)).value, d, slot) && DeltaNames(d) == [] && d.scopes == []
  {
    hide Size, Count, DeltaOf, Sort, DeltaNames, Finish;
    HostFinish(Size(d) + 1, ViewOf(d));
    var keys := BASE + {RetiredTarget, RetiredDeployment, RetiredVersion};
    assert |keys| == 6;
    NothingElse(d, keys);
    FieldsKept(d.slots, keys, slot);
  }

  lemma HostFinish(n: nat, v: View)
    requires Finish(HostRetirement, n, v).Some?
    ensures n == 7 && BASE + {RetiredTarget, RetiredDeployment, RetiredVersion} <= v.slots.Keys
    ensures Finish(HostRetirement, n, v).value.fields ==
            Fields(v.slots, BASE + {RetiredTarget, RetiredDeployment, RetiredVersion})
  {
    hide RuntimeRefused, StatusOrApply, Is, Fields;
  }

  lemma FieldsKept(d: Slots, keep: set<Slot>, slot: Slot)
    requires slot in d && slot in keep
    ensures Is(Fields(d, keep), slot, d[slot])
  {
  }

  lemma PlainKept(s: Surface, d: Draft, slot: Slot)
    requires PlainEnvironment(s).Some? && Finish(s, Size(d) + 1, ViewOf(d)).Some? && slot in d.slots
    ensures Kept(Finish(s, Size(d) + 1, ViewOf(d)).value, d, slot) && DeltaNames(d) == [] && d.scopes == []
  {
    hide Size, RuntimeRefused, RetirementRefused, BootstrapRefused, StorageRefused, Count, DeltaOf, Sort, DeltaNames,
      StatusOrApply, Is, KeyOperands;
    assert |BASE| == 3;
    NothingElse(d, BASE);
    FieldsKept(d.slots, BASE, slot);
  }

  lemma FreshKept(d: Draft, slot: Slot)
    requires Finish(ProductionFreshInit, Size(d) + 1, ViewOf(d)).Some? && slot in d.slots && GoodLineage(d)
    ensures Kept(Finish(ProductionFreshInit, Size(d) + 1, ViewOf(d)).value, d, slot) && DeltaNames(d) == [] && d.scopes == []
  {
    hide Size, Count, DeltaOf, Sort, DeltaNames, FreshInit, StorageRefused, Finish, LINEAGES;
    var n := Size(d) + 1;
    FreshFinish(n, ViewOf(d));
    FreshFields(n, d.slots);
    var keys := BASE + {Generation} + (if Has(d.slots, FreshLineage) then {FreshLineage} else {});
    assert |keys| == if Has(d.slots, FreshLineage) then 5 else 4;
    NothingElse(d, keys);
    FieldsKept(d.slots, keys, slot);
  }

  lemma FreshFinish(n: nat, v: View)
    requires Finish(ProductionFreshInit, n, v).Some?
    ensures !StorageRefused(ProductionFreshInit, n, v.slots) && FreshInit(n, v.slots) == Finish(ProductionFreshInit, n, v)
    ensures BASE <= v.slots.Keys
  {
    hide RuntimeRefused, RetirementRefused, BootstrapRefused, StorageRefused, FreshInit;
  }

  lemma FreshFields(n: nat, d: Slots)
    requires FreshInit(n, d).Some? && !StorageRefused(ProductionFreshInit, n, d)
    requires Has(d, FreshLineage) ==> d[FreshLineage] in LINEAGES
    ensures Has(d, Generation) && n == if Has(d, FreshLineage) then 6 else 5
    ensures FreshInit(n, d).value.fields ==
            Fields(d, BASE + {Generation} + (if Has(d, FreshLineage) then {FreshLineage} else {}))
  {
    hide StatusOrApply, Fields;
  }

  /** What no gate lets through, on any surface but these. */
  lemma StorageOperands(s: Surface, n: nat, v: View)
    requires Finish(s, n, v).Some? && s !in {HostRetirement, ProductionFreshInit, StorageGeneration}
    ensures v.slots.Keys !! {RetiredTarget, RetiredDeployment, RetiredVersion, Generation, FreshLineage, EpochDirectory}
    ensures v.slots.Keys !! {RegisterRuntime, FinalizeRuntime} || s == D1Schema
    ensures RepairMoney !in v.slots || s == WorkerBootstrap
    ensures Has(v.slots, RebindDatabase) == Has(v.slots, RebindBucket)
  {
    hide BootstrapRefused, Standard, ApiKey, Identity, FreshInit, KeyOperands;
  }

  lemma ApiKeyKept(n: nat, d: Draft, slot: Slot)
    requires Finish(OrgApiKey, n, ViewOf(d)).Some? && slot in d.slots
    ensures Kept(Finish(OrgApiKey, n, ViewOf(d)).value, d, slot) <==> slot != ProtectedReference
    ensures DeltaNames(d) == [] && Finish(OrgApiKey, n, ViewOf(d)).value.scopes == Sort(d.scopes)
  {
    StorageOperands(OrgApiKey, n, ViewOf(d));
    hide RuntimeRefused, RetirementRefused, BootstrapRefused, StorageRefused, DeltaOf, Sort, Is, DeltaNames, Fields;
    var keep := BASE + {Organization, KeyName, ExpiresInDays, KeyId};
    assert Finish(OrgApiKey, n, ViewOf(d)).value.fields == Fields(d.slots, keep);
    OnlyFields(d.slots, keep, slot);
    hide KeyOperands;
  }

  lemma OnlyFields(d: Slots, keep: set<Slot>, slot: Slot)
    requires slot in d
    ensures Is(Fields(d, keep), slot, d[slot]) <==> slot in keep
  {
  }

  lemma IdentityKept(s: Surface, n: nat, d: Draft, slot: Slot)
    requires (s == OperatorIdentity || s == IntegrationOperatorIdentity) && Finish(s, n, ViewOf(d)).Some? && slot in d.slots
    ensures Kept(Finish(s, n, ViewOf(d)).value, d, slot) <==> slot != ProtectedReference
    ensures DeltaNames(d) == [] && d.scopes == []
  {
    StorageOperands(s, n, ViewOf(d));
    hide RuntimeRefused, RetirementRefused, BootstrapRefused, StorageRefused, DeltaOf, Sort, Is, DeltaNames, Fields, KeyOperands;
    var keep := BASE + {Organization};
    assert Finish(s, n, ViewOf(d)).value.fields == Fields(d.slots, keep);
    OnlyFields(d.slots, keep, slot);
  }

  lemma StandardKept(s: Surface, n: nat, d: Draft, slot: Slot)
    requires Finish(s, n, ViewOf(d)).Some? && slot in d.slots
    requires s != HostRetirement && s != ProductionFreshInit && !IsKeySurface(s) && PlainEnvironment(s).None?
    ensures Kept(Finish(s, n, ViewOf(d)).value, d, slot)
    ensures d.scopes == [] && (DeltaNames(d) != [] ==> Finish(s, n, ViewOf(d)).value.delta == Some(DeltaOf(d)))
  {
    hide RuntimeRefused, BootstrapRefused, SchemaRefused, BridgeRefused, PredecessorRefused, Sort, StatusOrApply;
  }

  lemma NamesCarried(d: Draft, fs: seq<Flag>, inv: Invocation, k: Kind, name: string)
    requires Drafted(d, fs) && Name(k, name) in fs
    ensures name in DeltaNames(d) && k in DeltaOf(d).lists && name in DeltaOf(d).lists[k]
  {
    NameIn(fs, k, name);
    assert NamesOf(d, k) == NamesIn(fs, k);
    DeltaListed(d, fs, k);
    hide Sort, IsSorted, NamesIn, Drafted, DeltaOf;
    assert name in multiset(DeltaOf(d).lists[k]);
    NameAmong(d, k, name);
  }

  lemma NameAmong(d: Draft, k: Kind, name: string)
    requires name in NamesOf(d, k)
    ensures name in DeltaNames(d)
  {
  }

  lemma {:induction false} NameIn(fs: seq<Flag>, k: Kind, name: string)
    requires Name(k, name) in fs
    ensures name in NamesIn(fs, k)
  {
    var last := |fs| - 1;
    if fs[last] != Name(k, name) {
      assert fs == fs[..last] + [fs[last]];
      NameIn(fs[..last], k, name);
    }
  }

  lemma SlotKept(s: Surface, d: Draft, slot: Slot)
    requires Finish(s, Size(d) + 1, ViewOf(d)).Some? && slot in d.slots && GoodLineage(d)
    ensures Kept(Finish(s, Size(d) + 1, ViewOf(d)).value, d, slot) <==> !Ignored(s, slot)
  {
    hide Finish, Kept, ViewOf, Size, GoodLineage, Sort, DeltaNames, DeltaOf;
    var n := Size(d) + 1;
    assert PlainEnvironment(s).Some? ==> !IsKeySurface(s);
    if s == HostRetirement {
      HostKept(d, slot);
    } else if s == ProductionFreshInit {
      FreshKept(d, slot);
    } else if s == OrgApiKey {
      ApiKeyKept(n, d, slot);
    } else if IsKeySurface(s) {
      IdentityKept(s, n, d, slot);
    } else if PlainEnvironment(s).Some? {
      PlainKept(s, d, slot);
    } else {
      StandardKept(s, n, d, slot);
    }
  }

  /** Scopes go only to the key surface; names go only with a delta. */
  lemma ListsKept(s: Surface, d: Draft)
    requires Finish(s, Size(d) + 1, ViewOf(d)).Some? && GoodLineage(d)
    ensures var inv := Finish(s, Size(d) + 1, ViewOf(d)).value;
            (DeltaNames(d) != [] ==> inv.delta == Some(DeltaOf(d))) && (d.scopes != [] ==> inv.scopes == Sort(d.scopes))
  {
    hide Finish, Kept, ViewOf, Size, GoodLineage, Sort, DeltaNames, DeltaOf, PlainEnvironment;
    ViewSlots(d);
    HasAction(s, Size(d) + 1, ViewOf(d));
    var n := Size(d) + 1;
    if s == HostRetirement {
      HostKept(d, Action);
    } else if s == ProductionFreshInit {
      FreshKept(d, Action);
    } else if s == OrgApiKey {
      ApiKeyKept(n, d, Action);
    } else if IsKeySurface(s) {
      IdentityKept(s, n, d, Action);
    } else if PlainEnvironment(s).Some? {
      PlainKept(s, d, Action);
    } else {
      StandardKept(s, n, d, Action);
    }
  }

  lemma ViewSlots(d: Draft)
    ensures ViewOf(d).slots == d.slots
  {
  }

  lemma HasAction(s: Surface, n: nat, v: View)
    requires Finish(s, n, v).Some?
    ensures Action in v.slots
  {
    hide RuntimeRefused, RetirementRefused, BootstrapRefused, StorageRefused, Standard, ApiKey, Identity, FreshInit, KeyOperands;
  }

  /** No operand of an accepted invocation is silently dropped, whatever the surface,
      except a protected reference on a key or identity surface, which always is. */
  lemma NothingDropped(s: Surface, fs: seq<Flag>, f: Flag)
    requires Parse(s, fs).Some? && WellRead(fs) && f in fs
    ensures Carries(Parse(s, fs).value, f) <==> !(f.Set? && Ignored(s, f.slot))
  {
    hide TakeAll, Finish, Size, Count, DeltaOf, Sort, DeltaNames, IsSorted, Drafted, Acceptable, Kept, Carries, Ignored, ViewOf,
      WellRead, GoodLineage;
    FlagsTaken(fs);
    var d := TakeAll(EMPTY, fs).value;
    TakeAllCounts(EMPTY, fs);
    Nothing();
    LineageRead(d, fs);
    FlagCarried(s, d, fs, f);
  }

  lemma Nothing()
    ensures Size(EMPTY) == 0
  {
  }

  lemma LineageRead(d: Draft, fs: seq<Flag>)
    requires Drafted(d, fs) && WellRead(fs)
    ensures GoodLineage(d)
  {
    if FreshLineage in d.slots {
      var f :| f in fs && f.Set? && f.slot == FreshLineage;
      assert Is(d.slots, f.slot, f.value);
    }
  }

  lemma FlagCarried(s: Surface, d: Draft, fs: seq<Flag>, f: Flag)
    requires Drafted(d, fs) && Acceptable(fs) && f in fs && GoodLineage(d)
    requires Finish(s, Size(d) + 1, ViewOf(d)).Some?
    ensures Carries(Finish(s, Size(d) + 1, ViewOf(d)).value, f) <==> !(f.Set? && Ignored(s, f.slot))
  {
    hide Finish, Size, Count, DeltaOf, Sort, DeltaNames, IsSorted, ViewOf, GoodLineage, NamesIn, NamesOf;
    var inv := Finish(s, Size(d) + 1, ViewOf(d)).value;
    ListsKept(s, d);
    match f
    case Set(slot, value) =>
      assert Is(d.slots, slot, value);
      SlotKept(s, d, slot);
    case Name(k, name) => NamesCarried(d, fs, inv, k, name);
    case Scope(x) =>
      assert x in d.scopes;
      SortSorts(d.scopes);
      assert x in multiset(Sort(d.scopes));
    case Bad =>
  }

  const IGNORING := [
    Set(Action, "status"), Set(Environment, "integration"), Set(Commit, "0123456789abcdef0123456789abcdef01234567"),
    Set(Organization, "org_a"), Set(ProtectedReference, "production")]

  /** Such an invocation is accepted: the reference is read, and nothing comes of it. */
  lemma ProtectedReferenceIgnored()
    ensures Parse(OrgApiKey, IGNORING).Some? && Set(ProtectedReference, "production") in IGNORING
    ensures ProtectedReference !in Parse(OrgApiKey, IGNORING).value.fields
  {
    hide TakeAll, Finish, ViewOf, Acceptable, Drafted;
    IgnoringAcceptable();
    FlagsTaken(IGNORING);
    var d := TakeAll(EMPTY, IGNORING).value;
    IgnoringDraft(d);
    IgnoringAccepted(d);
    assert IGNORING[4] in IGNORING;
  }

  lemma HasMember(xs: seq<string>)
    requires xs != []
    ensures exists x :: x in xs
  {
    assert xs[0] in xs;
  }

  lemma IgnoringDistinct()
    ensures forall i, j | 0 <= i < j < |IGNORING| :: IGNORING[i].slot != IGNORING[j].slot
  {
    assert IGNORING[0].slot == Action && IGNORING[1].slot == Environment && IGNORING[2].slot == Commit;
    assert IGNORING[3].slot == Organization && IGNORING[4].slot == ProtectedReference;
  }

  lemma IgnoringAcceptable()
    ensures Acceptable(IGNORING)
  {
    hide IGNORING, IGNORING_SLOTS, Clash;
    IgnoringFlags();
    IgnoringDistinct();
    forall i, j | 0 <= i < j < |IGNORING|
      ensures !Clash(IGNORING[i], IGNORING[j])
    {
      assert IGNORING[i] in IGNORING && IGNORING[j] in IGNORING;
      Unclashing(IGNORING[i], IGNORING[j]);
    }
    assert Bad !in IGNORING;
  }

  lemma Unclashing(f: Flag, g: Flag)
    requires f.Set? && g.Set? && f.slot in IGNORING_SLOTS && f.slot != g.slot
    ensures !Clash(f, g)
  {
    hide Excludes;
    Unexcluding(f.slot, g.slot);
  }

  lemma Unexcluding(s: Slot, t: Slot)
    requires s in IGNORING_SLOTS && s != t
    ensures !Excludes(s, t)
  {
  }

  const IGNORING_SLOTS := {Action, Environment, Commit, Organization, ProtectedReference}

  lemma IgnoringFlags()
    ensures forall f | f in IGNORING :: f.Set? && f.slot in IGNORING_SLOTS
    ensures forall s | s in IGNORING_SLOTS :: exists f | f in IGNORING :: f.Set? && f.slot == s
    ensures Set(Action, "status") in IGNORING
  {
    assert IGNORING[0].slot == Action && IGNORING[1].slot == Environment && IGNORING[2].slot == Commit;
    assert IGNORING[3].slot == Organization && IGNORING[4].slot == ProtectedReference;
  }

  lemma IgnoringDraft(d: Draft)
    requires Drafted(d, IGNORING)
    ensures d.slots.Keys == IGNORING_SLOTS && d.slots[Action] == "status" && d.scopes == [] && DeltaNames(d) == []
  {
    hide IGNORING, IGNORING_SLOTS;
    IgnoringFlags();
    assert Is(d.slots, Action, "status");
    assert forall x :: x !in d.scopes;
    if d.scopes != [] {
      HasMember(d.scopes);
    }
    forall k
      ensures NamesOf(d, k) == []
    {
      NoNames(IGNORING, k);
    }
  }

  lemma IgnoringGates(d: Slots, t: Tally)
    requires d.Keys == IGNORING_SLOTS && t.deltaNames == 0 && t.scopes == 0
    ensures !RuntimeRefused(OrgApiKey, 6, d) && !RetirementRefused(OrgApiKey, 6, d) && !BootstrapRefused(OrgApiKey, 6, d)
    ensures !StorageRefused(OrgApiKey, 6, d) && !CarriesTransition(d, t) && KeyOperands(d, t) == 1
  {
    hide Is, StatusOrApply;
    forall s
      ensures Has(d, s) <==> s in IGNORING_SLOTS
    {
    }
  }

  lemma IgnoringAccepted(d: Draft)
    requires d.slots.Keys == IGNORING_SLOTS && d.slots[Action] == "status" && d.scopes == [] && DeltaNames(d) == []
    ensures Finish(OrgApiKey, 6, ViewOf(d)).Some? && ProtectedReference !in Finish(OrgApiKey, 6, ViewOf(d)).value.fields
  {
    hide DeltaOf, Sort, DeltaNames, NamesOf, RuntimeRefused, RetirementRefused, BootstrapRefused, StorageRefused,
      CarriesTransition, KeyOperands;
    IgnoringGates(d.slots, Count(d));
    assert "status" != "mint" && "status"[0] != "revoke"[0];
  }

  lemma {:induction false} NoNames(fs: seq<Flag>, k: Kind)
    requires forall f | f in fs :: !f.Name?
    ensures NamesIn(fs, k) == []
  {
    if fs != [] {
      NoNames(fs[..|fs| - 1], k);
    }
  }

  // ----- What an accepted invocation can ask for -----

  const INTEGRATION_ONLY := {
    WorkerBootstrap, OrganizationBootstrap, HostRetirement, StorageDisposal, StorageGeneration, IntegrationOperatorIdentity,
    MoneyShadowCreate, MoneyShadowRehearsal, MoneyShadowNativeProbe, IntegrationFormAuthorityWorker,
    IntegrationFormAuthorityOperatorWorker, IntegrationFormAuthority, IntegrationFormAuthorityDeactivation, E2eCredentials}
  const REHEARSAL_ONLY := {
    RehearsalD1Create, MoneyCutoverRehearsal, SnapshotRestore, SchemaRehearsalBaseline, Schema0058Rehearsal}

  lemma IntegrationFenced(s: Surface, n: nat, v: View)
    requires Finish(s, n, v).Some? && s in INTEGRATION_ONLY
    ensures Is(v.slots, Environment, "integration")
  {
    hide RuntimeRefused, KeyOperands, CarriesTransition, Is, StatusOrApply, PredecessorRefused, SchemaRefused, ClosureRefused;
    if s in {WorkerBootstrap, OrganizationBootstrap, StorageDisposal, HostRetirement, StorageGeneration} {
      hide Standard;
    } else if s == IntegrationOperatorIdentity || PlainEnvironment(s).Some? {
      hide Standard, RetirementRefused, BootstrapRefused, StorageRefused;
    } else {
      hide RetirementRefused, BootstrapRefused, StorageRefused;
    }
  }

  lemma RehearsalFenced(s: Surface, n: nat, v: View)
    requires Finish(s, n, v).Some? && s in REHEARSAL_ONLY
    ensures Is(v.slots, Environment, "rehearsal")
  {
    hide RuntimeRefused, RetirementRefused, BootstrapRefused, StorageRefused, KeyOperands, CarriesTransition, Is, StatusOrApply,
      PredecessorRefused, ClosureRefused, BridgeRefused;
  }

  lemma RebindFenced(s: Surface, n: nat, v: View)
    requires Finish(s, n, v).Some? && Finish(s, n, v).value.delta.Some? && Has(v.slots, RebindDatabase)
    ensures s in REBINDS && Is(v.slots, Environment, "integration")
  {
    hide RuntimeRefused, RetirementRefused, BootstrapRefused, StorageRefused, KeyOperands, CarriesTransition, Is, StatusOrApply,
      PredecessorRefused, SchemaRefused, BridgeRefused;
  }

  /** What an accepted parse finished from: a slot holds a value exactly when its flag gave it. */
  lemma Parsed(s: Surface, fs: seq<Flag>) returns (d: Draft)
    requires Parse(s, fs).Some?
    ensures Finish(s, |fs| + 1, ViewOf(d)) == Parse(s, fs) && ViewOf(d).slots == d.slots
    ensures forall slot, x :: Is(d.slots, slot, x) <==> Set(slot, x) in fs
  {
    hide TakeAll, Finish, DeltaOf, NamesOf, Acceptable;
    FlagsTaken(fs);
    d := TakeAll(EMPTY, fs).value;
    forall slot, x
      ensures Is(d.slots, slot, x) <==> Set(slot, x) in fs
    {
      if Is(d.slots, slot, x) {
        var f :| f in fs && f.Set? && f.slot == slot;
        assert Is(d.slots, f.slot, f.value);
      }
    }
  }

  /** Each surface stays in its own environment, and so does a storage rebind. */
  lemma EnvironmentFenced(s: Surface, fs: seq<Flag>)
    requires Parse(s, fs).Some?
    ensures s in INTEGRATION_ONLY ==> Set(Environment, "integration") in fs
    ensures s in REHEARSAL_ONLY ==> Set(Environment, "rehearsal") in fs
    ensures s == ProductionFreshInit ==> Set(Environment, "production") in fs
    ensures Parse(s, fs).value.delta.Some? && (exists db :: Set(RebindDatabase, db) in fs) ==>
              s in REBINDS && Set(Environment, "integration") in fs
  {
    hide Parse, Finish, ViewOf, INTEGRATION_ONLY, REHEARSAL_ONLY, REBINDS;
    var d := Parsed(s, fs);
    ViewFenced(s, |fs| + 1, ViewOf(d));
    if db :| Set(RebindDatabase, db) in fs {
      assert Is(d.slots, RebindDatabase, db);
    }
  }

  lemma ViewFenced(s: Surface, n: nat, v: View)
    requires Finish(s, n, v).Some?
    ensures s in INTEGRATION_ONLY ==> Is(v.slots, Environment, "integration")
    ensures s in REHEARSAL_ONLY ==> Is(v.slots, Environment, "rehearsal")
    ensures s == ProductionFreshInit ==> Is(v.slots, Environment, "production")
    ensures Finish(s, n, v).value.delta.Some? && Has(v.slots, RebindDatabase) ==>
              s in REBINDS && Is(v.slots, Environment, "integration")
  {
    hide Finish, INTEGRATION_ONLY, REHEARSAL_ONLY, REBINDS;
    if s in INTEGRATION_ONLY {
      IntegrationFenced(s, n, v);
    }
    if s in REHEARSAL_ONLY {
      RehearsalFenced(s, n, v);
    }
    if s == ProductionFreshInit {
      FreshFinish(n, v);
    }
    if Finish(s, n, v).value.delta.Some? && Has(v.slots, RebindDatabase) {
      RebindFenced(s, n, v);
    }
  }

  /** Minting, issuing, revoking and applying belong to their surfaces. */
  lemma ActionFenced(s: Surface, fs: seq<Flag>)
    requires Parse(s, fs).Some?
    ensures Set(Action, "mint") in fs ==> s == OrgApiKey
    ensures Set(Action, "issue") in fs ==> s == E2eCredentials
    ensures Set(Action, "revoke") in fs ==> s == E2eCredentials || (s == OrgApiKey && exists id :: Set(KeyId, id) in fs)
    ensures Set(Action, "apply") in fs ==> s != E2eCredentials && s != OrgApiKey
  {
    hide Parse, Finish, ViewOf;
    var d := Parsed(s, fs);
    ViewActions(s, |fs| + 1, ViewOf(d));
    if Has(d.slots, KeyId) {
      assert Is(d.slots, KeyId, d.slots[KeyId]);
      assert Set(KeyId, d.slots[KeyId]) in fs;
    }
  }

  lemma ViewActions(s: Surface, n: nat, v: View)
    requires Finish(s, n, v).Some?
    ensures Is(v.slots, Action, "mint") ==> s == OrgApiKey
    ensures Is(v.slots, Action, "issue") ==> s == E2eCredentials
    ensures Is(v.slots, Action, "revoke") ==> s == E2eCredentials || (s == OrgApiKey && Has(v.slots, KeyId))
    ensures Is(v.slots, Action, "apply") ==> s != E2eCredentials && s != OrgApiKey
  {
    hide RuntimeRefused, BootstrapRefused, StorageRefused, ClosureRefused, SchemaRefused, PredecessorRefused, KeyOperands,
      CarriesTransition;
  }

  lemma GenerationFenced(s: Surface, n: nat, v: View)
    requires Finish(s, n, v).Some?
    ensures Has(Finish(s, n, v).value.fields, Generation) <==> s == StorageGeneration || s == ProductionFreshInit
  {
    hide RuntimeRefused, RetirementRefused, BootstrapRefused, SchemaRefused, ClosureRefused, BridgeRefused, PredecessorRefused,
      KeyOperands, Is, StatusOrApply, CarriesTransition;
  }

  lemma StandardFenced(s: Surface, n: nat, v: View, slot: Slot)
    requires Finish(s, n, v).Some? && slot in {Reverse, VerifierBridge, AdoptLive} && Has(Finish(s, n, v).value.fields, slot)
    ensures Finish(s, n, v) == Standard(s, n, v.slots, v.tally, v.delta)
  {
    hide RuntimeRefused, RetirementRefused, BootstrapRefused, StorageRefused, KeyOperands, Is, StatusOrApply, CarriesTransition,
      Standard;
  }

  lemma ReverseFenced(s: Surface, n: nat, v: View)
    requires Standard(s, n, v.slots, v.tally, v.delta).Some?
    ensures var inv := Standard(s, n, v.slots, v.tally, v.delta).value;
            (Has(inv.fields, Reverse) ==>
               s in {SponsorshipRouteRetirement, TopologyRetirement} && Is(v.slots, Action, "apply") &&
               Has(inv.fields, LegacyHostPredecessor)) &&
            (Has(inv.fields, VerifierBridge) ==>
               s == FormAuthorityWorker && Is(v.slots, Action, "apply") && Has(inv.fields, ProbePredecessor) &&
               inv.delta.None?) &&
            (Has(inv.fields, AdoptLive) ==> s in ADOPTS && Is(v.slots, Action, "status"))
  {
    hide ClosureRefused, SchemaRefused, Is;
  }

  /** Operands that change what is published go only where they are meant to. */
  lemma OperandFenced(s: Surface, fs: seq<Flag>)
    requires Parse(s, fs).Some?
    ensures var inv := Parse(s, fs).value;
            (Has(inv.fields, Generation) <==> s == StorageGeneration || s == ProductionFreshInit) &&
            (Has(inv.fields, Reverse) ==>
               s in {SponsorshipRouteRetirement, TopologyRetirement} && Set(Action, "apply") in fs &&
               Has(inv.fields, LegacyHostPredecessor)) &&
            (Has(inv.fields, VerifierBridge) ==>
               s == FormAuthorityWorker && Set(Action, "apply") in fs && Has(inv.fields, ProbePredecessor) &&
               inv.delta.None?) &&
            (Has(inv.fields, AdoptLive) ==> s in ADOPTS && Set(Action, "status") in fs)
  {
    hide Parse, Finish, ViewOf, ADOPTS;
    var d := Parsed(s, fs);
    ViewOperands(s, |fs| + 1, ViewOf(d));
  }

  lemma ViewOperands(s: Surface, n: nat, v: View)
    requires Finish(s, n, v).Some?
    ensures var inv := Finish(s, n, v).value;
            (Has(inv.fields, Generation) <==> s == StorageGeneration || s == ProductionFreshInit) &&
            (Has(inv.fields, Reverse) ==>
               s in {SponsorshipRouteRetirement, TopologyRetirement} && Is(v.slots, Action, "apply") &&
               Has(inv.fields, LegacyHostPredecessor)) &&
            (Has(inv.fields, VerifierBridge) ==>
               s == FormAuthorityWorker && Is(v.slots, Action, "apply") && Has(inv.fields, ProbePredecessor) &&
               inv.delta.None?) &&
            (Has(inv.fields, AdoptLive) ==> s in ADOPTS && Is(v.slots, Action, "status"))
  {
    hide Finish, Standard, Is, ADOPTS;
    GenerationFenced(s, n, v);
    var fields := Finish(s, n, v).value.fields;
    if Has(fields, Reverse) {
      StandardFenced(s, n, v, Reverse);
      ReverseFenced(s, n, v);
    }
    if Has(fields, VerifierBridge) {
      StandardFenced(s, n, v, VerifierBridge);
      ReverseFenced(s, n, v);
    }
    if Has(fields, AdoptLive) {
      StandardFenced(s, n, v, AdoptLive);
      ReverseFenced(s, n, v);
    }
  }
}
