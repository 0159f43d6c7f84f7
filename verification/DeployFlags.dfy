/** The deploy command's arguments: a surface and flags, in any order. */
module DeployFlags {
  import opened Values
  import opened Sorting

  datatype Surface =
    | D1Schema | SchemaRehearsalBaseline | Schema0058Rehearsal
    | WorkerBootstrap | OrganizationBootstrap | HostRetirement | StorageDisposal | StorageGeneration
    | ProductionFreshInit | OrgApiKey | OperatorIdentity | IntegrationOperatorIdentity
    | RehearsalD1Create | MoneyCutoverRehearsal | MoneyShadowCreate | MoneyShadowRehearsal | MoneyShadowNativeProbe
    | SnapshotRestore | AuthorityCutover | SponsorshipAuthorityWorker | FormAuthorityWorker
    | IntegrationFormAuthorityWorker | IntegrationFormAuthorityOperatorWorker | FormAuthorityIdentityProbe
    | IntegrationFormAuthority | IntegrationFormAuthorityDeactivation | E2eCredentials
    | SponsorshipRouteRetirement | TopologyRetirement | TokenRetirement | AttributionRepair
    | Other(name: string)

  /** What a flag given at most once sets. */
  datatype Slot =
    | RegisterRuntime | FinalizeRuntime | RepairMoney | EpochDirectory
    | RetiredTarget | RetiredDeployment | RetiredVersion
    | Action | Organization | KeyName | ExpiresInDays | KeyId | Environment | ProtectedReference
    | Commit | Generation | FreshLineage | RebindDatabase | RebindBucket
    | LegacyPredecessor | LegacyHostPredecessor | ClosurePredecessor
    | UnattributedSuccessor | ScopeTransition | AdoptLive | VerifierBridge | ProbePredecessor
    | ThroughMigration | Reverse

  /** The repeatable lists of a closure delta. */
  datatype Kind = RetireVar | AddVar | RefreshVar | RefreshServiceBinding | AddBinding | AddSecret | RotateSecret

  /** One argument as it reads by itself. A malformed or unknown one is `Bad`. */
  datatype Flag = Set(slot: Slot, value: string) | Name(kind: Kind, name: string) | Scope(scope: string) | Bad

  /** The locals of the parser: slots that were set, and the lists. */
  datatype Draft = Draft(slots: map<Slot, string>, names: map<Kind, seq<string>>, scopes: seq<string>)

  datatype Delta = Delta(lists: map<Kind, seq<string>>, rebind: Option<(string, string)>)

  datatype Invocation = Invocation(surface: Surface, fields: map<Slot, string>, scopes: seq<string>, delta: Option<Delta>)

  const EMPTY := Draft(map[], map[], [])

  // ----- The loop over the flags -----

  const RUNTIME := {RegisterRuntime, FinalizeRuntime}
  const PREDECESSORS := {LegacyPredecessor, LegacyHostPredecessor, ClosurePredecessor}

  /** Two flags that refuse each other, whichever comes first. */
  predicate Excludes(a: Slot, b: Slot) {
    a == b || (a in RUNTIME && b in RUNTIME) || (a in PREDECESSORS && b in PREDECESSORS)
  }

  function NamesOf(d: Draft, k: Kind): seq<string> {
    if k in d.names then d.names[k] else []
  }

  function Take(d: Draft, f: Flag): Option<Draft> {
    match f
    case Set(slot, value) =>
      if exists s | s in d.slots :: Excludes(slot, s) then None else Some(d.(slots := d.slots[slot := value]))
    case Name(kind, name) => Some(d.(names := d.names[kind := NamesOf(d, kind) + [name]]))
    case Scope(scope) => if scope in d.scopes then None else Some(d.(scopes := d.scopes + [scope]))
    case Bad => None
  }

  function TakeAll(d: Draft, fs: seq<Flag>): Option<Draft>
    decreases |fs|
  {
    if fs == [] then Some(d)
    else
      var next := Take(d, fs[0]);
      if next.None? then None else TakeAll(next.value, fs[1..])
  }

  // ----- The gates after the loop -----

  type Slots = map<Slot, string>

  predicate Has(d: Slots, s: Slot) {
    s in d
  }

  predicate Is(d: Slots, s: Slot, value: string) {
    s in d && d[s] == value
  }

  function One(b: bool): nat {
    if b then 1 else 0
  }

  predicate StatusOrApply(d: Slots) {
    Is(d, Action, "status") || Is(d, Action, "apply")
  }

  /** All names of the closure delta, list after list. */
  function DeltaNames(d: Draft): seq<string> {
    NamesOf(d, RetireVar) + NamesOf(d, AddVar) + NamesOf(d, RefreshVar) + NamesOf(d, RefreshServiceBinding) +
    NamesOf(d, AddBinding) + NamesOf(d, AddSecret) + NamesOf(d, RotateSecret)
  }

  /** What the gates ask about the lists: how many names, whether they repeat. */
  datatype Tally = Tally(deltaNames: nat, distinct: bool, serviceBindings: nat, scopes: nat)

  function Count(d: Draft): Tally {
    var names := DeltaNames(d);
    Tally(|names|, |set name | name in names| == |names|, |NamesOf(d, RefreshServiceBinding)|, |d.scopes|)
  }

  const MAX_DELTA := 32
  const MAX_REBIND := 2
  const MAX_KEY_FLAGS := 12

  predicate RuntimeRefused(s: Surface, n: nat, d: Slots) {
    || (Has(d, RegisterRuntime) &&
        (s != D1Schema || !StatusOrApply(d) || !Is(d, Environment, "integration") || !Is(d, ThroughMigration, "0103") || n != 6))
    || (Has(d, FinalizeRuntime) &&
        (s != D1Schema || !Is(d, Action, "apply") || !Is(d, Environment, "integration") ||
         !Is(d, ThroughMigration, "0103") || n != 6))
    || (Has(d, RepairMoney) &&
        (s != WorkerBootstrap || !Is(d, Action, "apply") || !Is(d, Environment, "integration") || n != 5))
  }

  predicate RetirementRefused(s: Surface, n: nat, d: Slots) {
    var operands := One(Has(d, RetiredTarget)) + One(Has(d, RetiredDeployment)) + One(Has(d, RetiredVersion));
    if s == HostRetirement
    then operands != 3 || !Is(d, Environment, "integration") || n != 7 || !StatusOrApply(d)
    else operands != 0
  }

  predicate BootstrapRefused(s: Surface, n: nat, d: Slots) {
    || (s in {WorkerBootstrap, OrganizationBootstrap} &&
        (!Is(d, Environment, "integration") || n != (if Has(d, RepairMoney) then 5 else 4) || !StatusOrApply(d)))
    || (s == StorageDisposal && (!Is(d, Environment, "integration") || n != 4 || !StatusOrApply(d)))
  }

  const STAGING_LINEAGES := {"v2-artifacts-0075", "v2-0091", "v2-0092", "v2-0100", "v2-0100-money-preserved"}

  predicate StorageRefused(s: Surface, n: nat, d: Slots) {
    || (s == ProductionFreshInit && Has(d, FreshLineage) && d[FreshLineage] in STAGING_LINEAGES)
    || (Has(d, FreshLineage) && s != StorageGeneration && s != ProductionFreshInit)
    || Has(d, Generation) != (s == StorageGeneration || s == ProductionFreshInit)
    || (Has(d, EpochDirectory) && (s != StorageGeneration || !Is(d, FreshLineage, "v2-0100-money-preserved")))
    || (s == StorageGeneration &&
        (!Is(d, Environment, "integration") || n != 5 + One(Has(d, FreshLineage)) + One(Has(d, EpochDirectory)) ||
         !StatusOrApply(d)))
  }

  function Fields(d: Slots, keep: set<Slot>): map<Slot, string> {
    map s | s in d && s in keep :: d[s]
  }

  const BASE := {Action, Environment, Commit}

  function FreshInit(n: nat, d: Slots): Option<Invocation> {
    if Is(d, Environment, "production") && StatusOrApply(d) && Has(d, Generation) && n == (if Has(d, FreshLineage) then 6 else 5)
    then
      var lineage := Is(d, FreshLineage, "v2-0088") || Is(d, FreshLineage, "v2-0089");
      Some(Invocation(ProductionFreshInit, Fields(d, BASE + {Generation} + (if lineage then {FreshLineage} else {})), [], None))
    else None
  }

  /** What neither the key surface nor the identity surfaces may carry. */
  predicate CarriesTransition(d: Slots, t: Tally) {
    || t.deltaNames > 0 || Has(d, RebindDatabase) || Has(d, ClosurePredecessor) || Has(d, LegacyPredecessor)
    || Has(d, LegacyHostPredecessor) || Has(d, UnattributedSuccessor) || Has(d, ScopeTransition) || Has(d, AdoptLive)
    || Has(d, VerifierBridge) || Has(d, ProbePredecessor) || Has(d, ThroughMigration) || Has(d, Reverse)
  }

  function KeyOperands(d: Slots, t: Tally): nat {
    One(Has(d, Organization)) + One(Has(d, KeyName)) + t.scopes + One(Has(d, ExpiresInDays)) + One(Has(d, KeyId))
  }

  function ApiKey(d: Slots, t: Tally, scopes: seq<string>): Option<Invocation> {
    if !Has(d, Organization) || KeyOperands(d, t) > MAX_KEY_FLAGS || CarriesTransition(d, t) then None
    else if !Is(d, Action, "mint") && !Is(d, Action, "status") && !Is(d, Action, "revoke") then None
    else if Is(d, Action, "mint") && (!Has(d, KeyName) || t.scopes == 0 || !Has(d, ExpiresInDays)) then None
    else if !Is(d, Action, "mint") && (Has(d, KeyName) || t.scopes > 0 || Has(d, ExpiresInDays)) then None
    else if Is(d, Action, "revoke") != Has(d, KeyId) then None
    else Some(Invocation(OrgApiKey, Fields(d, BASE + {Organization, KeyName, ExpiresInDays, KeyId}), scopes, None))
  }

  function Identity(s: Surface, d: Slots, t: Tally): Option<Invocation> {
    if !Has(d, Organization) || Has(d, KeyName) || t.scopes > 0 || Has(d, ExpiresInDays) || Has(d, KeyId) then None
    else if CarriesTransition(d, t) || !StatusOrApply(d) then None
    else if s == IntegrationOperatorIdentity && !Is(d, Environment, "integration") then None
    else Some(Invocation(s, Fields(d, BASE + {Organization}), [], None))
  }

  /** Surfaces that take nothing but an action, an environment and a commit. */
  function PlainEnvironment(s: Surface): Option<string> {
    if s in {RehearsalD1Create, MoneyCutoverRehearsal, SnapshotRestore} then Some("rehearsal")
    else if s in {MoneyShadowCreate, MoneyShadowRehearsal, MoneyShadowNativeProbe} then Some("integration")
    else None
  }

  const TRANSITIONS := {AuthorityCutover, SponsorshipAuthorityWorker, FormAuthorityWorker, IntegrationFormAuthorityWorker,
                        IntegrationFormAuthorityOperatorWorker, FormAuthorityIdentityProbe}
  const REBINDS := {AuthorityCutover, FormAuthorityWorker, IntegrationFormAuthorityWorker}
  const ADOPTS := {FormAuthorityWorker, IntegrationFormAuthorityWorker, IntegrationFormAuthorityOperatorWorker,
                   FormAuthorityIdentityProbe}

  predicate ClosureRefused(s: Surface, n: nat, d: Slots, t: Tally) {
    var budget := 6 + One(Has(d, AdoptLive)) + One(Has(d, VerifierBridge)) + One(Has(d, EpochDirectory));
    var hasDelta := t.deltaNames > 0 || Has(d, RebindDatabase);
    || (if !Has(d, ClosurePredecessor) then n > budget || hasDelta
        else s !in TRANSITIONS || Has(d, Reverse) || !hasDelta || t.deltaNames > MAX_DELTA ||
             n > budget + MAX_DELTA + MAX_REBIND || !t.distinct)
    || (Has(d, RebindDatabase) && (!Is(d, Environment, "integration") || s !in REBINDS))
    || (t.serviceBindings > 0 && !Is(d, Environment, "integration"))
  }

  const LATE_MIGRATIONS := {"0098", "0100", "0103", "0104", "0105", "0106", "0107", "0108"}

  predicate SchemaRefused(s: Surface, n: nat, d: Slots) {
    || (s in {SchemaRehearsalBaseline, Schema0058Rehearsal} &&
        (!Is(d, Environment, "rehearsal") || Has(d, ThroughMigration)))
    || (Has(d, ProtectedReference) && (s != Schema0058Rehearsal || n != 5))
    || (s == D1Schema && !Is(d, Environment, "integration") && !Has(d, ThroughMigration))
    || (Has(d, ThroughMigration) && d[ThroughMigration] in LATE_MIGRATIONS &&
        (s != D1Schema || !Is(d, Environment, "integration")))
    || (Has(d, ThroughMigration) && d[ThroughMigration] in {"0093", "0094"} && !Is(d, Environment, "integration"))
    || (s !in {D1Schema, SchemaRehearsalBaseline, Schema0058Rehearsal} && Has(d, ThroughMigration))
  }

  predicate BridgeRefused(s: Surface, d: Slots) {
    || (Has(d, AdoptLive) && (s !in ADOPTS || !Is(d, Action, "status")))
    || Has(d, VerifierBridge) != Has(d, ProbePredecessor)
    || (Has(d, VerifierBridge) &&
        (s != FormAuthorityWorker || !Is(d, Action, "apply") || Has(d, ClosurePredecessor) || Has(d, ScopeTransition) ||
         Has(d, AdoptLive) || Has(d, Reverse)))
    || (s == E2eCredentials && Is(d, Action, "apply"))
    || (s != E2eCredentials && (Is(d, Action, "issue") || Is(d, Action, "revoke")))
    || (s in {IntegrationFormAuthorityWorker, IntegrationFormAuthorityOperatorWorker, IntegrationFormAuthority,
              IntegrationFormAuthorityDeactivation, E2eCredentials} && !Is(d, Environment, "integration"))
  }

  const HOST_RETIREMENTS := {SponsorshipRouteRetirement, TopologyRetirement, TokenRetirement, AttributionRepair}

  predicate PredecessorRefused(s: Surface, d: Slots) {
    || (Has(d, LegacyPredecessor) && (s != AuthorityCutover || !Is(d, Environment, "integration")))
    || (Has(d, LegacyHostPredecessor) &&
        (s !in HOST_RETIREMENTS || (!Is(d, Environment, "integration") && !Is(d, Environment, "production"))))
    || (!Has(d, LegacyHostPredecessor) && s in HOST_RETIREMENTS)
    || Has(d, UnattributedSuccessor) != (s == AttributionRepair)
    || (Has(d, ScopeTransition) &&
        (!Is(d, Environment, "integration") || Has(d, Reverse) ||
         s !in {IntegrationFormAuthorityWorker, IntegrationFormAuthorityOperatorWorker, IntegrationFormAuthorityDeactivation}))
    || (Has(d, Reverse) &&
        (s !in {SponsorshipRouteRetirement, TopologyRetirement} || !Is(d, Action, "apply") ||
         (s == SponsorshipRouteRetirement && !Has(d, LegacyHostPredecessor))))
  }

  const ALWAYS := {RetireVar, AddVar, RefreshVar, AddBinding, AddSecret, RotateSecret}

  /** Every list is given in order; service bindings only when there are some. */
  function DeltaOf(d: Draft): Delta {
    Delta(map k | k in ALWAYS + (if NamesOf(d, RefreshServiceBinding) == [] then {} else {RefreshServiceBinding}) ::
            Sort(NamesOf(d, k)),
          if Has(d.slots, RebindDatabase) && Has(d.slots, RebindBucket)
          then Some((d.slots[RebindDatabase], d.slots[RebindBucket])) else None)
  }

  const KEPT := BASE + {LegacyPredecessor, LegacyHostPredecessor, ClosurePredecessor, UnattributedSuccessor, ScopeTransition,
                        AdoptLive, VerifierBridge, RepairMoney, RegisterRuntime, FinalizeRuntime, ProbePredecessor,
                        ThroughMigration, ProtectedReference, Generation, FreshLineage, EpochDirectory, Reverse}

  function Standard(s: Surface, n: nat, d: Slots, t: Tally, delta: Delta): Option<Invocation> {
    if ClosureRefused(s, n, d, t) || SchemaRefused(s, n, d) || BridgeRefused(s, d) || PredecessorRefused(s, d) then None
    else Some(Invocation(s, Fields(d, KEPT), [], if Has(d, ClosurePredecessor) then Some(delta) else None))
  }

  /** All the parser sees of what the flags left behind. */
  datatype View = View(slots: Slots, tally: Tally, scopes: seq<string>, delta: Delta)

  function ViewOf(d: Draft): View {
    View(d.slots, Count(d), Sort(d.scopes), DeltaOf(d))
  }

  /** The gates, in the parser's order; `n` counts all arguments. */
  function Finish(s: Surface, n: nat, v: View): Option<Invocation> {
    var d, t := v.slots, v.tally;
    if !Has(d, Action) || !Has(d, Environment) || !Has(d, Commit) then None
    else if RuntimeRefused(s, n, d) || RetirementRefused(s, n, d) then None
    else if s == HostRetirement then
      Some(Invocation(s, Fields(d, BASE + {RetiredTarget, RetiredDeployment, RetiredVersion}), [], None))
    else if BootstrapRefused(s, n, d) || StorageRefused(s, n, d) then None
    else if s == ProductionFreshInit then FreshInit(n, d)
    else if Has(d, RebindDatabase) != Has(d, RebindBucket) then None
    else if s == OrgApiKey then ApiKey(d, t, v.scopes)
    else if s in {OperatorIdentity, IntegrationOperatorIdentity} then Identity(s, d, t)
    else if KeyOperands(d, t) > 0 || Is(d, Action, "mint") then None
    else if PlainEnvironment(s).Some? then
      if Is(d, Environment, PlainEnvironment(s).value) && StatusOrApply(d) && n == 4
      then Some(Invocation(s, Fields(d, BASE), [], None)) else None
    else Standard(s, n, d, t, v.delta)
  }

  function Parse(s: Surface, fs: seq<Flag>): Option<Invocation> {
    var n := |fs| + 1;
    if n < 4 || n > 7 + MAX_DELTA + MAX_REBIND then None
    else
      var d := TakeAll(EMPTY, fs);
      if d.None? then None else Finish(s, n, ViewOf(d.value))
  }

  /** `parseInvocation`, the surface already found in the contract. */
  method ParseInvocation(s: Surface, flags: seq<Flag>) returns (r: Option<Invocation>)
    ensures r == Parse(s, flags)
  {
    hide Finish, ViewOf, Excludes;
    var n := |flags| + 1;
    if n < 4 || n > 7 + MAX_DELTA + MAX_REBIND {
      return None;
    }
    var slots: map<Slot, string> := map[];
    var names: map<Kind, seq<string>> := map[];
    var scopes: seq<string> := [];
    for i := 0 to |flags|
      invariant TakeAll(EMPTY, flags) == TakeAll(Draft(slots, names, scopes), flags[i..])
    {
      var d := Draft(slots, names, scopes);
      match flags[i]
      case Set(slot, value) =>
        if exists s | s in slots :: Excludes(slot, s) {
          return None;
        }
        slots := slots[slot := value];
      case Name(kind, name) =>
        names := names[kind := NamesOf(d, kind) + [name]];
      case Scope(scope) =>
        if scope in scopes {
          return None;
        }
        scopes := scopes + [scope];
      case Bad =>
        return None;
    }
    var d := Draft(slots, names, scopes);
    return Finish(s, n, ViewOf(d));
  }

  // ----- The order of the flags does not matter -----

  /** The same up to the order of the lists. */
  ghost predicate Same(d: Draft, e: Draft) {
    && d.slots == e.slots
    && (forall k :: multiset(NamesOf(d, k)) == multiset(NamesOf(e, k)))
    && multiset(d.scopes) == multiset(e.scopes)
  }

  ghost predicate Alike(d: Option<Draft>, e: Option<Draft>) {
    d.Some? == e.Some? && (d.Some? ==> Same(d.value, e.value))
  }

  function TakeTwo(d: Draft, f: Flag, g: Flag): Option<Draft> {
    var next := Take(d, f);
    if next.None? then None else Take(next.value, g)
  }

  lemma NamesTaken(d: Draft, kind: Kind, name: string, k: Kind)
    ensures NamesOf(Take(d, Name(kind, name)).value, k) == NamesOf(d, k) + if k == kind then [name] else []
  {
  }

  /** Taking two flags in either order is the same: refusals are mutual. */
  lemma TakeCommutes(d: Draft, f: Flag, g: Flag)
    ensures Alike(TakeTwo(d, f, g), TakeTwo(d, g, f))
  {
    if f.Set? && g.Set? {
      SetsCommute(d, f.slot, f.value, g.slot, g.value);
    } else if f.Name? && g.Name? {
      NamesCommute(d, f.kind, f.name, g.kind, g.name);
    } else if f.Scope? && g.Scope? {
      ScopesCommute(d, f.scope, g.scope);
    } else if !f.Bad? && !g.Bad? {
      MixedCommute(d, f, g);
    }
  }

  lemma Snoc(a: seq<string>, x: string)
    ensures multiset(a + [x]) == multiset(a) + multiset{x}
    ensures forall y :: y in a + [x] <==> y in a || y == x
  {
  }

  lemma ScopesCommute(d: Draft, x: string, y: string)
    ensures Alike(TakeTwo(d, Scope(x), Scope(y)), TakeTwo(d, Scope(y), Scope(x)))
  {
    Snoc(d.scopes, x);
    Snoc(d.scopes, y);
    Snoc(d.scopes + [x], y);
    Snoc(d.scopes + [y], x);
    if x !in d.scopes && y !in d.scopes && x != y {
      var a, b := d.(scopes := d.scopes + [x] + [y]), d.(scopes := d.scopes + [y] + [x]);
      SameNames(a, b);
      assert TakeTwo(d, Scope(x), Scope(y)) == Some(a) && TakeTwo(d, Scope(y), Scope(x)) == Some(b);
    }
  }

  lemma SameNames(d: Draft, e: Draft)
    requires d.names == e.names
    ensures forall k :: NamesOf(d, k) == NamesOf(e, k)
  {
  }

  /** Flags of different sorts touch different parts of the draft. */
  lemma MixedCommute(d: Draft, f: Flag, g: Flag)
    requires !f.Bad? && !g.Bad? && (f.Set? != g.Set? || f.Name? != g.Name?)
    ensures Alike(TakeTwo(d, f, g), TakeTwo(d, g, f))
  {
    hide Excludes;
    assert TakeTwo(d, f, g) == TakeTwo(d, g, f);
  }

  lemma NamesCommute(d: Draft, kind: Kind, name: string, kind': Kind, name': string)
    ensures Alike(TakeTwo(d, Name(kind, name), Name(kind', name')), TakeTwo(d, Name(kind', name'), Name(kind, name)))
  {
    var f, g := Name(kind, name), Name(kind', name');
    forall k
      ensures multiset(NamesOf(TakeTwo(d, f, g).value, k)) == multiset(NamesOf(TakeTwo(d, g, f).value, k))
    {
      NamesTaken(d, kind, name, k);
      NamesTaken(d, kind', name', k);
      NamesTaken(Take(d, f).value, kind', name', k);
      NamesTaken(Take(d, g).value, kind, name, k);
    }
  }

  lemma SetsCommute(d: Draft, s: Slot, v: string, t: Slot, u: string)
    ensures Alike(TakeTwo(d, Set(s, v), Set(t, u)), TakeTwo(d, Set(t, u), Set(s, v)))
  {
    if Excludes(s, t) {
      SetsClash(d, s, v, t, u);
      SetsClash(d, t, u, s, v);
    } else {
      assert !Excludes(t, s);
      hide Excludes;
      SetTaken(d, s, v, t);
      SetTaken(d, t, u, s);
      if !(exists x | x in d.slots :: Excludes(s, x)) && !(exists x | x in d.slots :: Excludes(t, x)) {
        assert s != t ==> d.slots[s := v][t := u] == d.slots[t := u][s := v];
        NeverSelf(s, t);
      }
    }
  }

  lemma NeverSelf(s: Slot, t: Slot)
    ensures !Excludes(s, t) ==> s != t
  {
  }

  lemma SetTaken(d: Draft, s: Slot, v: string, t: Slot)
    requires !Excludes(t, s)
    ensures (exists x | x in d.slots[s := v] :: Excludes(t, x)) <==> (exists x | x in d.slots :: Excludes(t, x))
  {
    hide Excludes;
    if x :| x in d.slots && Excludes(t, x) {
      assert x in d.slots[s := v];
    }
  }

  lemma SetsClash(d: Draft, s: Slot, v: string, t: Slot, u: string)
    requires Excludes(t, s)
    ensures TakeTwo(d, Set(s, v), Set(t, u)).None?
  {
    assert s in d.slots[s := v];
  }

  lemma TakeRespects(d: Draft, e: Draft, f: Flag)
    requires Same(d, e)
    ensures Alike(Take(d, f), Take(e, f))
  {
    hide NamesOf, Excludes;
    match f
    case Set(slot, value) =>
      SameNames(d, d.(slots := d.slots[slot := value]));
      SameNames(e, e.(slots := e.slots[slot := value]));
    case Name(kind, name) => NameRespects(d, e, kind, name);
    case Scope(scope) =>
      SameMembers(d.scopes, e.scopes, scope);
      Snoc(d.scopes, scope);
      Snoc(e.scopes, scope);
      SameNames(d, d.(scopes := d.scopes + [scope]));
      SameNames(e, e.(scopes := e.scopes + [scope]));
    case Bad =>
  }

  lemma SameMembers(a: seq<string>, b: seq<string>, x: string)
    requires multiset(a) == multiset(b)
    ensures x in a <==> x in b
  {
    assert x in a <==> x in multiset(a);
    assert x in b <==> x in multiset(b);
  }

  lemma NameRespects(d: Draft, e: Draft, kind: Kind, name: string)
    requires Same(d, e)
    ensures Alike(Take(d, Name(kind, name)), Take(e, Name(kind, name)))
  {
    hide NamesOf;
    var f := Name(kind, name);
    forall k
      ensures multiset(NamesOf(Take(d, f).value, k)) == multiset(NamesOf(Take(e, f).value, k))
    {
      NamesTaken(d, kind, name, k);
      NamesTaken(e, kind, name, k);
      Snoc(NamesOf(d, k), name);
      Snoc(NamesOf(e, k), name);
      assert NamesOf(d, k) + [] == NamesOf(d, k) && NamesOf(e, k) + [] == NamesOf(e, k);
    }
  }

  lemma {:induction false} TakeAllRespects(d: Draft, e: Draft, fs: seq<Flag>)
    requires Same(d, e)
    ensures Alike(TakeAll(d, fs), TakeAll(e, fs))
    decreases |fs|
  {
    hide Take, Same;
    if fs != [] {
      TakeRespects(d, e, fs[0]);
      if Take(d, fs[0]).Some? {
        TakeAllRespects(Take(d, fs[0]).value, Take(e, fs[0]).value, fs[1..]);
      }
    }
  }

  lemma AlikeTransitive(a: Option<Draft>, b: Option<Draft>, c: Option<Draft>)
    requires Alike(a, b) && Alike(b, c)
    ensures Alike(a, c)
  {
  }

  /** A flag may as well come first. */
  lemma {:induction false} ComesFirst(d: Draft, fs: seq<Flag>, k: nat)
    requires k < |fs|
    ensures Alike(TakeAll(d, fs), TakeAll(d, [fs[k]] + fs[..k] + fs[k + 1..]))
    decreases |fs|
  {
    hide Take, Same;
    var g := fs[k];
    if k == 0 {
      assert [g] + fs[..0] + fs[1..] == fs;
      Reflexive(TakeAll(d, fs));
    } else {
      var f := fs[0];
      var rest := fs[1..];
      var others := rest[..k - 1] + rest[k..];
      var moved := [g] + fs[..k] + fs[k + 1..];
      assert moved == [g, f] + others;
      assert [rest[k - 1]] + rest[..k - 1] + rest[k..] == [g] + others;
      TwoFirst(d, g, f, others);
      TwoFirst(d, f, g, others);
      assert moved[1..] == [f] + others;
      if Take(d, f).Some? {
        ComesFirst(Take(d, f).value, rest, k - 1);
        assert ([f, g] + others)[1..] == [g] + others;
        assert Alike(TakeAll(d, fs), TakeAll(d, [f, g] + others));
      } else {
        assert ([f, g] + others)[0] == f;
        assert TakeAll(d, [f, g] + others).None?;
      }
      TakeCommutes(d, f, g);
      Swapped(d, f, g, others);
      AlikeTransitive(TakeAll(d, fs), TakeAll(d, [f, g] + others), TakeAll(d, moved));
    }
  }

  lemma Reflexive(d: Option<Draft>)
    ensures Alike(d, d)
  {
  }

  lemma TwoFirst(d: Draft, f: Flag, g: Flag, others: seq<Flag>)
    ensures TakeAll(d, [f, g] + others) ==
              var next := TakeTwo(d, f, g); if next.None? then None else TakeAll(next.value, others)
  {
    hide Take;
    assert ([f, g] + others)[1..] == [g] + others;
    assert ([g] + others)[1..] == others;
  }

  lemma Swapped(d: Draft, f: Flag, g: Flag, others: seq<Flag>)
    requires Alike(TakeTwo(d, f, g), TakeTwo(d, g, f))
    ensures Alike(TakeAll(d, [f, g] + others), TakeAll(d, [g, f] + others))
  {
    hide TakeTwo, Same;
    TwoFirst(d, f, g, others);
    TwoFirst(d, g, f, others);
    if TakeTwo(d, f, g).Some? {
      TakeAllRespects(TakeTwo(d, f, g).value, TakeTwo(d, g, f).value, others);
    }
  }

  lemma Without(fs: seq<Flag>, k: nat)
    requires k < |fs|
    ensures multiset(fs[..k] + fs[k + 1..]) == multiset(fs) - multiset{fs[k]}
  {
    assert fs == fs[..k] + [fs[k]] + fs[k + 1..];
  }

  lemma FirstTaken(d: Draft, f: Flag, fs: seq<Flag>, gs: seq<Flag>)
    requires Take(d, f).Some? ==> Alike(TakeAll(Take(d, f).value, fs), TakeAll(Take(d, f).value, gs))
    ensures Alike(TakeAll(d, [f] + fs), TakeAll(d, [f] + gs))
  {
    hide Take, Same;
    assert ([f] + fs)[1..] == fs && ([f] + gs)[1..] == gs;
  }

  /** The first flag of one order is somewhere in the other; without it the rests agree. */
  lemma FoundIn(fs: seq<Flag>, gs: seq<Flag>) returns (k: nat)
    requires multiset(fs) == multiset(gs) && fs != []
    ensures k < |gs| && gs[k] == fs[0] && multiset(gs[..k] + gs[k + 1..]) == multiset(fs[1..])
  {
    assert fs[0] in multiset(gs);
    k :| 0 <= k < |gs| && gs[k] == fs[0];
    Without(gs, k);
    First(fs);
  }

  lemma First(fs: seq<Flag>)
    requires fs != []
    ensures multiset(fs[1..]) == multiset(fs) - multiset{fs[0]} && fs == [fs[0]] + fs[1..]
  {
    assert fs == [fs[0]] + fs[1..];
  }

  lemma Regroup(fs: seq<Flag>, k: nat)
    requires k < |fs|
    ensures [fs[k]] + fs[..k] + fs[k + 1..] == [fs[k]] + (fs[..k] + fs[k + 1..])
  {
  }

  lemma {:induction false} AnyOrder(d: Draft, fs: seq<Flag>, gs: seq<Flag>)
    requires multiset(fs) == multiset(gs)
    ensures Alike(TakeAll(d, fs), TakeAll(d, gs))
    decreases |fs|, 1
  {
    hide Take, TakeAll, Alike;
    if fs == [] {
      assert |gs| == |multiset(gs)| == 0;
      Reflexive(TakeAll(d, fs));
    } else {
      var k := FoundIn(fs, gs);
      OneMoved(d, fs, gs, k);
    }
  }

  lemma {:induction false} OneMoved(d: Draft, fs: seq<Flag>, gs: seq<Flag>, k: nat)
    requires fs != [] && k < |gs| && gs[k] == fs[0] && multiset(gs[..k] + gs[k + 1..]) == multiset(fs[1..])
    ensures Alike(TakeAll(d, fs), TakeAll(d, gs))
    decreases |fs|, 0
  {
    hide Take, TakeAll, Alike;
    Regroup(gs, k);
    First(fs);
    var f, rest := fs[0], gs[..k] + gs[k + 1..];
    if Take(d, f).Some? {
      AnyOrder(Take(d, f).value, fs[1..], rest);
    }
    FirstTaken(d, f, fs[1..], rest);
    ComesFirst(d, gs, k);
    Symmetric(TakeAll(d, gs), TakeAll(d, [f] + rest));
    AlikeTransitive(TakeAll(d, fs), TakeAll(d, [f] + rest), TakeAll(d, gs));
  }

  lemma Symmetric(d: Option<Draft>, e: Option<Draft>)
    requires Alike(d, e)
    ensures Alike(e, d)
  {
  }

  // ----- The gates do not see the order either -----

  lemma DeltaMultiset(d: Draft)
    ensures multiset(DeltaNames(d)) ==
              multiset(NamesOf(d, RetireVar)) + multiset(NamesOf(d, AddVar)) + multiset(NamesOf(d, RefreshVar)) +
              multiset(NamesOf(d, RefreshServiceBinding)) + multiset(NamesOf(d, AddBinding)) +
              multiset(NamesOf(d, AddSecret)) + multiset(NamesOf(d, RotateSecret))
  {
    hide NamesOf;
  }

  lemma CountRespects(d: Draft, e: Draft)
    requires Same(d, e)
    ensures Count(d) == Count(e)
  {
    var a, b := DeltaNames(d), DeltaNames(e);
    DeltaMultiset(d);
    DeltaMultiset(e);
    assert forall k :: multiset(NamesOf(d, k)) == multiset(NamesOf(e, k));
    hide NamesOf, DeltaNames;
    assert multiset(a) == multiset(b);
    assert |a| == |multiset(a)| == |multiset(b)| == |b|;
    forall x
      ensures x in a <==> x in b
    {
      assert x in a <==> x in multiset(a);
      assert x in b <==> x in multiset(b);
    }
    assert (set name | name in a) == (set name | name in b);
    SameLength(NamesOf(d, RefreshServiceBinding), NamesOf(e, RefreshServiceBinding));
    SameLength(d.scopes, e.scopes);
  }

  lemma SameLength(a: seq<string>, b: seq<string>)
    requires multiset(a) == multiset(b)
    ensures |a| == |b|
  {
    assert |a| == |multiset(a)| == |multiset(b)| == |b|;
  }

  lemma ScopesRespect(d: Draft, e: Draft)
    requires Same(d, e)
    ensures d.slots == e.slots && Sort(d.scopes) == Sort(e.scopes)
  {
    SortForgetsOrder(d.scopes, e.scopes);
  }

  lemma DeltaRespects(d: Draft, e: Draft)
    requires Same(d, e)
    ensures DeltaOf(d) == DeltaOf(e)
  {
    hide Sort;
    SameLength(NamesOf(d, RefreshServiceBinding), NamesOf(e, RefreshServiceBinding));
    forall k
      ensures Sort(NamesOf(d, k)) == Sort(NamesOf(e, k))
    {
      SortForgetsOrder(NamesOf(d, k), NamesOf(e, k));
    }
    assert DeltaOf(d).lists == DeltaOf(e).lists;
  }

  /** The result, refusals included, is the same for every order of the flags. */
  lemma ParseForgetsOrder(s: Surface, fs: seq<Flag>, gs: seq<Flag>)
    requires multiset(fs) == multiset(gs)
    ensures Parse(s, fs) == Parse(s, gs)
  {
    hide TakeAll, Same, Finish, Count, DeltaOf, Sort;
    assert |fs| == |multiset(fs)| == |multiset(gs)| == |gs|;
    AnyOrder(EMPTY, fs, gs);
    if TakeAll(EMPTY, fs).Some? {
      var d, e := TakeAll(EMPTY, fs).value, TakeAll(EMPTY, gs).value;
      CountRespects(d, e);
      DeltaRespects(d, e);
      ScopesRespect(d, e);
    }
  }

  // ----- Which flags are taken -----

  /** Two flags that cannot stand together. */
  predicate Clash(f: Flag, g: Flag) {
    || (f.Set? && g.Set? && Excludes(f.slot, g.slot))
    || (f.Scope? && g.Scope? && f.scope == g.scope)
  }

  predicate Acceptable(fs: seq<Flag>) {
    Bad !in fs && forall i, j | 0 <= i < j < |fs| :: !Clash(fs[i], fs[j])
  }

  /** What is drafted so far came from these flags. */
  ghost predicate Drafted(d: Draft, fs: seq<Flag>) {
    && (forall s :: s in d.slots <==> exists f | f in fs :: f.Set? && f.slot == s)
    && (forall f | f in fs && f.Set? :: Is(d.slots, f.slot, f.value))
    && (forall x :: x in d.scopes <==> Scope(x) in fs)
    && (forall k :: NamesOf(d, k) == NamesIn(fs, k))
  }

  /** The names given for one list, in order. */
  function NamesIn(fs: seq<Flag>, k: Kind): seq<string> {
    if fs == [] then []
    else
      var last := fs[|fs| - 1];
      NamesIn(fs[..|fs| - 1], k) + if last.Name? && last.kind == k then [last.name] else []
  }

  lemma {:induction false} TakesExactly(d: Draft, before: seq<Flag>, fs: seq<Flag>)
    requires Drafted(d, before) && Acceptable(before)
    ensures TakeAll(d, fs).Some? <==> Acceptable(before + fs)
    ensures TakeAll(d, fs).Some? ==> Drafted(TakeAll(d, fs).value, before + fs)
    decreases |fs|
  {
    hide Drafted, Acceptable, Take;
    if fs == [] {
      assert before + fs == before;
    } else {
      var more := before + [fs[0]];
      assert more + fs[1..] == before + fs;
      TakesOne(d, before, fs[0]);
      if Take(d, fs[0]).Some? {
        TakesExactly(Take(d, fs[0]).value, more, fs[1..]);
      } else {
        StaysUnacceptable(more, fs[1..]);
      }
    }
  }

  lemma StaysUnacceptable(fs: seq<Flag>, more: seq<Flag>)
    requires !Acceptable(fs)
    ensures !Acceptable(fs + more)
  {
    hide Clash;
    if Bad !in fs {
      var i, j :| 0 <= i < j < |fs| && Clash(fs[i], fs[j]);
      assert Clash((fs + more)[i], (fs + more)[j]);
    }
  }

  lemma TakesOne(d: Draft, fs: seq<Flag>, f: Flag)
    requires Drafted(d, fs) && Acceptable(fs)
    ensures Take(d, f).Some? <==> Acceptable(fs + [f])
    ensures Take(d, f).Some? ==> Drafted(Take(d, f).value, fs + [f])
  {
    AcceptsOne(fs, f);
    if f.Set? {
      if s :| s in d.slots && Excludes(f.slot, s) {
        var g :| g in fs && g.Set? && g.slot == s;
        assert Clash(g, f);
      }
    }
    if Take(d, f).Some? {
      DraftsOne(d, fs, f);
    }
  }

  lemma AcceptsOne(fs: seq<Flag>, f: Flag)
    requires Acceptable(fs)
    ensures Acceptable(fs + [f]) <==> f != Bad && forall g | g in fs :: !Clash(g, f)
  {
    hide Clash;
    var all := fs + [f];
    if Acceptable(all) {
      forall g | g in fs
        ensures !Clash(g, f)
      {
        var i :| 0 <= i < |fs| && fs[i] == g;
        assert !Clash(all[i], all[|fs|]);
      }
    }
  }

  lemma DraftsOne(d: Draft, fs: seq<Flag>, f: Flag)
    requires Drafted(d, fs) && Take(d, f).Some?
    ensures Drafted(Take(d, f).value, fs + [f])
  {
    var e := Take(d, f).value;
    var all := fs + [f];
    forall k
      ensures NamesOf(e, k) == NamesIn(all, k)
    {
      assert all[..|all| - 1] == fs;
      if f.Name? {
        NamesTaken(d, f.kind, f.name, k);
      }
    }
    forall s
      ensures s in e.slots <==> exists g | g in all :: g.Set? && g.slot == s
    {
      if g :| g in all && g.Set? && g.slot == s {
        assert g in fs || g == f;
      }
      if s in d.slots {
        var g :| g in fs && g.Set? && g.slot == s;
        assert g in all;
      }
    }
    forall g | g in all && g.Set?
      ensures Is(e.slots, g.slot, g.value)
    {
      if g in fs && f.Set? {
        assert Is(d.slots, g.slot, g.value);
        assert !Excludes(f.slot, g.slot);
      }
    }
  }

  /** The flags are taken exactly when none is malformed and no two refuse each
      other; then each slot holds its flag's value and each list its names in order. */
  lemma FlagsTaken(fs: seq<Flag>)
    ensures TakeAll(EMPTY, fs).Some? <==> Acceptable(fs)
    ensures TakeAll(EMPTY, fs).Some? ==> Drafted(TakeAll(EMPTY, fs).value, fs)
  {
    assert [] + fs == fs;
    assert Drafted(EMPTY, []);
    TakesExactly(EMPTY, [], fs);
  }

  /** A delta that is accepted lists exactly the names given, each list sorted,
      at most thirty-two of them, none twice, and only on a surface that publishes a Worker. */
  lemma DeltaAccepted(s: Surface, fs: seq<Flag>)
    requires Parse(s, fs).Some? && Parse(s, fs).value.delta.Some?
    ensures var lists := Parse(s, fs).value.delta.value.lists;
            forall k :: NamesIn(fs, k) == [] ||
              (k in lists && IsSorted(lists[k]) && multiset(lists[k]) == multiset(NamesIn(fs, k)))
    ensures s in TRANSITIONS && Has(Parse(s, fs).value.fields, ClosurePredecessor)
    ensures var d := TakeAll(EMPTY, fs).value; Count(d).distinct && Count(d).deltaNames <= MAX_DELTA
  {
    hide TakeAll, Finish, Count, DeltaOf, Drafted, Acceptable, Sort, IsSorted;
    FlagsTaken(fs);
    var d := TakeAll(EMPTY, fs).value;
    DeltaOnlyStandard(s, |fs| + 1, ViewOf(d));
    forall k
      ensures NamesIn(fs, k) == [] || (k in DeltaOf(d).lists && IsSorted(DeltaOf(d).lists[k]) &&
                multiset(DeltaOf(d).lists[k]) == multiset(NamesIn(fs, k)))
    {
      DeltaListed(d, fs, k);
    }
  }

  lemma DeltaListed(d: Draft, fs: seq<Flag>, k: Kind)
    requires Drafted(d, fs)
    ensures NamesIn(fs, k) == [] || (k in DeltaOf(d).lists && IsSorted(DeltaOf(d).lists[k]) &&
              multiset(DeltaOf(d).lists[k]) == multiset(NamesIn(fs, k)))
  {
    assert NamesOf(d, k) == NamesIn(fs, k);
    hide Sort, NamesIn, NamesOf, IsSorted, Drafted;
    SortSorts(NamesOf(d, k));
  }

  lemma DeltaOnlyStandard(s: Surface, n: nat, v: View)
    requires Finish(s, n, v).Some? && Finish(s, n, v).value.delta.Some?
    ensures Finish(s, n, v).value.delta.value == v.delta && s in TRANSITIONS
    ensures Has(Finish(s, n, v).value.fields, ClosurePredecessor)
    ensures v.tally.distinct && v.tally.deltaNames <= MAX_DELTA
  {
    hide RuntimeRefused, RetirementRefused, BootstrapRefused, StorageRefused, SchemaRefused, BridgeRefused, PredecessorRefused,
      CarriesTransition, KeyOperands;
  }
}
