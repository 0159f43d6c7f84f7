/** The authority's signed status answers, and what a parsed one can say. */
module CredentialStatus {
  import opened Values
  import Instants

  /** The property names of the authority's answers. */
  datatype Key =
    | Kind | OperationId | OrganizationId | State | Fence | Completeness | Terminal | LegacyKeyPresent
    | Provenance | Roles | Writer | Evidence
    | KeyId | Name | Present | Recorded | Role | Scopes | TtlSeconds | Usable | CreatedAt | ExpiresAt
    | ArtifactDigest | PublicWorkerVersionId | SourceCommit
    | Pair | Secrets
    | Other(name: string)

  type Value = Json<Key>

  /** What the local metadata says of one role, and of the operation. */
  datatype RoleMetadata = RoleMetadata(role: string, name: string, keyId: string, scopes: seq<string>)

  datatype Metadata = Metadata(
    operationId: string,
    organizationId: string,
    ttlSeconds: nat,
    sourceCommit: string,
    artifactDigest: string,
    publicWorkerVersionId: string,
    writer: RoleMetadata,
    evidence: RoleMetadata)

  datatype RoleStatus = RoleStatus(recorded: bool, present: bool, usable: bool, times: Option<(string, string)>)

  datatype PairState = Unregistered | Indeterminate | Prepared | Issuing | Active | Partial | Revoking | Revoked | Misspelled

  datatype Coverage = Absent | Half | Complete

  datatype PairStatus = PairStatus(
    state: PairState,
    fence: Option<int>,
    coverage: Coverage,
    terminal: bool,
    legacy: bool,
    provenance: bool,
    writer: RoleStatus,
    evidence: RoleStatus)

  // ----- Spelling -----

  function StateName(s: PairState): string {
    match s
    case Unregistered => "unregistered"
    case Indeterminate => "indeterminate"
    case Prepared => "prepared"
    case Issuing => "issuing"
    case Active => "active"
    case Partial => "partial"
    case Revoking => "revoking"
    case Revoked => "revoked"
    case Misspelled => ""
  }

  const STATES := [Unregistered, Indeterminate, Prepared, Issuing, Active, Partial, Revoking, Revoked]

  /** `String(value)` where it can spell a word of the list: a text, or an array
      holding just one such thing. */
  function Spelled(v: Value): string {
    match v
    case Str(s) => s
    case Arr(items) => if |items| == 1 then Spelled(items[0]) else ""
    case _ => ""
  }

  predicate SpellsState(v: Value) {
    exists i | 0 <= i < |STATES| :: Spelled(v) == StateName(STATES[i])
  }

  /** The state a property holds. A value that only spells a state (an array of
      one text) passes the list test but equals no state afterwards. */
  function StateOf(v: Value): PairState {
    if v == Str("unregistered") then Unregistered
    else if v == Str("indeterminate") then Indeterminate
    else if v == Str("prepared") then Prepared
    else if v == Str("issuing") then Issuing
    else if v == Str("active") then Active
    else if v == Str("partial") then Partial
    else if v == Str("revoking") then Revoking
    else if v == Str("revoked") then Revoked
    else Misspelled
  }

  function CoverageName(c: Coverage): string {
    match c
    case Absent => "absent"
    case Half => "partial"
    case Complete => "complete"
  }

  /** `pairCompleteness` */
  function PairCompleteness(writer: bool, evidence: bool): (c: Coverage)
    ensures c.Absent? <==> !writer && !evidence
    ensures c.Complete? <==> writer && evidence
  {
    if writer && evidence then Complete else if writer || evidence then Half else Absent
  }

  // ----- Parsing -----

  function Texts(ss: seq<string>): Value {
    Arr(seq(|ss|, i requires 0 <= i < |ss| => Str(ss[i])))
  }

  const ROLE_KEYS := {KeyId, Name, Present, Recorded, Role, Scopes, TtlSeconds, Usable}

  predicate ValidTimes(created: Value, expires: Value, ttlSeconds: nat) {
    && created.Str? && Instants.Canonical(created.s)
    && expires.Str? && Instants.Canonical(expires.s)
    && Instants.Millis(expires.s) - Instants.Millis(created.s) == ttlSeconds * 1000
  }

  /** `parseRoleStatus` */
  function ParseRoleStatus(v: Value, expected: RoleMetadata, ttlSeconds: nat): Option<RoleStatus> {
    if !v.Obj? then None
    else
      var hasTimes := CreatedAt in v.fields || ExpiresAt in v.fields;
      if !v.HasExactly(ROLE_KEYS + (if hasTimes then {CreatedAt, ExpiresAt} else {})) then None
      else if v.Get(Role) != Str(expected.role) || v.Get(Name) != Str(expected.name) || v.Get(KeyId) != Str(expected.keyId) then None
      else if v.Get(Scopes) != Texts(expected.scopes) || v.Get(TtlSeconds) != Num(ttlSeconds) then None
      else if !v.Get(Recorded).Bool? || !v.Get(Present).Bool? || !v.Get(Usable).Bool? then None
      else if v.Get(Present).b && !v.Get(Recorded).b then None
      else if v.Get(Usable).b && !v.Get(Present).b then None
      else if v.Get(Recorded).b != hasTimes then None
      else if hasTimes && !ValidTimes(v.Get(CreatedAt), v.Get(ExpiresAt), ttlSeconds) then None
      else Some(RoleStatus(v.Get(Recorded).b, v.Get(Present).b, v.Get(Usable).b,
                           if hasTimes then Some((v.Get(CreatedAt).s, v.Get(ExpiresAt).s)) else None))
  }

  const STATUS_KEYS := {Completeness, Fence, Kind, LegacyKeyPresent, OperationId, OrganizationId, Provenance, Roles, State, Terminal}
  const STATUS_KIND := "takoserver.integration-e2e-credential-pair-status@v1"

  predicate ValidEnvelope(v: Value, m: Metadata) {
    && v.HasExactly(STATUS_KEYS)
    && v.Get(Kind) == Str(STATUS_KIND)
    && v.Get(OperationId) == Str(m.operationId)
    && v.Get(OrganizationId) == Str(m.organizationId)
    && SpellsState(v.Get(State))
    && (v.Get(Fence) == Null || (IsSafeInteger(v.Get(Fence)) && v.Get(Fence).n >= 1))
    && Spelled(v.Get(Completeness)) in {"absent", "partial", "complete"}
    && v.Get(Terminal).Bool? && v.Get(LegacyKeyPresent).Bool?
  }

  function ProvenanceOf(m: Metadata): Value {
    Obj(map[SourceCommit := Str(m.sourceCommit), ArtifactDigest := Str(m.artifactDigest),
            PublicWorkerVersionId := Str(m.publicWorkerVersionId)])
  }

  predicate Durable(s: PairState) {
    s in {Prepared, Issuing, Active, Partial, Revoking, Revoked}
  }

  predicate Tombstone(st: PairStatus) {
    st.state == Revoked && st.coverage == Absent && !st.legacy && !st.writer.present && !st.evidence.present
  }

  /** The invariants a status must satisfy. */
  predicate Consistent(st: PairStatus) {
    && st.coverage == PairCompleteness(st.writer.present, st.evidence.present)
    && st.terminal == Tombstone(st)
    && (Durable(st.state) ==> st.fence.Some? && st.provenance)
    && (!Durable(st.state) ==> st.fence.None? && !st.provenance)
    && (st.state == Unregistered ==> !st.writer.recorded && !st.evidence.recorded && !st.legacy)
  }

  /** What the invariants come to: only a registered pair has a fence and its
      provenance, only a revoked one with nothing left is terminal, and an
      unregistered one has no trace. */
  lemma ConsistentExactly(st: PairStatus)
    ensures Consistent(st) <==>
            && (st.fence.Some? <==> st.state !in {Unregistered, Indeterminate, Misspelled})
            && (st.provenance <==> st.state !in {Unregistered, Indeterminate, Misspelled})
            && (st.terminal <==> st.state == Revoked && !st.writer.present && !st.evidence.present && !st.legacy)
            && (st.coverage == Absent <==> !st.writer.present && !st.evidence.present)
            && (st.coverage == Complete <==> st.writer.present && st.evidence.present)
            && (st.state == Unregistered ==> !st.writer.recorded && !st.evidence.recorded && !st.legacy)
  {
  }

  /** `parseStatusValue` */
  function ParseStatusValue(v: Value, m: Metadata): Option<PairStatus> {
    if !ValidEnvelope(v, m) then None
    else
      var roles := v.Get(Roles);
      if !roles.HasExactly({Evidence, Writer}) then None
      else
        var writer := ParseRoleStatus(roles.Get(Writer), m.writer, m.ttlSeconds);
        var evidence := ParseRoleStatus(roles.Get(Evidence), m.evidence, m.ttlSeconds);
        if writer.None? || evidence.None? then None
        else if v.Get(Provenance) != Null && v.Get(Provenance) != ProvenanceOf(m) then None
        else
          var coverage := PairCompleteness(writer.value.present, evidence.value.present);
          if v.Get(Completeness) != Str(CoverageName(coverage)) then None
          else
            var st := PairStatus(
              StateOf(v.Get(State)), if v.Get(Fence) == Null then None else Some(v.Get(Fence).n), coverage,
              v.Get(Terminal).b, v.Get(LegacyKeyPresent).b, v.Get(Provenance) != Null, writer.value, evidence.value);
            if Consistent(st) then Some(st) else None
  }

  // ----- What a parsed status can say -----

  predicate RoleConsistent(r: RoleStatus, ttlSeconds: nat) {
    && (r.present ==> r.recorded) && (r.usable ==> r.present)
    && r.recorded == r.times.Some?
    && (r.times.Some? ==> ValidTimes(Str(r.times.value.0), Str(r.times.value.1), ttlSeconds))
  }

  /** A status as a truthful authority renders it. */
  function RenderRole(r: RoleStatus, m: RoleMetadata, ttlSeconds: nat): Value {
    var base: map<Key, Value> := map[
      KeyId := Str(m.keyId), Name := Str(m.name), Present := Bool(r.present), Recorded := Bool(r.recorded),
      Role := Str(m.role), Scopes := Texts(m.scopes), TtlSeconds := Num(ttlSeconds), Usable := Bool(r.usable)];
    if r.times.Some? then Obj(base + map[CreatedAt := Str(r.times.value.0), ExpiresAt := Str(r.times.value.1)]) else Obj(base)
  }

  function Render(st: PairStatus, m: Metadata): Value {
    Obj(map[
      Kind := Str(STATUS_KIND), OperationId := Str(m.operationId), OrganizationId := Str(m.organizationId),
      State := Str(StateName(st.state)), Fence := if st.fence.Some? then Num(st.fence.value) else Null,
      Completeness := Str(CoverageName(st.coverage)), Terminal := Bool(st.terminal),
      LegacyKeyPresent := Bool(st.legacy),
      Provenance := if st.provenance then ProvenanceOf(m) else Null,
      Roles := Obj(map[Writer := RenderRole(st.writer, m.writer, m.ttlSeconds),
                       Evidence := RenderRole(st.evidence, m.evidence, m.ttlSeconds)])])
  }

  lemma RoleRendersKeys(r: RoleStatus, m: RoleMetadata, ttl: nat)
    ensures RenderRole(r, m, ttl).HasExactly(ROLE_KEYS + (if r.times.Some? then {CreatedAt, ExpiresAt} else {}))
  {
  }

  lemma RoleRendersBack(r: RoleStatus, m: RoleMetadata, ttl: nat)
    requires RoleConsistent(r, ttl)
    ensures ParseRoleStatus(RenderRole(r, m, ttl), m, ttl) == Some(r)
  {
    hide ValidTimes, Texts, ROLE_KEYS, Value.HasExactly;
    RoleRendersKeys(r, m, ttl);
  }

  lemma RoleParsedIsConsistent(v: Value, m: RoleMetadata, ttl: nat)
    requires ParseRoleStatus(v, m, ttl).Some?
    ensures RoleConsistent(ParseRoleStatus(v, m, ttl).value, ttl)
  {
    hide Instants.Canonical, Instants.Millis, Texts;
  }

  lemma RoleKeys(v: Value, m: RoleMetadata, ttl: nat)
    requires ParseRoleStatus(v, m, ttl).Some?
    ensures v.Obj? && v.fields.Keys == RenderRole(ParseRoleStatus(v, m, ttl).value, m, ttl).fields.Keys
  {
    hide ValidTimes, Texts;
    var r := ParseRoleStatus(v, m, ttl).value;
    assert RenderRole(r, m, ttl).fields.Keys == ROLE_KEYS + (if r.times.Some? then {CreatedAt, ExpiresAt} else {});
  }

  lemma RolePropertyRendered(v: Value, m: RoleMetadata, ttl: nat, k: Key)
    requires ParseRoleStatus(v, m, ttl).Some? && k in v.fields
    ensures v.fields[k] == RenderRole(ParseRoleStatus(v, m, ttl).value, m, ttl).Get(k)
  {
    hide Instants.Canonical, Instants.Millis, Texts;
  }

  /** One role's answer is exactly what is rendered for it, key, name, scopes and times included. */
  lemma RoleParsedIsRendered(v: Value, m: RoleMetadata, ttl: nat)
    requires ParseRoleStatus(v, m, ttl).Some?
    ensures v == RenderRole(ParseRoleStatus(v, m, ttl).value, m, ttl)
    ensures RoleConsistent(ParseRoleStatus(v, m, ttl).value, ttl)
  {
    var r := ParseRoleStatus(v, m, ttl).value;
    hide ParseRoleStatus, RenderRole, RoleConsistent;
    RoleParsedIsConsistent(v, m, ttl);
    RoleKeys(v, m, ttl);
    forall k | k in v.fields
      ensures v.fields[k] == RenderRole(r, m, ttl).fields[k]
    {
      RolePropertyRendered(v, m, ttl, k);
    }
    RoleIsObject(r, m, ttl);
    assert v.fields == RenderRole(r, m, ttl).fields;
  }

  lemma RoleIsObject(r: RoleStatus, m: RoleMetadata, ttl: nat)
    ensures RenderRole(r, m, ttl).Obj?
  {
  }

  lemma StateSpelled(s: PairState)
    ensures s != Misspelled ==> StateOf(Str(StateName(s))) == s && SpellsState(Str(StateName(s)))
    ensures StateOf(Str("")) == Misspelled
  {
    assert STATES[0] == Unregistered && STATES[1] == Indeterminate && STATES[2] == Prepared && STATES[3] == Issuing;
    assert STATES[4] == Active && STATES[5] == Partial && STATES[6] == Revoking && STATES[7] == Revoked;
  }

  predicate Renderable(st: PairStatus, m: Metadata) {
    && Consistent(st) && st.state != Misspelled
    && RoleConsistent(st.writer, m.ttlSeconds) && RoleConsistent(st.evidence, m.ttlSeconds)
    && (st.fence.Some? ==> 1 <= st.fence.value <= MAX_SAFE_INTEGER)
  }

  /** Every consistent status an authority renders is understood, unchanged. */
  lemma RenderedIsParsed(st: PairStatus, m: Metadata)
    requires Renderable(st, m)
    ensures ParseStatusValue(Render(st, m), m) == Some(st)
  {
    hide RoleConsistent, ParseRoleStatus, RenderRole, SpellsState, StateOf, StateName, Consistent;
    RoleRendersBack(st.writer, m.writer, m.ttlSeconds);
    RoleRendersBack(st.evidence, m.evidence, m.ttlSeconds);
    StateSpelled(st.state);
    EnvelopeRendered(st, m);
    assert st.coverage == PairCompleteness(st.writer.present, st.evidence.present) by {
      assert Consistent(st);
      ConsistentCoverage(st);
    }
  }

  lemma ConsistentCoverage(st: PairStatus)
    requires Consistent(st)
    ensures st.coverage == PairCompleteness(st.writer.present, st.evidence.present)
  {
  }

  lemma EnvelopeRendered(st: PairStatus, m: Metadata)
    requires SpellsState(Str(StateName(st.state))) && (st.fence.Some? ==> 1 <= st.fence.value <= MAX_SAFE_INTEGER)
    ensures ValidEnvelope(Render(st, m), m)
  {
    hide RenderRole, SpellsState, StateName, ProvenanceOf;
    assert Render(st, m).fields.Keys == STATUS_KEYS;
  }

  /** The parts of an accepted answer. */
  predicate Parts(v: Value, m: Metadata, st: PairStatus) {
    && ValidEnvelope(v, m)
    && v.Get(Roles).HasExactly({Evidence, Writer})
    && ParseRoleStatus(v.Get(Roles).Get(Writer), m.writer, m.ttlSeconds) == Some(st.writer)
    && ParseRoleStatus(v.Get(Roles).Get(Evidence), m.evidence, m.ttlSeconds) == Some(st.evidence)
    && v.Get(Provenance) == (if st.provenance then ProvenanceOf(m) else Null)
    && v.Get(Completeness) == Str(CoverageName(st.coverage))
    && StateOf(v.Get(State)) == st.state
    && v.Get(Fence) == (if st.fence.Some? then Num(st.fence.value) else Null)
    && v.Get(Terminal) == Bool(st.terminal) && v.Get(LegacyKeyPresent) == Bool(st.legacy)
    && Consistent(st)
  }

  lemma ParsedParts(v: Value, m: Metadata)
    requires ParseStatusValue(v, m).Some?
    ensures Parts(v, m, ParseStatusValue(v, m).value)
  {
    hide ParseRoleStatus, SpellsState, Spelled, Consistent, StateOf, CoverageName, PairCompleteness;
  }

  lemma RolesRendered(v: Value, m: Metadata, st: PairStatus)
    requires Parts(v, m, st)
    ensures v.Get(Roles) == Render(st, m).Get(Roles)
    ensures RoleConsistent(st.writer, m.ttlSeconds) && RoleConsistent(st.evidence, m.ttlSeconds)
  {
    hide RoleConsistent, ParseRoleStatus, RenderRole, ValidEnvelope, Consistent, ProvenanceOf, StateOf, CoverageName;
    RoleParsedIsRendered(v.Get(Roles).Get(Writer), m.writer, m.ttlSeconds);
    RoleParsedIsRendered(v.Get(Roles).Get(Evidence), m.evidence, m.ttlSeconds);
    assert v.Get(Roles).fields == Render(st, m).Get(Roles).fields;
  }

  /** Every property of an accepted answer is the rendered one. */
  lemma PropertyRendered(v: Value, m: Metadata, st: PairStatus, k: Key)
    requires Parts(v, m, st) && st.state != Misspelled && k in STATUS_KEYS
    ensures v.Obj? && k in v.fields && k in Render(st, m).fields && v.fields[k] == Render(st, m).fields[k]
  {
    hide RoleConsistent, ParseRoleStatus, RenderRole, SpellsState, Spelled, Consistent, ProvenanceOf, StateOf,
      StateName, CoverageName;
    RolesRendered(v, m, st);
    StateReadBack(v.Get(State));
    assert v.Get(k) == Render(st, m).Get(k);
  }

  lemma PartsAreRendered(v: Value, m: Metadata, st: PairStatus)
    requires Parts(v, m, st) && st.state != Misspelled
    ensures v == Render(st, m)
  {
    hide Parts, ValidEnvelope, RenderRole, ProvenanceOf, StateName, CoverageName;
    PropertyRendered(v, m, st, Kind);
    assert v.fields.Keys == STATUS_KEYS by { EnvelopeKeys(v, m, st); }
    forall k | k in STATUS_KEYS
      ensures k in Render(st, m).fields && v.fields[k] == Render(st, m).fields[k]
    {
      PropertyRendered(v, m, st, k);
    }
    assert Render(st, m).fields.Keys == STATUS_KEYS;
    assert v.fields == Render(st, m).fields;
  }

  lemma EnvelopeKeys(v: Value, m: Metadata, st: PairStatus)
    requires Parts(v, m, st)
    ensures v.HasExactly(STATUS_KEYS)
  {
    hide ParseRoleStatus, Consistent, ProvenanceOf, StateOf, CoverageName;
  }

  lemma PartsAreRenderable(v: Value, m: Metadata, st: PairStatus)
    requires Parts(v, m, st) && st.state != Misspelled
    ensures Renderable(st, m)
  {
    hide RoleConsistent, ParseRoleStatus, RenderRole, SpellsState, Spelled, Consistent, ProvenanceOf, StateOf,
      StateName, CoverageName;
    RolesRendered(v, m, st);
  }

  /** And an answer that is understood as a named state is exactly what an
      authority in that status renders for this operation: an answer for another
      operation, another key or another provenance is never taken for this one. */
  lemma ParsedIsRendered(v: Value, m: Metadata)
    requires ParseStatusValue(v, m).Some? && ParseStatusValue(v, m).value.state != Misspelled
    ensures Renderable(ParseStatusValue(v, m).value, m)
    ensures v == Render(ParseStatusValue(v, m).value, m)
  {
    hide ParseStatusValue, Parts, Render, Renderable;
    var st := ParseStatusValue(v, m).value;
    ParsedParts(v, m);
    PartsAreRendered(v, m, st);
    PartsAreRenderable(v, m, st);
  }

  lemma StateReadBack(v: Value)
    ensures StateOf(v) != Misspelled ==> v == Str(StateName(StateOf(v)))
  {
  }

  /** The six-part test before a revoke is believed is the terminal flag alone. */
  lemma TerminalIsTombstone(v: Value, m: Metadata)
    requires ParseStatusValue(v, m).Some?
    ensures var st := ParseStatusValue(v, m).value;
            st.terminal <==> (st.terminal && st.state == Revoked && st.coverage == Absent &&
                              !st.writer.present && !st.evidence.present && !st.legacy)
    ensures var st := ParseStatusValue(v, m).value;
            st.state == Revoked && st.coverage == Absent && !st.legacy ==> st.terminal
  {
    hide ValidEnvelope, ParseRoleStatus, ProvenanceOf, StateOf;
  }

  /** The three-part test for "no operation" is the state alone. */
  lemma UnregisteredIsAbsent(v: Value, m: Metadata)
    requires ParseStatusValue(v, m).Some? && ParseStatusValue(v, m).value.state == Unregistered
    ensures var st := ParseStatusValue(v, m).value;
            st.coverage == Absent && !st.legacy && !st.writer.present && !st.evidence.present && !st.terminal
  {
    hide ValidEnvelope, ProvenanceOf, StateOf, ValidTimes;
    var st := ParseStatusValue(v, m).value;
    var roles := v.Get(Roles);
    assert ParseRoleStatus(roles.Get(Writer), m.writer, m.ttlSeconds) == Some(st.writer);
    assert ParseRoleStatus(roles.Get(Evidence), m.evidence, m.ttlSeconds) == Some(st.evidence);
  }
}
