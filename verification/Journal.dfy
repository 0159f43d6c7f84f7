/** The billing journal: its records, the reader's state machine, and the one
    script every accepted journal is a prefix of. */
module Journal {
  import opened Values
  import opened Text
  import Instants

  datatype Step = Personal | Usage | Subscription | Topup

  const STEPS: seq<Step> := [Personal, Usage, Subscription, Topup]

  function StepName(step: Step): string {
    match step
    case Personal => "personal"
    case Usage => "usage"
    case Subscription => "subscription"
    case Topup => "topup"
  }

  /** The property names of journal records, of the business input, and of the
      billing service's answers. */
  datatype Key =
    | Kind | StepOf | OrganizationId | Body | Source
    | InputSha256 | TargetSha256 | SourceHead | Origin
    | UsageReference | WorkspaceRef | AmountMicros | AttributionPeriodStart | AttributionPeriodEnd
    | ReceiptCreatedAt | SnapshotAt | UsedMicros | PendingMicros
    | UsageOf | SubscriptionOf | TopupOf | Reference | Meter | QuantityUnit | Quantity
    | PeriodStart | PeriodEnd | PricingRevision | ExpectedMicros | MeasurementFingerprint
    | PlanKey | AmountMinor
    | Status | CreatedAt | Unit | Cursor | Workspaces | HeldMicros
    | Other(name: string)

  type Value = Json<Key>

  datatype Observation = Observation(
    organizationId: string,
    usageReference: string,
    workspaceRef: string,
    amountMicros: string,
    attributionPeriodStart: string,
    attributionPeriodEnd: string,
    receiptCreatedAt: string,
    snapshotAt: string,
    usedMicros: string,
    pendingMicros: string)

  datatype Event =
    | Header(inputSha256: string, targetSha256: string, sourceHead: string, origin: string)
    | Intent(step: Step, org: Option<string>, body: Value)
    | Ack(step: Step, ackOrg: Option<string>)
    | Select(selected: string)
    | Observed(observation: Observation)

  const JOURNAL_KIND := "takoserver.hosted-billing-business-e2e-journal@v1"

  const OBSERVATION_KEYS := {Kind, OrganizationId, UsageReference, WorkspaceRef, AmountMicros, AttributionPeriodStart, AttributionPeriodEnd, ReceiptCreatedAt, SnapshotAt, UsedMicros, PendingMicros}

  /** The object the writer serializes for an event. */
  function Record(e: Event): Value {
    match e
    case Header(i, t, h, o) =>
      Obj(map[Kind := Str(JOURNAL_KIND), InputSha256 := Str(i), TargetSha256 := Str(t),
              SourceHead := Str(h), Origin := Str(o)])
    case Intent(step, org, body) =>
      Obj(map[Kind := Str("intent"), StepOf := Str(StepName(step)),
              OrganizationId := if org.Some? then Str(org.value) else Null, Body := body])
    case Ack(step, org) =>
      if org.Some? then
        Obj(map[Kind := Str("ack"), StepOf := Str(StepName(step)), OrganizationId := Str(org.value)])
      else
        Obj(map[Kind := Str("ack"), StepOf := Str(StepName(step))])
    case Select(org) =>
      Obj(map[Kind := Str("select"), StepOf := Str("personal"),
              OrganizationId := Str(org), Source := Str("shared-workspace")])
    case Observed(o) =>
      Obj(map[Kind := Str("workspace-usage-observation"),
              OrganizationId := Str(o.organizationId), UsageReference := Str(o.usageReference),
              WorkspaceRef := Str(o.workspaceRef), AmountMicros := Str(o.amountMicros),
              AttributionPeriodStart := Str(o.attributionPeriodStart),
              AttributionPeriodEnd := Str(o.attributionPeriodEnd),
              ReceiptCreatedAt := Str(o.receiptCreatedAt), SnapshotAt := Str(o.snapshotAt),
              UsedMicros := Str(o.usedMicros), PendingMicros := Str(o.pendingMicros)])
  }

  /** What the reader demands of an observation's own fields. */
  predicate ValidObservation(o: Observation) {
    && IsReference(o.organizationId) && IsReference(o.usageReference) && IsReference(o.workspaceRef)
    && IsCanonicalMicros(o.amountMicros)
    && IsCanonicalMicros(o.usedMicros)
    && IsCanonicalMicros(o.pendingMicros)
    && Instants.Canonical(o.attributionPeriodStart)
    && Instants.Canonical(o.attributionPeriodEnd)
    && Less(o.attributionPeriodStart, o.attributionPeriodEnd)
    && Instants.Canonical(o.receiptCreatedAt)
    && Instants.Canonical(o.snapshotAt)
    && Instants.Millis(o.attributionPeriodStart) <= Instants.Millis(o.snapshotAt)
    && Instants.Millis(o.snapshotAt) < Instants.Millis(o.attributionPeriodEnd)
    && Instants.Millis(o.receiptCreatedAt) <= Instants.Millis(o.snapshotAt)
    && 0 < Decimal(o.amountMicros)
    && Decimal(o.amountMicros) <= Decimal(o.usedMicros) + Decimal(o.pendingMicros)
    && Decimal(o.usedMicros) + Decimal(o.pendingMicros) <= MAX_SAFE_INTEGER
  }

  /** The reader takes an observation exactly when its fields are spelled as they
      should be, the snapshot lies in the period and not before the receipt, and
      the amount is positive and covered by a safe total. */
  lemma ObservationExactly(o: Observation)
    ensures ValidObservation(o) <==>
            && IsReference(o.organizationId) && IsReference(o.usageReference) && IsReference(o.workspaceRef)
            && IsCanonicalMicros(o.amountMicros) && IsCanonicalMicros(o.usedMicros) && IsCanonicalMicros(o.pendingMicros)
            && Instants.Canonical(o.attributionPeriodStart) && Instants.Canonical(o.attributionPeriodEnd)
            && Instants.Canonical(o.receiptCreatedAt) && Instants.Canonical(o.snapshotAt)
            && Instants.Millis(o.attributionPeriodStart) <= Instants.Millis(o.snapshotAt)
            && Instants.Millis(o.receiptCreatedAt) <= Instants.Millis(o.snapshotAt)
            && Instants.Millis(o.snapshotAt) < Instants.Millis(o.attributionPeriodEnd)
            && 1 <= Decimal(o.amountMicros) <= Decimal(o.usedMicros) + Decimal(o.pendingMicros) <= MAX_SAFE_INTEGER
  {
    hide Instants.Canonical, Instants.Millis, IsReference, IsCanonicalMicros, Less;
    if Instants.Canonical(o.attributionPeriodStart) && Instants.Canonical(o.attributionPeriodEnd) {
      Instants.OrderAgrees(o.attributionPeriodStart, o.attributionPeriodEnd);
    }
  }

  predicate ValidHeader(e: Event) {
    e.Header? && IsSha256(e.inputSha256) && IsSha256(e.targetSha256) && IsHex(e.sourceHead, 40) && e.origin != ""
  }

  /** The reader's variables: position, unacknowledged intent, Organization,
      whether an observation was read, and the events accepted so far. */
  datatype Parser = Parser(
    next: nat,
    pending: Option<Step>,
    org: Option<string>,
    observed: bool,
    events: seq<Event>)

  function ParseHeader(r: Value): Option<Parser> {
    if r.Get(Kind) != Str(JOURNAL_KIND) then None
    else if !r.HasExactly({Kind, InputSha256, TargetSha256, SourceHead, Origin}) then None
    else if !r.Get(InputSha256).Str? || !r.Get(TargetSha256).Str? || !r.Get(SourceHead).Str? || !r.Get(Origin).Str? then None
    else
      var e := Header(r.Get(InputSha256).s, r.Get(TargetSha256).s, r.Get(SourceHead).s, r.Get(Origin).s);
      if ValidHeader(e) then Some(Parser(0, None, None, false, [e])) else None
  }

  function ParseIntent(p: Parser, r: Value): Option<Parser> {
    if !r.HasExactly({Kind, StepOf, OrganizationId, Body}) then None
    else if p.next >= 4 || p.pending.Some? || r.Get(StepOf) != Str(StepName(STEPS[p.next])) then None
    else
      var step := STEPS[p.next];
      if step != Personal && p.org.None? then None
      else
        var org := if step == Personal then None else p.org;
        if r.Get(OrganizationId) != (if org.Some? then Str(org.value) else Null) then None
        else if !r.Get(Body).Obj? then None
        else Some(p.(pending := Some(step), events := p.events + [Intent(step, org, r.Get(Body))]))
  }

  function ParseSelect(p: Parser, r: Value): Option<Parser> {
    if !r.HasExactly({Kind, StepOf, OrganizationId, Source}) then None
    else if p.next != 0 || p.pending.Some? || r.Get(StepOf) != Str("personal") then None
    else if r.Get(Source) != Str("shared-workspace") then None
    else if !r.Get(OrganizationId).Str? then None
    else
      var org := r.Get(OrganizationId).s;
      if IsReference(org) && "org_wb_" <= org then
        Some(p.(next := 1, org := Some(org), events := p.events + [Select(org)]))
      else None
  }

  function ObservationOf(r: Value): Observation
    requires r.HasExactly(OBSERVATION_KEYS) && forall k | k in OBSERVATION_KEYS :: r.Get(k).Str?
  {
    Observation(
      r.Get(OrganizationId).s, r.Get(UsageReference).s, r.Get(WorkspaceRef).s,
      r.Get(AmountMicros).s, r.Get(AttributionPeriodStart).s, r.Get(AttributionPeriodEnd).s,
      r.Get(ReceiptCreatedAt).s, r.Get(SnapshotAt).s, r.Get(UsedMicros).s, r.Get(PendingMicros).s)
  }

  function ParseObservation(p: Parser, r: Value): Option<Parser> {
    if !r.HasExactly(OBSERVATION_KEYS) then None
    else if p.next != 2 || p.pending.Some? || p.observed then None
    else if exists k | k in OBSERVATION_KEYS :: !r.Get(k).Str? then None
    else
      var o := ObservationOf(r);
      if ValidObservation(o) then Some(p.(observed := true, events := p.events + [Observed(o)])) else None
  }

  function ParseAck(p: Parser, r: Value): Option<Parser> {
    if p.pending.None? || r.Get(StepOf) != Str(StepName(p.pending.value)) then None
    else if p.pending == Some(Personal) then
      if !r.HasExactly({Kind, StepOf, OrganizationId}) || !r.Get(OrganizationId).Str? then None
      else
        var org := r.Get(OrganizationId).s;
        if IsReference(org) && "org_" <= org then
          Some(p.(next := p.next + 1, pending := None, org := Some(org), events := p.events + [Ack(Personal, Some(org))]))
        else None
    else if !r.HasExactly({Kind, StepOf}) then None
    else Some(p.(next := p.next + 1, pending := None, events := p.events + [Ack(p.pending.value, None)]))
  }

  /** One turn of the reader's loop. */
  function ParseNext(p: Parser, r: Value): Option<Parser> {
    if !r.Obj? then None
    else if r.Get(Kind) == Str("intent") then ParseIntent(p, r)
    else if r.Get(Kind) == Str("select") then ParseSelect(p, r)
    else if r.Get(Kind) == Str("workspace-usage-observation") then ParseObservation(p, r)
    else if r.Get(Kind) == Str("ack") then ParseAck(p, r)
    else None
  }

  /** The reader on a whole record list. */
  function Parse(rs: seq<Value>): Option<Parser> {
    if |rs| == 0 then None
    else if |rs| == 1 then ParseHeader(rs[0])
    else
      var p := Parse(rs[..|rs| - 1]);
      if p.None? then None else ParseNext(p.value, rs[|rs| - 1])
  }

  /** The loop of `journal` over the parsed lines. */
  method ReadRecords(rs: seq<Value>) returns (r: Option<Parser>)
    ensures r == Parse(rs)
  {
    hide ParseHeader, ParseNext;
    if |rs| == 0 {
      return None;
    }
    r := ParseHeader(rs[0]);
    var i := 1;
    assert rs[..1] == [rs[0]];
    while i < |rs| && r.Some?
      invariant 1 <= i <= |rs|
      invariant r == Parse(rs[..i])
    {
      r := ParseNext(r.value, rs[i]);
      assert rs[..i + 1][..i] == rs[..i];
      i := i + 1;
    }
    if i < |rs| {
      RefusedStaysRefused(rs, i);
    } else {
      assert rs[..i] == rs;
    }
  }

  lemma {:induction false} RefusedStaysRefused(rs: seq<Value>, i: nat)
    requires 1 <= i <= |rs| && Parse(rs[..i]).None?
    ensures Parse(rs).None?
    decreases |rs|
  {
    if i < |rs| {
      assert rs[..|rs| - 1][..i] == rs[..i];
      RefusedStaysRefused(rs[..|rs| - 1], i);
    } else {
      assert rs[..i] == rs;
    }
  }

  // ----- The same machine on events -----

  /** What the reader decides, stated on events instead of raw objects. */
  function Accept(p: Parser, e: Event): Option<Parser> {
    match e
    case Intent(step, org, body) =>
      if p.next < 4 && p.pending.None? && step == STEPS[p.next] && body.Obj?
         && org == (if step == Personal then None else p.org) && (step != Personal ==> p.org.Some?)
      then Some(p.(pending := Some(step), events := p.events + [e])) else None
    case Select(org) =>
      if p.next == 0 && p.pending.None? && IsReference(org) && "org_wb_" <= org
      then Some(p.(next := 1, org := Some(org), events := p.events + [e])) else None
    case Observed(o) =>
      if p.next == 2 && p.pending.None? && !p.observed && ValidObservation(o)
      then Some(p.(observed := true, events := p.events + [e])) else None
    case Ack(step, org) =>
      if p.pending != Some(step) || (step == Personal) != org.Some? then None
      else if step == Personal && !(IsReference(org.value) && "org_" <= org.value) then None
      else Some(p.(next := p.next + 1, pending := None,
                   org := if step == Personal then org else p.org, events := p.events + [e]))
    case Header(_, _, _, _) => None
  }

  lemma KindsDiffer(e: Event)
    ensures e.Intent? ==> Record(e).Get(Kind) == Str("intent")
    ensures !e.Intent? ==> Record(e).Get(Kind) != Str("intent")
    ensures e.Select? <==> Record(e).Get(Kind) == Str("select")
    ensures e.Observed? <==> Record(e).Get(Kind) == Str("workspace-usage-observation")
    ensures e.Ack? <==> Record(e).Get(Kind) == Str("ack")
  {
  }

  lemma IntentIsRead(p: Parser, e: Event)
    requires e.Intent?
    ensures ParseIntent(p, Record(e)) == Accept(p, e)
  {
    assert Record(e).HasExactly({Kind, StepOf, OrganizationId, Body});
  }

  lemma SelectIsRead(p: Parser, e: Event)
    requires e.Select?
    ensures ParseSelect(p, Record(e)) == Accept(p, e)
  {
    assert Record(e).HasExactly({Kind, StepOf, OrganizationId, Source});
  }

  lemma ObservationFields(e: Event)
    requires e.Observed?
    ensures Record(e).HasExactly(OBSERVATION_KEYS) && forall k | k in OBSERVATION_KEYS :: Record(e).Get(k).Str?
    ensures ObservationOf(Record(e)) == e.observation
  {
  }

  lemma ObservationIsRead(p: Parser, e: Event)
    requires e.Observed?
    ensures ParseObservation(p, Record(e)) == Accept(p, e)
  {
    ObservationFields(e);
  }

  lemma AckIsRead(p: Parser, e: Event)
    requires e.Ack?
    ensures ParseAck(p, Record(e)) == Accept(p, e)
  {
    assert Record(e).HasExactly(if e.ackOrg.Some? then {Kind, StepOf, OrganizationId} else {Kind, StepOf});
  }

  /** The object a writer makes of an event is read as the event when it is
      acceptable in the reader's state, and refused when it is not. */
  lemma RecordIsRead(p: Parser, e: Event)
    ensures ParseNext(p, Record(e)) == Accept(p, e)
  {
    KindsDiffer(e);
    match e
    case Intent(_, _, _) => IntentIsRead(p, e);
    case Select(_) => SelectIsRead(p, e);
    case Observed(_) => ObservationIsRead(p, e);
    case Ack(_, _) => AckIsRead(p, e);
    case Header(_, _, _, _) =>
  }

  predicate Reads(p: Parser, r: Value, q: Parser) {
    && |q.events| == |p.events| + 1 && q.events == p.events + [q.events[|p.events|]]
    && r == Record(q.events[|p.events|])
    && Accept(p, q.events[|p.events|]) == Some(q)
  }

  lemma IntentRecord(p: Parser, r: Value, q: Parser)
    requires r.Get(Kind) == Str("intent") && ParseIntent(p, r) == Some(q)
    ensures Reads(p, r, q)
  {
    assert r.fields == Record(q.events[|p.events|]).fields;
  }

  lemma SelectRecord(p: Parser, r: Value, q: Parser)
    requires r.Get(Kind) == Str("select") && ParseSelect(p, r) == Some(q)
    ensures Reads(p, r, q)
  {
    assert r.fields == Record(q.events[|p.events|]).fields;
  }

  lemma ObservationRebuilt(r: Value)
    requires r.Get(Kind) == Str("workspace-usage-observation") && r.HasExactly(OBSERVATION_KEYS)
    requires forall k | k in OBSERVATION_KEYS :: r.Get(k).Str?
    ensures r == Record(Observed(ObservationOf(r)))
  {
    var built := Record(Observed(ObservationOf(r)));
    forall k | k in OBSERVATION_KEYS
      ensures built.fields[k] == r.Get(k)
    {
    }
    assert r.fields == built.fields;
  }

  lemma ObservationRecord(p: Parser, r: Value, q: Parser)
    requires r.Get(Kind) == Str("workspace-usage-observation") && ParseObservation(p, r) == Some(q)
    ensures Reads(p, r, q)
  {
    ObservationRebuilt(r);
    assert q.events == p.events + [Observed(ObservationOf(r))];
  }

  lemma AckRecord(p: Parser, r: Value, q: Parser)
    requires r.Get(Kind) == Str("ack") && ParseAck(p, r) == Some(q)
    ensures Reads(p, r, q)
  {
    assert r.fields == Record(q.events[|p.events|]).fields;
  }

  /** And an object the reader accepts is exactly what the writer makes of the
      event it returns: exact keys leave room for nothing else. */
  lemma ReadIsRecord(p: Parser, r: Value, q: Parser)
    requires ParseNext(p, r) == Some(q)
    ensures Reads(p, r, q)
  {
    if r.Get(Kind) == Str("intent") {
      IntentRecord(p, r, q);
    } else if r.Get(Kind) == Str("select") {
      SelectRecord(p, r, q);
    } else if r.Get(Kind) == Str("workspace-usage-observation") {
      ObservationRecord(p, r, q);
    } else {
      AckRecord(p, r, q);
    }
  }

  lemma ReadHeader(r: Value, p: Parser)
    requires ParseHeader(r) == Some(p)
    ensures |p.events| == 1 && ValidHeader(p.events[0]) && r == Record(p.events[0])
    ensures p == Parser(0, None, None, false, p.events)
  {
    assert r.fields == Record(p.events[0]).fields;
  }

  lemma HeaderIsRead(e: Event)
    requires ValidHeader(e)
    ensures ParseHeader(Record(e)) == Some(Parser(0, None, None, false, [e]))
  {
    assert Record(e).HasExactly({Kind, InputSha256, TargetSha256, SourceHead, Origin});
  }
}
