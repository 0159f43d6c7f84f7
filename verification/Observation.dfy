/** The business input, and the one usage observation a journey saves. */
module Observation {
  import opened Values
  import opened Text
  import Instants
  import J = Journal
  import opened Journal

  // ----- The business input -----

  const INPUT_KIND := "takoserver.hosted-billing-business-e2e-input@v1"

  predicate IsReferenceText(v: Value) {
    v.Str? && IsReference(v.s)
  }

  /** `^[a-z][a-z0-9.-]{0,127}$` without two dots in a row. */
  predicate IsMeter(s: string) {
    && 1 <= |s| <= 128 && 'a' <= s[0] <= 'z'
    && (forall i | 0 <= i < |s| :: 'a' <= s[i] <= 'z' || Digit(s[i]) || s[i] in ".-")
    && forall i | 0 <= i < |s| - 1 :: !(s[i] == '.' && s[i + 1] == '.')
  }

  /** `^[A-Za-z][A-Za-z0-9._-]{0,63}$` */
  predicate IsUnit(s: string) {
    && 1 <= |s| <= 64 && Alnum(s[0]) && !Digit(s[0])
    && forall i | 0 <= i < |s| :: Alnum(s[i]) || s[i] in "._-"
  }

  /** `^[A-Za-z0-9][A-Za-z0-9._-]{0,127}$` */
  predicate IsRevision(s: string) {
    && 1 <= |s| <= 128 && Alnum(s[0])
    && forall i | 0 <= i < |s| :: Alnum(s[i]) || s[i] in "._-"
  }

  /** `^(?:0|[1-9][0-9]*)(?:\.[0-9]{0,17}[1-9])?$`, at most 256 characters. */
  predicate IsQuantity(s: string) {
    && |s| <= 256
    && (IsCanonicalDecimal(s) ||
        exists d | 0 <= d < |s| - 1 ::
          s[d] == '.' && IsCanonicalDecimal(s[..d]) && |s| - d - 1 <= 18 && AllDigits(s[d + 1..]) && s[|s| - 1] != '0')
  }

  predicate IsFingerprint(s: string) {
    |s| <= 256 && forall i | 0 <= i < |s| :: s[i] as int > 0x1f && s[i] as int != 0x7f
  }

  predicate IsCanonicalInstant(v: Value) {
    v.Str? && Instants.Canonical(v.s)
  }

  predicate ValidUsage(u: Value) {
    && u.HasExactly({Reference, Meter, QuantityUnit, Quantity, PeriodStart, PeriodEnd,
                     PricingRevision, ExpectedMicros, MeasurementFingerprint, WorkspaceRef})
    && IsReferenceText(u.Get(Reference)) && IsReferenceText(u.Get(WorkspaceRef))
    && u.Get(Meter).Str? && IsMeter(u.Get(Meter).s)
    && u.Get(QuantityUnit).Str? && IsUnit(u.Get(QuantityUnit).s)
    && u.Get(Quantity).Str? && IsQuantity(u.Get(Quantity).s)
    && IsCanonicalInstant(u.Get(PeriodStart)) && IsCanonicalInstant(u.Get(PeriodEnd))
    && Less(u.Get(PeriodStart).s, u.Get(PeriodEnd).s)
    && u.Get(PricingRevision).Str? && IsRevision(u.Get(PricingRevision).s)
    && u.Get(MeasurementFingerprint).IsText() && IsFingerprint(u.Get(MeasurementFingerprint).s)
    && u.Get(ExpectedMicros).Str? && IsCanonicalDecimal(u.Get(ExpectedMicros).s) && |u.Get(ExpectedMicros).s| <= 16
  }

  /** What `parseBusinessInput` lets through. */
  predicate ValidInput(v: Value) {
    && v.HasExactly({Kind, SourceHead, TargetSha256, UsageOf, SubscriptionOf, TopupOf})
    && v.Get(Kind) == Str(INPUT_KIND)
    && v.Get(SourceHead).Str? && IsHex(v.Get(SourceHead).s, 40)
    && v.Get(TargetSha256).Str? && IsSha256(v.Get(TargetSha256).s)
    && ValidUsage(v.Get(UsageOf))
    && v.Get(SubscriptionOf).HasExactly({Reference, PlanKey})
    && IsReferenceText(v.Get(SubscriptionOf).Get(Reference)) && v.Get(SubscriptionOf).Get(PlanKey).IsText()
    && v.Get(TopupOf).HasExactly({Reference, AmountMinor})
    && IsReferenceText(v.Get(TopupOf).Get(Reference))
    && IsSafeInteger(v.Get(TopupOf).Get(AmountMinor)) && v.Get(TopupOf).Get(AmountMinor).n > 0
  }

  // ----- The observation -----

  datatype Timing = Timing(createdAt: string, start: string, end: string)

  /** `receiptUsageTiming` */
  function ReceiptUsageTiming(receipt: Value, input: Value): Option<Timing>
    requires ValidInput(input)
  {
    var usage := input.Get(UsageOf);
    var start, end := receipt.Get(AttributionPeriodStart), receipt.Get(AttributionPeriodEnd);
    if !receipt.Obj? then None
    else if receipt.Get(Status) != Str("pending") && receipt.Get(Status) != Str("paid") then None
    else if !IsCanonicalInstant(receipt.Get(CreatedAt)) || !IsCanonicalInstant(start) || !IsCanonicalInstant(end) then None
    else if !Less(start.s, end.s) then None
    else if Instants.Millis(start.s) > Instants.Millis(usage.Get(PeriodStart).s) then None
    else if Instants.Millis(end.s) < Instants.Millis(usage.Get(PeriodEnd).s) then None
    else Some(Timing(receipt.Get(CreatedAt).s, start.s, end.s))
  }

  predicate IsMicros(v: Value) {
    v.Str? && IsCanonicalMicros(v.s)
  }

  predicate ComparableSnapshot(snapshot: Value, org: string, timing: Timing)
    requires Instants.Canonical(timing.createdAt)
  {
    && snapshot.Obj?
    && snapshot.Get(OrganizationId) == Str(org)
    && snapshot.Get(Unit) == Str("USD-micros")
    && snapshot.Get(Cursor) == Null
    && IsCanonicalInstant(snapshot.Get(SnapshotAt))
    && snapshot.Get(Workspaces).Arr? && |snapshot.Get(Workspaces).items| == 1
    && snapshot.Get(PeriodStart) == Str(timing.start)
    && snapshot.Get(PeriodEnd) == Str(timing.end)
    && IsCanonicalInstant(snapshot.Get(PeriodStart)) && IsCanonicalInstant(snapshot.Get(PeriodEnd))
    && Less(timing.start, timing.end)
    && Instants.Millis(timing.start) <= Instants.Millis(snapshot.Get(SnapshotAt).s)
    && Instants.Millis(snapshot.Get(SnapshotAt).s) < Instants.Millis(timing.end)
    && Instants.Millis(timing.createdAt) <= Instants.Millis(snapshot.Get(SnapshotAt).s)
  }

  /** `workspaceAggregateObservation`: a refusal, or the observation to save.
      The amount itself is never held against the safe-integer bound. */
  function WorkspaceAggregateObservation(
    snapshot: Value, org: string, input: Value, receipt: Value): Option<J.Observation>
    requires ValidInput(input)
  {
    var timing := ReceiptUsageTiming(receipt, input);
    if timing.None? || !ComparableSnapshot(snapshot, org, timing.value) then None
    else
      var usage := input.Get(UsageOf);
      var row := snapshot.Get(Workspaces).items[0];
      if !row.Obj? || row.Get(WorkspaceRef) != usage.Get(WorkspaceRef) then None
      else if !IsMicros(row.Get(UsedMicros)) || !IsMicros(row.Get(HeldMicros)) || !IsMicros(row.Get(PendingMicros)) then None
      else
        var used, held, pending := Decimal(row.Get(UsedMicros).s), Decimal(row.Get(HeldMicros).s), Decimal(row.Get(PendingMicros).s);
        var amount := usage.Get(ExpectedMicros).s;
        if used + held + pending > MAX_SAFE_INTEGER then None
        else if Decimal(amount) == 0 then None
        else if used + pending < Decimal(amount) then None
        else Some(J.Observation(
          org, usage.Get(Reference).s, usage.Get(WorkspaceRef).s, amount,
          timing.value.start, timing.value.end, timing.value.createdAt,
          snapshot.Get(SnapshotAt).s, row.Get(UsedMicros).s, row.Get(PendingMicros).s))
  }

  /** What `validatedJournalBinding` demands of a saved observation. */
  predicate ObservationMatches(o: J.Observation, org: string, input: Value)
    requires ValidInput(input) && ValidObservation(o)
  {
    var usage := input.Get(UsageOf);
    && o.organizationId == org
    && Str(o.usageReference) == usage.Get(Reference)
    && Str(o.workspaceRef) == usage.Get(WorkspaceRef)
    && Str(o.amountMicros) == usage.Get(ExpectedMicros)
    && Instants.Millis(o.attributionPeriodStart) <= Instants.Millis(usage.Get(PeriodStart).s)
    && Instants.Millis(o.attributionPeriodEnd) >= Instants.Millis(usage.Get(PeriodEnd).s)
  }

  /** What `runVerify` demands of a saved observation against the receipt it
      reads later. */
  predicate SavedMatchesReceipt(o: J.Observation, org: string, input: Value, receipt: Value)
    requires ValidInput(input) && ValidObservation(o)
  {
    var usage := input.Get(UsageOf);
    var timing := ReceiptUsageTiming(receipt, input);
    && timing.Some?
    && o.organizationId == org
    && Str(o.usageReference) == usage.Get(Reference)
    && Str(o.workspaceRef) == usage.Get(WorkspaceRef)
    && Str(o.amountMicros) == usage.Get(ExpectedMicros)
    && o.attributionPeriodStart == timing.value.start
    && o.attributionPeriodEnd == timing.value.end
    && o.receiptCreatedAt == timing.value.createdAt
    && Decimal(o.amountMicros) > 0
    && Decimal(o.usedMicros) + Decimal(o.pendingMicros) >= Decimal(o.amountMicros)
  }

  /** Every observation the writer builds is accepted by all three readers for
      the same input and Organization: by the journal reader, whose safe-integer
      bound on the amount the writer never tests; by the binding check; and by a
      later verify that sees the same receipt. */
  lemma BuiltIsAccepted(snapshot: Value, org: string, input: Value, receipt: Value)
    requires ValidInput(input) && IsReference(org)
    requires WorkspaceAggregateObservation(snapshot, org, input, receipt).Some?
    ensures ValidObservation(WorkspaceAggregateObservation(snapshot, org, input, receipt).value)
    ensures ObservationMatches(WorkspaceAggregateObservation(snapshot, org, input, receipt).value, org, input)
    ensures SavedMatchesReceipt(WorkspaceAggregateObservation(snapshot, org, input, receipt).value, org, input, receipt)
  {
    hide Instants.Canonical, Instants.Millis, IsSha256, IsHex, IsMeter, IsUnit, IsQuantity, IsRevision, IsFingerprint;
  }

  /** The receipt is pending or paid and covers the usage with its period. */
  predicate Covers(receipt: Value, usage: Value) {
    && receipt.Obj? && receipt.Get(Status) in {Str("pending"), Str("paid")}
    && IsCanonicalInstant(receipt.Get(CreatedAt)) && IsCanonicalInstant(usage.Get(PeriodStart)) && IsCanonicalInstant(usage.Get(PeriodEnd))
    && IsCanonicalInstant(receipt.Get(AttributionPeriodStart)) && IsCanonicalInstant(receipt.Get(AttributionPeriodEnd))
    && Instants.Millis(receipt.Get(AttributionPeriodStart).s) < Instants.Millis(receipt.Get(AttributionPeriodEnd).s)
    && Instants.Millis(receipt.Get(AttributionPeriodStart).s) <= Instants.Millis(usage.Get(PeriodStart).s)
    && Instants.Millis(usage.Get(PeriodEnd).s) <= Instants.Millis(receipt.Get(AttributionPeriodEnd).s)
  }

  /** The snapshot is of the receipt's period, taken in it and not before the receipt. */
  predicate Compares(snapshot: Value, receipt: Value, org: string) {
    && snapshot.Obj? && snapshot.Get(OrganizationId) == Str(org) && snapshot.Get(Unit) == Str("USD-micros")
    && snapshot.Get(Cursor) == Null && IsCanonicalInstant(snapshot.Get(SnapshotAt)) && IsCanonicalInstant(receipt.Get(CreatedAt))
    && snapshot.Get(PeriodStart) == receipt.Get(AttributionPeriodStart) && IsCanonicalInstant(receipt.Get(AttributionPeriodStart))
    && snapshot.Get(PeriodEnd) == receipt.Get(AttributionPeriodEnd) && IsCanonicalInstant(receipt.Get(AttributionPeriodEnd))
    && Instants.Millis(snapshot.Get(PeriodStart).s) <= Instants.Millis(snapshot.Get(SnapshotAt).s)
    && Instants.Millis(receipt.Get(CreatedAt).s) <= Instants.Millis(snapshot.Get(SnapshotAt).s)
    && Instants.Millis(snapshot.Get(SnapshotAt).s) < Instants.Millis(snapshot.Get(PeriodEnd).s)
  }

  /** The row is the usage's Workspace, and shows at least its amount, which is not zero. */
  predicate Shows(row: Value, usage: Value) {
    && row.Obj? && row.Get(WorkspaceRef) == usage.Get(WorkspaceRef) && usage.Get(ExpectedMicros).Str?
    && IsCanonicalDecimal(usage.Get(ExpectedMicros).s)
    && IsMicros(row.Get(UsedMicros)) && IsMicros(row.Get(HeldMicros)) && IsMicros(row.Get(PendingMicros))
    && 0 < Decimal(usage.Get(ExpectedMicros).s) <= Decimal(row.Get(UsedMicros).s) + Decimal(row.Get(PendingMicros).s)
    && Decimal(row.Get(UsedMicros).s) + Decimal(row.Get(HeldMicros).s) + Decimal(row.Get(PendingMicros).s) <= MAX_SAFE_INTEGER
  }

  /** The observation is the usage's reference, Workspace and amount, the receipt's
      period and time, the snapshot's time, and the row's two amounts. */
  predicate Quotes(o: J.Observation, snapshot: Value, row: Value, usage: Value, receipt: Value) {
    && Str(o.usageReference) == usage.Get(Reference) && Str(o.workspaceRef) == usage.Get(WorkspaceRef)
    && Str(o.amountMicros) == usage.Get(ExpectedMicros)
    && Str(o.attributionPeriodStart) == receipt.Get(AttributionPeriodStart)
    && Str(o.attributionPeriodEnd) == receipt.Get(AttributionPeriodEnd)
    && Str(o.receiptCreatedAt) == receipt.Get(CreatedAt) && Str(o.snapshotAt) == snapshot.Get(SnapshotAt)
    && Str(o.usedMicros) == row.Get(UsedMicros) && Str(o.pendingMicros) == row.Get(PendingMicros)
  }

  /** When an observation is made, and of what. */
  lemma ObservedExactly(snapshot: Value, org: string, input: Value, receipt: Value)
    requires ValidInput(input)
    ensures var usage := input.Get(UsageOf);
            var o := WorkspaceAggregateObservation(snapshot, org, input, receipt);
            (o.Some? <==>
               Covers(receipt, usage) && Compares(snapshot, receipt, org) && snapshot.Get(Workspaces).Arr? &&
               |snapshot.Get(Workspaces).items| == 1 && Shows(snapshot.Get(Workspaces).items[0], usage)) &&
            (o.Some? ==>
               o.value.organizationId == org &&
               Quotes(o.value, snapshot, snapshot.Get(Workspaces).items[0], usage, receipt))
  {
    hide Instants.Millis, IsSha256, IsHex, IsMeter, IsUnit, IsQuantity, IsRevision, IsFingerprint, Instants.Canonical;
    var start, end := receipt.Get(AttributionPeriodStart), receipt.Get(AttributionPeriodEnd);
    if IsCanonicalInstant(start) && IsCanonicalInstant(end) {
      Instants.OrderAgrees(start.s, end.s);
    }
  }

  /** A zero amount, or a total past the bound, is refused whatever else holds;
      and an amount past the bound can never be observed. */
  lemma NeverObserved(snapshot: Value, org: string, input: Value, receipt: Value)
    requires ValidInput(input)
    requires Decimal(input.Get(UsageOf).Get(ExpectedMicros).s) == 0 ||
             Decimal(input.Get(UsageOf).Get(ExpectedMicros).s) > MAX_SAFE_INTEGER
    ensures WorkspaceAggregateObservation(snapshot, org, input, receipt).None?
  {
    hide Instants.Canonical, Instants.Millis, IsSha256, IsHex, IsMeter, IsUnit, IsQuantity, IsRevision, IsFingerprint;
  }
}
