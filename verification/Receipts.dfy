/** Invoice events: what the collector keeps of one, and what the verifier reads from it. */
module Receipts {
  import opened Values
  import opened Text
  import Instants

  /** The property names of an event, its invoice and the service's receipt row. */
  datatype Key =
    | Id | Type | Livemode | Account | Created | Data | ApiVersion
    | Object | Status | AmountPaid | AmountRemaining | Currency | StatusTransitions | PaidAt | Customer
    | Parent | SubscriptionDetails | Subscription | Metadata | Paid
    | TakoserverPurpose | OrganizationId | PlanKey | PricingRevision | SubscriptionCheckoutIntentId
    | EventId | ObjectId | EventCreatedAt | ReceivedAt | Outcome | OutcomeDetail | SettledAt
    | Other(name: string)

  type Value = Json<Key>

  /** `===` of two values of which at most one can be the same reference: only
      primitives are equal. */
  predicate Same(a: Value, b: Value) {
    a == b && !a.Arr? && !a.Obj?
  }

  predicate IsIdentifier(v: Value, prefix: string) {
    && v.Str? && |prefix| + 1 <= |v.s| && v.s[..|prefix| + 1] == prefix + "_"
    && 1 <= |v.s| - |prefix| - 1 <= 240
    && forall i | |prefix| + 1 <= i < |v.s| :: Alnum(v.s[i]) || v.s[i] == '_'
  }

  const MODERN := "2026-05-27.dahlia"

  predicate IsDate(s: string) {
    && |s| == 10 && s[4] == '-' && s[7] == '-'
    && forall i | 0 <= i < 10 && i != 4 && i != 7 :: Digit(s[i])
  }

  predicate SupportedVersion(v: Value) {
    v == Undefined || v == Null || v == Str(MODERN) || (v.Str? && IsDate(v.s) && Less(v.s, "2026-05-27"))
  }

  datatype Snapshot = Snapshot(modern: bool, subscription: string, customer: string, metadata: Value)

  const PINNED := {TakoserverPurpose, OrganizationId, PlanKey, PricingRevision, SubscriptionCheckoutIntentId}

  // ----- Parsing -----

  predicate PaidInTime(event: Value, invoice: Value) {
    && invoice.Get(Status) == Str("paid")
    && IsSafeInteger(invoice.Get(AmountPaid)) && invoice.Get(AmountPaid).n >= 0 && invoice.Get(AmountRemaining) == Num(0)
    && invoice.Get(StatusTransitions).Obj?
    && var paidAt := invoice.Get(StatusTransitions).Get(PaidAt);
       IsSafeInteger(paidAt) && paidAt.n > 0 && IsSafeInteger(event.Get(Created)) && event.Get(Created).n >= paidAt.n
  }

  /** The legacy aliases a modern invoice may also carry do not disagree. */
  predicate AliasesAgree(invoice: Value, subscription: Value, metadata: Value) {
    && (invoice.Get(Paid) == Undefined || invoice.Get(Paid) == Bool(true))
    && (invoice.Get(Subscription) == Undefined || Same(invoice.Get(Subscription), subscription))
    && (invoice.Get(SubscriptionDetails) == Undefined ||
        (invoice.Get(SubscriptionDetails).Obj? && invoice.Get(SubscriptionDetails).Get(Metadata).Obj? &&
         forall k | k in PINNED ::
           var legacy := invoice.Get(SubscriptionDetails).Get(Metadata).Get(k);
           legacy == Undefined || Same(legacy, metadata.Get(k))))
  }

  function ParseModern(event: Value, invoice: Value): Option<Snapshot> {
    if !PaidInTime(event, invoice) || !invoice.Get(Parent).Obj? then None
    else if invoice.Get(Parent).Get(Type) != Str("subscription_details") then None
    else
      var details := invoice.Get(Parent).Get(SubscriptionDetails);
      if !details.Obj? || !IsIdentifier(details.Get(Subscription), "sub") || !details.Get(Metadata).Obj? then None
      else
        var metadata := details.Get(Metadata);
        if !metadata.Get(SubscriptionCheckoutIntentId).IsText() then None
        else if !AliasesAgree(invoice, details.Get(Subscription), metadata) then None
        else if !IsIdentifier(invoice.Get(Customer), "cus") then None
        else Some(Snapshot(true, details.Get(Subscription).s, invoice.Get(Customer).s, metadata))
  }

  function ParseLegacy(invoice: Value): Option<Snapshot> {
    if !invoice.Obj? || Parent in invoice.fields then None
    else if invoice.Get(Status) != Str("paid") || invoice.Get(Paid) != Bool(true) then None
    else if !IsIdentifier(invoice.Get(Subscription), "sub") then None
    else if !invoice.Get(SubscriptionDetails).Obj? || !invoice.Get(SubscriptionDetails).Get(Metadata).Obj? then None
    else if !IsIdentifier(invoice.Get(Customer), "cus") then None
    else Some(Snapshot(false, invoice.Get(Subscription).s, invoice.Get(Customer).s,
                       invoice.Get(SubscriptionDetails).Get(Metadata)))
  }

  /** `parseInvoiceSnapshot` */
  function ParseInvoice(event: Value, invoice: Value): Option<Snapshot> {
    if !event.Obj? || !invoice.Obj? || !SupportedVersion(event.Get(ApiVersion)) then None
    else if event.Get(ApiVersion) == Str(MODERN) then ParseModern(event, invoice)
    else ParseLegacy(invoice)
  }

  // ----- Projecting -----

  /** A copy of the named properties; one that is missing is there as `Undefined`. */
  function Copy(v: Value, keys: set<Key>): map<Key, Value> {
    map k | k in keys :: v.Get(k)
  }

  /** A property that is copied only when it is there. */
  function Optional(v: Value, k: Key): map<Key, Value> {
    if v.Get(k) == Undefined then map[] else map[k := v.Get(k)]
  }

  const LEGACY_PINNED := PINNED - {SubscriptionCheckoutIntentId}
  const MODERN_COPIED := {Object, Id, Livemode, Status, AmountPaid, AmountRemaining, Currency, Customer}
  const LEGACY_COPIED := {Object, Id, Livemode, Status, Paid, Subscription, Customer}

  function LegacyDetails(source: Value, keys: set<Key>): Value {
    Obj(map[Metadata := Obj(Copy(source.Get(SubscriptionDetails).Get(Metadata), keys))])
  }

  /** The aliases are kept only when they are there. */
  function ModernKeys(source: Value): set<Key> {
    MODERN_COPIED + {StatusTransitions, Parent} +
    set k | k in {Paid, Subscription, SubscriptionDetails} && source.Get(k) != Undefined
  }

  function ParentOf(source: Value, s: Snapshot): Value {
    Obj(map[Type := source.Get(Parent).Get(Type),
            SubscriptionDetails := Obj(map[Subscription := Str(s.subscription), Metadata := Obj(Copy(s.metadata, PINNED))])])
  }

  function ModernField(source: Value, s: Snapshot, k: Key): Value {
    match k
    case StatusTransitions => Obj(map[PaidAt := source.Get(StatusTransitions).Get(PaidAt)])
    case Parent => ParentOf(source, s)
    case SubscriptionDetails => LegacyDetails(source, PINNED)
    case _ => source.Get(k)
  }

  function ModernObject(source: Value, s: Snapshot): Value {
    Obj(map k | k in ModernKeys(source) :: ModernField(source, s, k))
  }

  function LegacyObject(source: Value): Value {
    Obj(Copy(source, LEGACY_COPIED) + map[SubscriptionDetails := LegacyDetails(source, LEGACY_PINNED)])
  }

  predicate NoUndefined(v: Value) {
    v.Obj? && forall k | k in v.fields :: v.fields[k] != Undefined
  }

  function Envelope(event: Value, kept: Value): Value {
    Obj(Copy(event, {Id, Type, Livemode, Created}) + Optional(event, ApiVersion) + Optional(event, Account) +
        map[Data := Obj(map[Object := kept])])
  }

  /** `projectedEvent` of an invoice event. */
  function ProjectInvoice(event: Value, id: string): Option<Value> {
    if !event.Obj? || event.Get(Id) != Str(id) || event.Get(Type) != Str("invoice.paid") then None
    else if event.Get(Livemode) != Bool(false) then None
    else if event.Get(Account) != Undefined && event.Get(Account) != Null then None
    else if !IsSafeInteger(event.Get(Created)) || event.Get(Created).n <= 0 then None
    else if !event.Get(Data).Obj? || !event.Get(Data).Get(Object).Obj? then None
    else
      var source := event.Get(Data).Get(Object);
      var snapshot := ParseInvoice(event, source);
      if source.Get(Livemode) != Bool(false) || snapshot.None? then None
      else if source.Get(SubscriptionDetails) != Undefined &&
              (!source.Get(SubscriptionDetails).Obj? || !source.Get(SubscriptionDetails).Get(Metadata).Obj?) then None
      else
        var kept := if snapshot.value.modern then ModernObject(source, snapshot.value) else LegacyObject(source);
        if !NoUndefined(kept) || !NoUndefined(snapshot.value.metadata) then None
        else Some(Envelope(event, kept))
  }

  // ----- Through a file -----

  /** `JSON.parse(JSON.stringify(v))`: undefined properties go, in arrays they become null. */
  function RoundTrip(v: Value): Value {
    match v
    case Undefined => Undefined
    case Arr(items) =>
      Arr(seq(|items|, i requires 0 <= i < |items| => if items[i] == Undefined then Null else RoundTrip(items[i])))
    case Obj(fields) => Obj(map k | k in fields && fields[k] != Undefined :: RoundTrip(fields[k]))
    case _ => v
  }

  /** A value as JSON can hold it. */
  predicate IsJson(v: Value) {
    match v
    case Undefined => false
    case Arr(items) => forall i | 0 <= i < |items| :: IsJson(items[i])
    case Obj(fields) => forall k | k in fields :: IsJson(fields[k])
    case _ => true
  }

  lemma {:induction false} JsonStays(v: Value)
    requires IsJson(v)
    ensures RoundTrip(v) == v
  {
    match v
    case Arr(items) =>
      forall i | 0 <= i < |items|
        ensures RoundTrip(items[i]) == items[i]
      {
        JsonStays(items[i]);
      }
    case Obj(fields) =>
      forall k | k in fields
        ensures RoundTrip(fields[k]) == fields[k]
      {
        JsonStays(fields[k]);
      }
      assert RoundTrip(v).fields == fields;
    case _ =>
  }

  // ----- The projection keeps what is read -----

  /** The same kind, subscription and customer, and the same pinned metadata. */
  predicate Agree(a: Snapshot, b: Snapshot) {
    && a.modern == b.modern && a.subscription == b.subscription && a.customer == b.customer
    && (forall k | k in LEGACY_PINNED :: a.metadata.Get(k) == b.metadata.Get(k))
    && (a.modern ==> a.metadata.Get(SubscriptionCheckoutIntentId) == b.metadata.Get(SubscriptionCheckoutIntentId))
  }

  /** An event and invoice that read like a modern one. */
  predicate ReadsModern(event: Value, invoice: Value, event': Value, invoice': Value) {
    && event'.Obj? && invoice'.Obj? && event'.Get(ApiVersion) == Str(MODERN) && event'.Get(Created) == event.Get(Created)
    && (forall k | k in {Status, AmountPaid, AmountRemaining, Customer, Paid, Subscription} :: invoice'.Get(k) == invoice.Get(k))
    && invoice'.Get(StatusTransitions).Obj?
    && invoice'.Get(StatusTransitions).Get(PaidAt) == invoice.Get(StatusTransitions).Get(PaidAt)
    && ParentReads(invoice.Get(Parent), invoice'.Get(Parent))
    && AliasReads(invoice.Get(SubscriptionDetails), invoice'.Get(SubscriptionDetails))
  }

  predicate ParentReads(parent: Value, parent': Value) {
    && parent'.Obj? && parent'.Get(Type) == parent.Get(Type)
    && parent'.Get(SubscriptionDetails).Obj?
    && parent'.Get(SubscriptionDetails).Get(Subscription) == parent.Get(SubscriptionDetails).Get(Subscription)
    && MetadataReads(parent.Get(SubscriptionDetails), parent'.Get(SubscriptionDetails), PINNED)
  }

  predicate AliasReads(details: Value, details': Value) {
    (details == Undefined && details' == Undefined) || MetadataReads(details, details', PINNED)
  }

  predicate MetadataReads(details: Value, details': Value, keys: set<Key>) {
    && details'.Obj? && details'.Get(Metadata).Obj?
    && forall k | k in keys :: details'.Get(Metadata).Get(k) == details.Get(Metadata).Get(k)
  }

  predicate ReadsLegacy(event: Value, invoice: Value, event': Value, invoice': Value) {
    && event'.Obj? && invoice'.Obj? && Parent !in invoice'.fields && event'.Get(ApiVersion) == event.Get(ApiVersion)
    && (forall k | k in {Status, Paid, Subscription, Customer} :: invoice'.Get(k) == invoice.Get(k))
    && MetadataReads(invoice.Get(SubscriptionDetails), invoice'.Get(SubscriptionDetails), LEGACY_PINNED)
  }

  lemma ModernAgrees(event: Value, invoice: Value, event': Value, invoice': Value)
    requires ParseInvoice(event, invoice).Some? && ParseInvoice(event, invoice).value.modern
    requires ReadsModern(event, invoice, event', invoice')
    ensures ParseInvoice(event', invoice').Some?
    ensures Agree(ParseInvoice(event, invoice).value, ParseInvoice(event', invoice').value)
  {
    hide IsIdentifier, IsDate, Less;
    assert ParseModern(event, invoice).Some?;
    assert PaidInTime(event', invoice');
    assert AliasesAgree(invoice', invoice'.Get(Parent).Get(SubscriptionDetails).Get(Subscription),
                        invoice'.Get(Parent).Get(SubscriptionDetails).Get(Metadata));
    assert SubscriptionCheckoutIntentId in PINNED;
  }

  lemma LegacyAgrees(event: Value, invoice: Value, event': Value, invoice': Value)
    requires ParseInvoice(event, invoice).Some? && !ParseInvoice(event, invoice).value.modern
    requires ReadsLegacy(event, invoice, event', invoice')
    ensures ParseInvoice(event', invoice').Some?
    ensures Agree(ParseInvoice(event, invoice).value, ParseInvoice(event', invoice').value)
  {
    hide IsIdentifier, IsDate, Less;
    assert event.Get(ApiVersion) != Str(MODERN) by {
      NotModern(event, invoice);
    }
  }

  lemma NotModern(event: Value, invoice: Value)
    requires ParseInvoice(event, invoice).Some?
    ensures ParseInvoice(event, invoice).value.modern <==> event.Get(ApiVersion) == Str(MODERN)
  {
    hide IsIdentifier, IsDate, Less, AliasesAgree, PaidInTime;
  }

  function ObjectOf(event: Value): Value {
    event.Get(Data).Get(Object)
  }

  /** The pieces of a projected event. */
  lemma ProjectedPieces(event: Value, id: string)
    requires ProjectInvoice(event, id).Some?
    ensures var p := ProjectInvoice(event, id).value;
            var source := ObjectOf(event);
            ParseInvoice(event, source).Some? && p.Obj? &&
            p.Get(ApiVersion) == event.Get(ApiVersion) && p.Get(Created) == event.Get(Created) &&
            ObjectOf(p) == (if ParseInvoice(event, source).value.modern
                            then ModernObject(source, ParseInvoice(event, source).value) else LegacyObject(source))
  {
    hide ParseInvoice, ModernObject, LegacyObject, NoUndefined;
  }

  lemma KeptKeys(source: Value, s: Snapshot)
    ensures ModernObject(source, s).Obj? && ModernObject(source, s).fields.Keys == ModernKeys(source)
    ensures forall k | k in ModernKeys(source) :: ModernObject(source, s).Get(k) == ModernField(source, s, k)
  {
    hide ModernKeys, ModernField;
  }

  lemma AlwaysKept(source: Value)
    ensures {Object, Id, Livemode, Status, AmountPaid, AmountRemaining, Currency, StatusTransitions, Customer, Parent} <=
            ModernKeys(source)
  {
  }

  lemma CopiedKept(source: Value, k: Key)
    requires k in MODERN_COPIED || k == StatusTransitions
    ensures k in ModernKeys(source) && k !in {Parent, SubscriptionDetails} && (k in MODERN_COPIED ==> k != StatusTransitions)
  {
  }

  lemma AliasKept(source: Value, k: Key)
    requires k in {Paid, Subscription, SubscriptionDetails}
    ensures k in ModernKeys(source) <==> source.Get(k) != Undefined
  {
  }

  lemma ModernGets(source: Value, s: Snapshot, k: Key)
    ensures var kept := ModernObject(source, s);
            (k in MODERN_COPIED + {Paid, Subscription} ==> kept.Get(k) == source.Get(k)) &&
            (k == StatusTransitions ==> kept.Get(k) == Obj(map[PaidAt := source.Get(StatusTransitions).Get(PaidAt)])) &&
            (k == SubscriptionDetails ==>
               kept.Get(k) == if source.Get(k) == Undefined then Undefined else LegacyDetails(source, PINNED))
  {
    hide LegacyDetails, ModernObject, ModernKeys, ParentOf, MODERN_COPIED;
    KeptKeys(source, s);
    if k in MODERN_COPIED || k == StatusTransitions {
      CopiedKept(source, k);
    } else if k in {Paid, Subscription, SubscriptionDetails} {
      AliasKept(source, k);
    }
  }

  lemma ModernParent(source: Value, s: Snapshot)
    requires source.Get(Parent).Get(SubscriptionDetails).Get(Subscription) == Str(s.subscription)
    requires source.Get(Parent).Get(SubscriptionDetails).Get(Metadata) == s.metadata
    ensures ParentReads(source.Get(Parent), ModernObject(source, s).Get(Parent))
  {
    hide LegacyDetails;
    assert ModernObject(source, s).Get(Parent) == ParentOf(source, s);
    hide ModernObject;
  }

  lemma DetailsRead(source: Value, keys: set<Key>)
    ensures MetadataReads(source.Get(SubscriptionDetails), LegacyDetails(source, keys), keys)
  {
  }

  lemma ModernKept(event: Value, id: string)
    requires ProjectInvoice(event, id).Some? && event.Get(ApiVersion) == Str(MODERN)
    ensures var p := ProjectInvoice(event, id).value; ReadsModern(event, ObjectOf(event), p, ObjectOf(p))
  {
    hide ProjectInvoice, ModernObject, LegacyDetails, ParseInvoice, ParentReads, MetadataReads;
    var source := ObjectOf(event);
    ProjectedPieces(event, id);
    NotModern(event, source);
    var s := ParseInvoice(event, source).value;
    SnapshotOfModern(event, source);
    forall k
      ensures k in MODERN_COPIED + {Paid, Subscription} ==> ModernObject(source, s).Get(k) == source.Get(k)
    {
      ModernGets(source, s, k);
    }
    ModernGets(source, s, StatusTransitions);
    ModernGets(source, s, SubscriptionDetails);
    ModernParent(source, s);
    DetailsRead(source, PINNED);
    IsObject(source, s);
  }

  lemma IsObject(source: Value, s: Snapshot)
    ensures ModernObject(source, s).Obj?
  {
  }

  lemma SnapshotOfModern(event: Value, invoice: Value)
    requires ParseInvoice(event, invoice).Some? && event.Get(ApiVersion) == Str(MODERN)
    ensures var s := ParseInvoice(event, invoice).value;
            invoice.Get(Parent).Get(SubscriptionDetails).Get(Subscription) == Str(s.subscription) &&
            invoice.Get(Parent).Get(SubscriptionDetails).Get(Metadata) == s.metadata
  {
    hide IsDate, Less, AliasesAgree, PaidInTime;
  }

  lemma LegacyKept(event: Value, id: string)
    requires ProjectInvoice(event, id).Some? && event.Get(ApiVersion) != Str(MODERN)
    ensures var p := ProjectInvoice(event, id).value; ReadsLegacy(event, ObjectOf(event), p, ObjectOf(p))
  {
    hide ProjectInvoice, LegacyObject, ParseInvoice, MetadataReads;
    ProjectedPieces(event, id);
    NotModern(event, ObjectOf(event));
    LegacyReads(ObjectOf(event));
  }

  lemma LegacyReads(source: Value)
    ensures LegacyObject(source).Obj? && Parent !in LegacyObject(source).fields
    ensures forall k | k in LEGACY_COPIED :: LegacyObject(source).Get(k) == source.Get(k)
    ensures MetadataReads(source.Get(SubscriptionDetails), LegacyObject(source).Get(SubscriptionDetails), LEGACY_PINNED)
  {
    hide LegacyDetails, MetadataReads;
    DetailsRead(source, LEGACY_PINNED);
  }

  /** Parsing the projected event succeeds and agrees with parsing the original. */
  lemma ProjectionAgrees(event: Value, id: string)
    requires ProjectInvoice(event, id).Some?
    ensures var p := ProjectInvoice(event, id).value;
            ParseInvoice(event, ObjectOf(event)).Some? && ParseInvoice(p, ObjectOf(p)).Some? &&
            Agree(ParseInvoice(event, ObjectOf(event)).value, ParseInvoice(p, ObjectOf(p)).value)
  {
    hide ParseInvoice, ReadsModern, ReadsLegacy, Agree;
    var p := ProjectInvoice(event, id).value;
    NotModern(event, ObjectOf(event));
    if event.Get(ApiVersion) == Str(MODERN) {
      ModernKept(event, id);
      ModernAgrees(event, ObjectOf(event), p, ObjectOf(p));
    } else {
      LegacyKept(event, id);
      LegacyAgrees(event, ObjectOf(event), p, ObjectOf(p));
    }
  }

  lemma GetThrough(v: Value, k: Key)
    ensures RoundTrip(v).Get(k) == RoundTrip(v.Get(k)) && RoundTrip(v).Obj? == v.Obj?
    ensures v.Obj? ==> (k in RoundTrip(v).fields ==> k in v.fields)
  {
  }

  /** A property of a JSON value goes through unchanged. */
  lemma GetStays(v: Value, k: Key)
    requires v == Undefined || IsJson(v)
    ensures (v.Get(k) == Undefined || IsJson(v.Get(k))) && RoundTrip(v.Get(k)) == v.Get(k)
  {
    if v.Get(k) != Undefined {
      JsonStays(v.Get(k));
    }
  }

  lemma MetadataThrough(details: Value, details': Value, keys: set<Key>)
    requires (details == Undefined || IsJson(details)) && MetadataReads(details, details', keys)
    ensures MetadataReads(details, RoundTrip(details'), keys)
  {
    hide RoundTrip, IsJson;
    GetThrough(details', Metadata);
    GetStays(details, Metadata);
    forall k | k in keys
      ensures RoundTrip(details').Get(Metadata).Get(k) == details.Get(Metadata).Get(k)
    {
      GetThrough(details'.Get(Metadata), k);
      GetStays(details.Get(Metadata), k);
    }
    GetThrough(details'.Get(Metadata), Metadata);
  }

  lemma ParentThrough(parent: Value, parent': Value)
    requires (parent == Undefined || IsJson(parent)) && ParentReads(parent, parent')
    ensures ParentReads(parent, RoundTrip(parent'))
  {
    hide RoundTrip, IsJson, MetadataReads;
    GetThrough(parent', Type);
    GetThrough(parent', SubscriptionDetails);
    GetStays(parent, Type);
    GetStays(parent, SubscriptionDetails);
    var details, details' := parent.Get(SubscriptionDetails), parent'.Get(SubscriptionDetails);
    GetThrough(details', Subscription);
    GetStays(details, Subscription);
    MetadataThrough(details, details', PINNED);
  }

  lemma ModernThrough(event: Value, invoice: Value, event': Value, invoice': Value)
    requires IsJson(event) && IsJson(invoice) && ReadsModern(event, invoice, event', invoice')
    ensures ReadsModern(event, invoice, RoundTrip(event'), RoundTrip(invoice'))
  {
    hide RoundTrip, IsJson, ParentReads, MetadataReads, AliasReads;
    GetThrough(event', ApiVersion);
    GetThrough(event', Created);
    GetStays(event, Created);
    VersionThrough();
    forall k | k in {Status, AmountPaid, AmountRemaining, Customer, Paid, Subscription}
      ensures RoundTrip(invoice').Get(k) == invoice.Get(k)
    {
      GetThrough(invoice', k);
      GetStays(invoice, k);
    }
    GetThrough(invoice', StatusTransitions);
    GetStays(invoice, StatusTransitions);
    GetThrough(invoice'.Get(StatusTransitions), PaidAt);
    GetStays(invoice.Get(StatusTransitions), PaidAt);
    GetThrough(invoice', Parent);
    GetStays(invoice, Parent);
    ParentThrough(invoice.Get(Parent), invoice'.Get(Parent));
    GetThrough(invoice', SubscriptionDetails);
    GetStays(invoice, SubscriptionDetails);
    AliasThrough(invoice.Get(SubscriptionDetails), invoice'.Get(SubscriptionDetails));
  }

  lemma AliasThrough(details: Value, details': Value)
    requires (details == Undefined || IsJson(details)) && AliasReads(details, details')
    ensures AliasReads(details, RoundTrip(details'))
  {
    hide IsJson, MetadataReads;
    if !(details == Undefined && details' == Undefined) {
      MetadataThrough(details, details', PINNED);
    }
  }

  lemma VersionThrough()
    ensures RoundTrip(Str(MODERN)) == Str(MODERN)
  {
  }

  lemma LegacyThrough(event: Value, invoice: Value, event': Value, invoice': Value)
    requires IsJson(event) && IsJson(invoice) && ReadsLegacy(event, invoice, event', invoice')
    ensures ReadsLegacy(event, invoice, RoundTrip(event'), RoundTrip(invoice'))
  {
    hide RoundTrip, IsJson, MetadataReads;
    GetThrough(event', ApiVersion);
    GetStays(event, ApiVersion);
    GetThrough(invoice', Parent);
    forall k
      ensures RoundTrip(invoice').Get(k) == RoundTrip(invoice'.Get(k))
      ensures RoundTrip(invoice.Get(k)) == invoice.Get(k)
      ensures invoice.Get(k) == Undefined || IsJson(invoice.Get(k))
    {
      GetThrough(invoice', k);
      GetStays(invoice, k);
    }
    MetadataThrough(invoice.Get(SubscriptionDetails), invoice'.Get(SubscriptionDetails), LEGACY_PINNED);
  }

  /** So does parsing it after it was written to the evidence file and read back. */
  lemma ProjectionAgreesThroughFile(event: Value, id: string)
    requires IsJson(event) && ProjectInvoice(event, id).Some?
    ensures var p := RoundTrip(ProjectInvoice(event, id).value);
            ParseInvoice(event, ObjectOf(event)).Some? && ParseInvoice(p, ObjectOf(p)).Some? &&
            Agree(ParseInvoice(event, ObjectOf(event)).value, ParseInvoice(p, ObjectOf(p)).value)
  {
    var p := ProjectInvoice(event, id).value;
    hide ParseInvoice, ReadsModern, ReadsLegacy, Agree, RoundTrip, IsJson, ModernObject, LegacyObject, Copy, Optional;
    var source := ObjectOf(event);
    GetStays(event, Data);
    GetStays(event.Get(Data), Object);
    GetThrough(p, Data);
    GetThrough(p.Get(Data), Object);
    NotModern(event, source);
    if event.Get(ApiVersion) == Str(MODERN) {
      ModernKept(event, id);
      ModernThrough(event, source, p, ObjectOf(p));
      ModernAgrees(event, source, RoundTrip(p), RoundTrip(ObjectOf(p)));
    } else {
      LegacyKept(event, id);
      LegacyThrough(event, source, p, ObjectOf(p));
      LegacyAgrees(event, source, RoundTrip(p), RoundTrip(ObjectOf(p)));
    }
  }

  // ----- From the collector to the verifier -----

  /** `new Date(seconds * 1000).toISOString()` is the platform's. */
  type Iso = int -> string

  predicate IsInstant(v: Value) {
    v.Str? && Instants.Canonical(v.s)
  }

  const COLUMNS := {EventId, Type, Livemode, ObjectId, EventCreatedAt, ReceivedAt, Outcome, OutcomeDetail, SettledAt}

  /** What both sides ask of the row of an applied invoice. */
  predicate RowMatches(row: Value, event: Value, iso: Iso)
    requires event.Get(Created).Num?
  {
    && Same(row.Get(EventId), event.Get(Id)) && row.Get(Type) == Str("invoice.paid") && row.Get(Livemode) == Num(0)
    && row.Get(Outcome) == Str("applied") && row.Get(OutcomeDetail) == Str("invoice_credit_granted")
    && Same(row.Get(ObjectId), ObjectOf(event).Get(Id))
    && row.Get(EventCreatedAt) == Str(iso(event.Get(Created).n))
    && IsInstant(row.Get(ReceivedAt)) && IsInstant(row.Get(SettledAt)) && !Less(row.Get(SettledAt).s, row.Get(ReceivedAt).s)
  }

  /** `selectedReceipt` of the collector, on the projected event. */
  predicate SelectedReceipt(row: Value, event: Value, iso: Iso) {
    row.Obj? && event.Get(Created).Num? && ObjectOf(event).Obj? && RowMatches(row, event, iso)
  }

  /** `eventAndReceipt` of the verifier, on the evidence read back. */
  predicate EventAndReceipt(event: Value, row: Value, iso: Iso) {
    && event.Obj? && row.HasExactly(COLUMNS)
    && IsIdentifier(event.Get(Id), "evt") && event.Get(Type) == Str("invoice.paid") && event.Get(Livemode) == Bool(false)
    && (event.Get(Account) == Undefined || event.Get(Account) == Null)
    && IsSafeInteger(event.Get(Created)) && event.Get(Created).n > 0
    && event.Get(Data).Obj? && ObjectOf(event).Obj? && IsIdentifier(ObjectOf(event).Get(Id), "in")
    && ObjectOf(event).Get(Livemode) == Bool(false)
    && IsInstant(row.Get(EventCreatedAt)) && RowMatches(row, event, iso)
  }

  /** What the subscription's own records say, on either side. */
  datatype Terms = Terms(subscription: string, customer: string, organizationId: string, planKey: string,
                         pricingRevision: string, intentId: string)

  predicate SnapshotMatches(s: Snapshot, t: Terms) {
    && s.subscription == t.subscription && s.customer == t.customer
    && s.metadata.Get(TakoserverPurpose) == Str("hosted_subscription")
    && s.metadata.Get(OrganizationId) == Str(t.organizationId)
    && s.metadata.Get(PlanKey) == Str(t.planKey)
    && s.metadata.Get(PricingRevision) == Str(t.pricingRevision)
    && (s.modern ==> s.metadata.Get(SubscriptionCheckoutIntentId) == Str(t.intentId))
  }

  predicate InvoiceTermsMatch(event: Value, t: Terms) {
    && ObjectOf(event).Get(Object) == Str("invoice")
    && ParseInvoice(event, ObjectOf(event)).Some? && SnapshotMatches(ParseInvoice(event, ObjectOf(event)).value, t)
  }

  /** The invoice part of the collector: what it accepts, it writes. */
  predicate Collected(event: Value, row: Value, t: Terms, iso: Iso) {
    SelectedReceipt(row, event, iso) && InvoiceTermsMatch(event, t)
  }

  /** The invoice part of the verifier. */
  predicate Verified(event: Value, row: Value, t: Terms, iso: Iso) {
    EventAndReceipt(event, row, iso) && InvoiceTermsMatch(event, t)
  }

  /** What only the verifier asks: Stripe identities, exactly the nine columns, and
      an event time the fixed format can spell. */
  predicate OnlyVerifier(event: Value, row: Value, iso: Iso) {
    && IsIdentifier(event.Get(Id), "evt") && IsIdentifier(ObjectOf(event).Get(Id), "in") && row.HasExactly(COLUMNS)
    && event.Get(Created).Num? && Instants.Canonical(iso(event.Get(Created).n))
  }

  /** The pieces of a projected event that both receipts checks read. */
  lemma ProjectedReceiptPieces(event: Value, id: string)
    requires ProjectInvoice(event, id).Some?
    ensures var p := ProjectInvoice(event, id).value;
            p.Obj? && p.Get(Data).Obj? && ObjectOf(p).Obj? &&
            p.Get(Id) == Str(id) && p.Get(Type) == Str("invoice.paid") && p.Get(Livemode) == Bool(false) &&
            p.Get(Account) == event.Get(Account) && (p.Get(Account) == Undefined || p.Get(Account) == Null) &&
            p.Get(Created) == event.Get(Created) && IsSafeInteger(p.Get(Created)) && p.Get(Created).n > 0 &&
            ObjectOf(p).Get(Id) == ObjectOf(event).Get(Id) && ObjectOf(p).Get(Object) == ObjectOf(event).Get(Object) &&
            ObjectOf(p).Get(Livemode) == Bool(false)
  {
    hide ProjectInvoice, ParseInvoice, ModernObject, LegacyObject;
    EventPieces(event, id);
    ProjectedPieces(event, id);
    var source := ObjectOf(event);
    var s := ParseInvoice(event, source).value;
    ObjectPieces(source, s, Id);
    ObjectPieces(source, s, Object);
    ObjectPieces(source, s, Livemode);
  }

  lemma EventPieces(event: Value, id: string)
    requires ProjectInvoice(event, id).Some?
    ensures var p := ProjectInvoice(event, id).value;
            p.Obj? && p.Get(Data).Obj? && p.Get(Id) == Str(id) && p.Get(Type) == Str("invoice.paid") &&
            p.Get(Livemode) == Bool(false) && p.Get(Account) == event.Get(Account) &&
            (p.Get(Account) == Undefined || p.Get(Account) == Null) &&
            IsSafeInteger(p.Get(Created)) && p.Get(Created).n > 0 && ObjectOf(event).Get(Livemode) == Bool(false)
  {
    hide ParseInvoice, ModernObject, LegacyObject, NoUndefined;
  }

  lemma ObjectPieces(source: Value, s: Snapshot, k: Key)
    requires k in {Id, Object, Livemode}
    ensures ModernObject(source, s).Obj? && ModernObject(source, s).Get(k) == source.Get(k)
    ensures LegacyObject(source).Obj? && LegacyObject(source).Get(k) == source.Get(k)
  {
    hide LegacyDetails, ParentOf;
  }

  /** The file changes none of them. */
  lemma PiecesThroughFile(event: Value, id: string)
    requires IsJson(event) && ProjectInvoice(event, id).Some?
    ensures var p := ProjectInvoice(event, id).value;
            var q := RoundTrip(p);
            q.Obj? && q.Get(Data).Obj? && ObjectOf(q).Obj? &&
            (forall k | k in {Id, Type, Livemode, Created, Account} :: q.Get(k) == p.Get(k)) &&
            (forall k | k in {Id, Object, Livemode} :: ObjectOf(q).Get(k) == ObjectOf(p).Get(k))
  {
    hide ProjectInvoice, RoundTrip, IsJson;
    ProjectedReceiptPieces(event, id);
    var p := ProjectInvoice(event, id).value;
    GetThrough(p, Data);
    GetThrough(p.Get(Data), Object);
    GetStays(event, Data);
    GetStays(event.Get(Data), Object);
    forall k | k in {Id, Type, Livemode, Created, Account}
      ensures RoundTrip(p).Get(k) == p.Get(k)
    {
      GetThrough(p, k);
      Primitive(p.Get(k));
    }
    forall k | k in {Id, Object, Livemode}
      ensures ObjectOf(RoundTrip(p)).Get(k) == ObjectOf(p).Get(k)
    {
      GetThrough(ObjectOf(p), k);
      GetStays(ObjectOf(event), k);
      Primitive(ObjectOf(p).Get(k));
    }
    GetThrough(ObjectOf(p), Id);
  }

  lemma Primitive(v: Value)
    ensures !v.Arr? && !v.Obj? ==> RoundTrip(v) == v
  {
  }

  lemma TermsThroughFile(event: Value, id: string, t: Terms)
    requires IsJson(event) && ProjectInvoice(event, id).Some?
    ensures var p := ProjectInvoice(event, id).value; InvoiceTermsMatch(p, t) <==> InvoiceTermsMatch(RoundTrip(p), t)
  {
    hide ProjectInvoice, RoundTrip, IsJson, ParseInvoice, SnapshotMatches, Agree;
    var p := ProjectInvoice(event, id).value;
    PiecesThroughFile(event, id);
    ProjectionAgrees(event, id);
    ProjectionAgreesThroughFile(event, id);
    var a, b, c := ParseInvoice(event, ObjectOf(event)).value, ParseInvoice(p, ObjectOf(p)).value,
      ParseInvoice(RoundTrip(p), ObjectOf(RoundTrip(p))).value;
    AgreeingMatch(a, b, t);
    AgreeingMatch(a, c, t);
  }

  lemma AgreeingMatch(a: Snapshot, b: Snapshot, t: Terms)
    requires Agree(a, b)
    ensures SnapshotMatches(a, t) <==> SnapshotMatches(b, t)
  {
  }

  /** The invoice evidence the collector writes is accepted by the verifier if and
      only if it passes what only the verifier asks. */
  lemma CollectedIsVerified(event: Value, id: string, row: Value, t: Terms, iso: Iso)
    requires IsJson(event) && IsJson(row) && ProjectInvoice(event, id).Some?
    requires Collected(ProjectInvoice(event, id).value, row, t, iso)
    ensures var p := ProjectInvoice(event, id).value;
            Verified(RoundTrip(p), RoundTrip(row), t, iso) <==> OnlyVerifier(p, row, iso)
  {
    hide ProjectInvoice, RoundTrip, IsJson, InvoiceTermsMatch, IsIdentifier, Less;
    ProjectedReceiptPieces(event, id);
    PiecesThroughFile(event, id);
    TermsThroughFile(event, id, t);
    JsonStays(row);
  }

  // ----- The same on the event's own fields -----

  /** A Stripe identity of this kind, such as "sub_" followed by letters, digits and underscores. */
  predicate Identity(s: string, kind: string) {
    && kind <= s && 1 <= |s| - |kind| <= 240
    && forall i | |kind| <= i < |s| :: Alnum(s[i]) || s[i] == '_'
  }

  predicate IsPaid(invoice: Value) {
    invoice.Obj? && invoice.Get(Status) == Str("paid")
  }

  /** An event without a version, or of a version before the modern one. */
  predicate OfOlderVersion(event: Value) {
    match event.Get(ApiVersion)
    case Undefined => true
    case Null => true
    case Str(v) => IsDate(v) && Less(v, "2026-05-27")
    case _ => false
  }

  /** A legacy invoice has its subscription and metadata at the top. */
  predicate LegacyInvoice(invoice: Value, subscription: string, customer: string, metadata: Value) {
    && IsPaid(invoice) && invoice.Get(Paid) == Bool(true) && Parent !in invoice.fields
    && invoice.Get(Subscription) == Str(subscription) && Identity(subscription, "sub_")
    && invoice.Get(Customer) == Str(customer) && Identity(customer, "cus_")
    && invoice.Get(SubscriptionDetails).Get(Metadata) == metadata && metadata.Obj?
  }

  /** A modern one has them under its parent, with amounts and a paid time that is not after the event. */
  predicate ModernInvoice(event: Value, invoice: Value, subscription: string, customer: string, metadata: Value) {
    && IsPaid(invoice)
    && IsSafeInteger(invoice.Get(AmountPaid)) && 0 <= invoice.Get(AmountPaid).n && invoice.Get(AmountRemaining) == Num(0)
    && IsSafeInteger(event.Get(Created)) && IsSafeInteger(invoice.Get(StatusTransitions).Get(PaidAt))
    && 0 < invoice.Get(StatusTransitions).Get(PaidAt).n <= event.Get(Created).n
    && invoice.Get(Parent).Get(Type) == Str("subscription_details")
    && invoice.Get(Parent).Get(SubscriptionDetails).Get(Subscription) == Str(subscription) && Identity(subscription, "sub_")
    && invoice.Get(Parent).Get(SubscriptionDetails).Get(Metadata) == metadata && metadata.Obj?
    && metadata.Get(SubscriptionCheckoutIntentId).Str? && metadata.Get(SubscriptionCheckoutIntentId).s != ""
    && invoice.Get(Customer) == Str(customer) && Identity(customer, "cus_")
    && invoice.Get(Paid) in {Undefined, Bool(true)} && invoice.Get(Subscription) in {Undefined, Str(subscription)}
    && (invoice.Get(SubscriptionDetails) != Undefined ==> EchoesMetadata(invoice.Get(SubscriptionDetails), metadata))
  }

  /** What the old place still says of a pinned key is what the new one says. */
  predicate EchoesMetadata(details: Value, metadata: Value) {
    && details.Get(Metadata).Obj?
    && forall k | k in PINNED :: details.Get(Metadata).Get(k) == Undefined || Same(details.Get(Metadata).Get(k), metadata.Get(k))
  }

  lemma IdentifierIsIdentity(v: Value, prefix: string)
    ensures IsIdentifier(v, prefix) <==> v.Str? && Identity(v.s, prefix + "_")
  {
    if v.Str? && |prefix| + 1 <= |v.s| {
      assert v.s[..|prefix| + 1] == prefix + "_" <==> prefix + "_" <= v.s;
    }
  }

  lemma LegacyExactly(invoice: Value, subscription: string, customer: string, metadata: Value)
    ensures ParseLegacy(invoice) == Some(Snapshot(false, subscription, customer, metadata)) <==>
            LegacyInvoice(invoice, subscription, customer, metadata)
    ensures ParseLegacy(invoice).Some? ==> !ParseLegacy(invoice).value.modern
  {
    hide IsIdentifier, Identity;
    IdentifierIsIdentity(invoice.Get(Subscription), "sub");
    IdentifierIsIdentity(invoice.Get(Customer), "cus");
    assert "sub" + "_" == "sub_" && "cus" + "_" == "cus_";
  }

  lemma ModernExactly(event: Value, invoice: Value, subscription: string, customer: string, metadata: Value)
    ensures ParseModern(event, invoice) == Some(Snapshot(true, subscription, customer, metadata)) <==>
            ModernInvoice(event, invoice, subscription, customer, metadata)
    ensures ParseModern(event, invoice).Some? ==> ParseModern(event, invoice).value.modern
  {
    hide IsIdentifier, Identity;
    var details := invoice.Get(Parent).Get(SubscriptionDetails);
    IdentifierIsIdentity(details.Get(Subscription), "sub");
    IdentifierIsIdentity(invoice.Get(Customer), "cus");
    assert "sub" + "_" == "sub_" && "cus" + "_" == "cus_";
  }

  /** What is read from an event, exactly: a snapshot is modern exactly for the
      modern version, and has the subscription, customer and metadata of its fields. */
  lemma ParsedExactly(event: Value, invoice: Value, s: Snapshot)
    ensures ParseInvoice(event, invoice) == Some(s) <==>
            event.Obj? &&
            if event.Get(ApiVersion) == Str("2026-05-27.dahlia")
            then s.modern && ModernInvoice(event, invoice, s.subscription, s.customer, s.metadata)
            else !s.modern && OfOlderVersion(event) && LegacyInvoice(invoice, s.subscription, s.customer, s.metadata)
  {
    hide ParseModern, ParseLegacy, IsDate, Less;
    ModernExactly(event, invoice, s.subscription, s.customer, s.metadata);
    LegacyExactly(invoice, s.subscription, s.customer, s.metadata);
    ParsedObjects(event, invoice);
  }

  lemma ParsedObjects(event: Value, invoice: Value)
    ensures ParseModern(event, invoice).Some? || ParseLegacy(invoice).Some? ==> invoice.Obj?
    ensures forall subscription, customer, metadata ::
              (ModernInvoice(event, invoice, subscription, customer, metadata) ||
               LegacyInvoice(invoice, subscription, customer, metadata)) ==> invoice.Obj?
  {
    hide IsIdentifier, Identity;
  }

  /** The metadata pins the purchase. */
  predicate Pins(metadata: Value, t: Terms) {
    && metadata.Get(TakoserverPurpose) == Str("hosted_subscription") && metadata.Get(OrganizationId) == Str(t.organizationId)
    && metadata.Get(PlanKey) == Str(t.planKey) && metadata.Get(PricingRevision) == Str(t.pricingRevision)
  }

  /** An event matches the terms exactly when its own fields name their subscription,
      customer, Organization, plan and revision, and a modern one their checkout intent. */
  lemma TermsExactly(event: Value, t: Terms)
    ensures var invoice := ObjectOf(event);
            InvoiceTermsMatch(event, t) <==>
              event.Obj? && invoice.Get(Object) == Str("invoice") &&
              if event.Get(ApiVersion) == Str("2026-05-27.dahlia")
              then var metadata := invoice.Get(Parent).Get(SubscriptionDetails).Get(Metadata);
                   ModernInvoice(event, invoice, t.subscription, t.customer, metadata) && Pins(metadata, t) &&
                   metadata.Get(SubscriptionCheckoutIntentId) == Str(t.intentId)
              else var metadata := invoice.Get(SubscriptionDetails).Get(Metadata);
                   OfOlderVersion(event) && LegacyInvoice(invoice, t.subscription, t.customer, metadata) && Pins(metadata, t)
  {
    hide ParseInvoice, Identity, IsDate, Less, PINNED, OfOlderVersion;
    var invoice := ObjectOf(event);
    var modern := event.Get(ApiVersion) == Str("2026-05-27.dahlia");
    var metadata := if modern then invoice.Get(Parent).Get(SubscriptionDetails).Get(Metadata)
                    else invoice.Get(SubscriptionDetails).Get(Metadata);
    ParsedExactly(event, invoice, Snapshot(modern, t.subscription, t.customer, metadata));
    if ParseInvoice(event, invoice).Some? {
      var s := ParseInvoice(event, invoice).value;
      ParsedExactly(event, invoice, s);
      assert s.modern == modern && s.metadata == metadata;
    }
  }

  /** What the collector accepts, on the fields of the event and the row: the row is
      of this event and this invoice, applied, and settled no earlier than it was received. */
  lemma CollectedExactly(event: Value, row: Value, t: Terms, iso: Iso)
    ensures Collected(event, row, t, iso) <==>
            && InvoiceTermsMatch(event, t) && row.Obj? && event.Get(Created).Num?
            && row.Get(EventId) == event.Get(Id) && !row.Get(EventId).Obj? && !row.Get(EventId).Arr?
            && row.Get(ObjectId) == ObjectOf(event).Get(Id) && !row.Get(ObjectId).Obj? && !row.Get(ObjectId).Arr?
            && row.Get(Type) == Str("invoice.paid") && row.Get(Livemode) == Num(0)
            && row.Get(Outcome) == Str("applied") && row.Get(OutcomeDetail) == Str("invoice_credit_granted")
            && row.Get(EventCreatedAt) == Str(iso(event.Get(Created).n))
            && IsInstant(row.Get(ReceivedAt)) && IsInstant(row.Get(SettledAt))
            && Instants.Millis(row.Get(ReceivedAt).s) <= Instants.Millis(row.Get(SettledAt).s)
  {
    hide Instants.Canonical, Instants.Millis, Less, ParseInvoice, SnapshotMatches;
    if IsInstant(row.Get(ReceivedAt)) && IsInstant(row.Get(SettledAt)) {
      Instants.OrderAgrees(row.Get(SettledAt).s, row.Get(ReceivedAt).s);
    }
    if InvoiceTermsMatch(event, t) {
      TermsNeedObject(event);
    }
  }

  lemma TermsNeedObject(event: Value)
    requires ParseInvoice(event, ObjectOf(event)).Some?
    ensures ObjectOf(event).Obj?
  {
  }

  /** The projection keeps nothing but these fields. */
  lemma ProjectionKeepsOnly(event: Value, id: string)
    requires ProjectInvoice(event, id).Some?
    ensures var p := ProjectInvoice(event, id).value;
            var source, kept := ObjectOf(event), ObjectOf(p);
            KeepsEnvelope(p, event) && KeepsOnly(kept, source) &&
            if event.Get(ApiVersion) == Str("2026-05-27.dahlia") then KeepsModern(kept, source) else KeepsLegacy(kept)
  {
    hide ProjectInvoice, ParseInvoice, Agree, ModernObject, LegacyObject, KeepsEnvelope, KeepsOnly, KeepsModern, KeepsLegacy;
    ProjectedPieces(event, id);
    EnvelopeKeepsOnly(event, id);
    NotModern(event, ObjectOf(event));
    var source := ObjectOf(event);
    var s := ParseInvoice(event, source).value;
    if s.modern {
      ModernKeepsOnly(source, s);
    } else {
      LegacyKeepsOnly(source);
    }
  }

  /** An event keeps its identity, type, mode and time, and its version and account when it has them. */
  predicate KeepsEnvelope(p: Value, event: Value) {
    && p.Obj? && p.Get(Data).Obj? && p.Get(Data).fields.Keys == {Object}
    && {Id, Type, Livemode, Created, Data} <= p.fields.Keys <= {Id, Type, Livemode, Created, ApiVersion, Account, Data}
    && (forall k | k in {ApiVersion, Account} :: k in p.fields <==> event.Get(k) != Undefined)
    && (forall k | k in {Id, Type, Livemode, Created, ApiVersion, Account} :: p.Get(k) == event.Get(k))
  }

  lemma EnvelopeKeepsOnly(event: Value, id: string)
    requires ProjectInvoice(event, id).Some?
    ensures KeepsEnvelope(ProjectInvoice(event, id).value, event)
  {
    hide ParseInvoice, ModernObject, LegacyObject, NoUndefined, Envelope, KeepsEnvelope;
    var p := ProjectInvoice(event, id).value;
    var source := ObjectOf(event);
    var snapshot := ParseInvoice(event, source).value;
    var kept := if snapshot.modern then ModernObject(source, snapshot) else LegacyObject(source);
    assert p == Envelope(event, kept);
    EnvelopeKept(event, kept);
  }

  lemma EnvelopeKept(event: Value, kept: Value)
    ensures KeepsEnvelope(Envelope(event, kept), event)
  {
    hide Envelope;
    EnvelopeKeys(event, kept);
    forall k | k in {Id, Type, Livemode, Created, ApiVersion, Account}
      ensures Envelope(event, kept).Get(k) == event.Get(k)
    {
      EnvelopeField(event, kept, k);
    }
  }

  lemma EnvelopeKeys(event: Value, kept: Value)
    ensures var p := Envelope(event, kept);
            p.Obj? && p.Get(Data).Obj? && p.Get(Data).fields.Keys == {Object} &&
            {Id, Type, Livemode, Created, Data} <= p.fields.Keys &&
            p.fields.Keys <= {Id, Type, Livemode, Created, ApiVersion, Account, Data}
    ensures forall k | k in {ApiVersion, Account} :: k in Envelope(event, kept).fields <==> event.Get(k) != Undefined
  {
  }

  lemma EnvelopeField(event: Value, kept: Value, k: Key)
    requires k in {Id, Type, Livemode, Created, ApiVersion, Account}
    ensures Envelope(event, kept).Get(k) == event.Get(k)
  {
  }

  predicate OnlyPinned(kept: Value, metadata: Value) {
    kept.Obj? && kept.fields.Keys <= PINNED && forall k | k in kept.fields :: kept.Get(k) == metadata.Get(k)
  }

  predicate KeepsOnly(kept: Value, source: Value) {
    && kept.Obj?
    && kept.fields.Keys <= {Object, Id, Livemode, Status, AmountPaid, AmountRemaining, Currency, StatusTransitions,
                            Customer, Parent, Paid, Subscription, SubscriptionDetails}
    && (forall k | k in kept.fields && k !in {StatusTransitions, Parent, SubscriptionDetails} :: kept.Get(k) == source.Get(k))
    && (SubscriptionDetails in kept.fields ==>
          kept.Get(SubscriptionDetails).Obj? && kept.Get(SubscriptionDetails).fields.Keys == {Metadata} &&
          OnlyPinned(kept.Get(SubscriptionDetails).Get(Metadata), source.Get(SubscriptionDetails).Get(Metadata)))
    && (StatusTransitions in kept.fields ==>
          kept.Get(StatusTransitions) == Obj(map[PaidAt := source.Get(StatusTransitions).Get(PaidAt)]))
  }

  /** A modern invoice keeps all of these, and an alias exactly when it is there. */
  predicate KeepsModern(kept: Value, source: Value) {
    && kept.Obj?
    && {Object, Id, Livemode, Status, AmountPaid, AmountRemaining, Currency, StatusTransitions, Customer, Parent} <=
       kept.fields.Keys
    && (forall k | k in {Paid, Subscription, SubscriptionDetails} :: k in kept.fields <==> source.Get(k) != Undefined)
    && KeepsParent(kept.Get(Parent))
  }

  predicate KeepsParent(parent: Value) {
    && parent.Obj? && parent.fields.Keys == {Type, SubscriptionDetails}
    && var details := parent.Get(SubscriptionDetails);
       details.Obj? && details.fields.Keys == {Subscription, Metadata} &&
       details.Get(Metadata).Obj? && details.Get(Metadata).fields.Keys ==
         {TakoserverPurpose, OrganizationId, PlanKey, PricingRevision, SubscriptionCheckoutIntentId}
  }

  predicate KeepsLegacy(kept: Value) {
    && kept.Obj?
    && kept.fields.Keys == {Object, Id, Livemode, Status, Paid, Subscription, Customer, SubscriptionDetails}
    && kept.Get(SubscriptionDetails).Get(Metadata).Obj?
    && kept.Get(SubscriptionDetails).Get(Metadata).fields.Keys == {TakoserverPurpose, OrganizationId, PlanKey, PricingRevision}
  }

  lemma KeptParent(source: Value, s: Snapshot)
    ensures KeepsParent(ParentOf(source, s))
  {
  }

  lemma KeptFields(source: Value, s: Snapshot)
    ensures KeepsModern(ModernObject(source, s), source)
  {
    hide LegacyDetails, ParentOf, KeepsParent, ModernKeys, ModernObject;
    KeptParent(source, s);
    KeptKeys(source, s);
    AlwaysKept(source);
    assert Parent in ModernKeys(source);
    forall k | k in {Paid, Subscription, SubscriptionDetails}
      ensures k in ModernKeys(source) <==> source.Get(k) != Undefined
    {
      AliasKept(source, k);
    }
  }

  lemma ModernKeepsOnly(source: Value, s: Snapshot)
    ensures KeepsOnly(ModernObject(source, s), source)
    ensures KeepsModern(ModernObject(source, s), source)
  {
    KeptFields(source, s);
    hide KeepsModern;
    hide ParentOf, LegacyDetails, OnlyPinned, PINNED;
    DetailsKeepOnly(source, PINNED);
    var kept := ModernObject(source, s);
    forall k | k in kept.fields
      ensures kept.Get(k) == ModernField(source, s, k)
    {
    }
  }

  lemma DetailsKeepOnly(source: Value, keys: set<Key>)
    requires keys <= PINNED
    ensures var details := LegacyDetails(source, keys);
            details.Obj? && details.fields.Keys == {Metadata} &&
            OnlyPinned(details.Get(Metadata), source.Get(SubscriptionDetails).Get(Metadata))
  {
  }

  lemma LegacyKeepsOnly(source: Value)
    ensures KeepsOnly(LegacyObject(source), source)
    ensures KeepsLegacy(LegacyObject(source))
  {
    hide LegacyDetails, OnlyPinned;
    DetailsKeepOnly(source, LEGACY_PINNED);
    DetailsKeys(source);
  }

  lemma DetailsKeys(source: Value)
    ensures var metadata := LegacyDetails(source, LEGACY_PINNED).Get(Metadata);
            metadata.Obj? && metadata.fields.Keys == {TakoserverPurpose, OrganizationId, PlanKey, PricingRevision}
  {
  }

  /** An event the collector projects: of this identity, in test mode, of no connected account. */
  predicate Projectable(event: Value, id: string) {
    && event.Obj? && event.Get(Id) == Str(id) && event.Get(Type) == Str("invoice.paid")
    && event.Get(Livemode) == Bool(false) && event.Get(Account) in {Undefined, Null}
    && IsSafeInteger(event.Get(Created)) && 0 < event.Get(Created).n
    && ObjectOf(event).Get(Livemode) == Bool(false)
  }

  /** An invoice that can be read as the event's version demands, and has nothing missing that is kept. */
  predicate WholeInvoice(event: Value, invoice: Value, subscription: string, customer: string, metadata: Value) {
    && invoice.Get(Object) != Undefined && invoice.Get(Id) != Undefined && NoUndefined(metadata)
    && if event.Get(ApiVersion) == Str("2026-05-27.dahlia")
       then invoice.Get(Currency) != Undefined && ModernInvoice(event, invoice, subscription, customer, metadata)
       else OfOlderVersion(event) && LegacyInvoice(invoice, subscription, customer, metadata)
  }

  lemma ModernDefined(event: Value, invoice: Value, s: Snapshot)
    requires ModernInvoice(event, invoice, s.subscription, s.customer, s.metadata) && invoice.Get(Livemode) == Bool(false)
    ensures NoUndefined(ModernObject(invoice, s)) <==>
            invoice.Get(Object) != Undefined && invoice.Get(Id) != Undefined && invoice.Get(Currency) != Undefined
  {
    hide Identity, PINNED, LegacyDetails, ParentOf, EchoesMetadata;
    var kept := ModernObject(invoice, s);
    forall k | k in kept.fields
      ensures kept.fields[k] == Undefined <==> k in {Object, Id, Currency} && invoice.Get(k) == Undefined
    {
      DefinedField(event, invoice, s, k);
    }
    assert Object in kept.fields && Id in kept.fields && Currency in kept.fields;
  }

  lemma DefinedField(event: Value, invoice: Value, s: Snapshot, k: Key)
    requires ModernInvoice(event, invoice, s.subscription, s.customer, s.metadata) && invoice.Get(Livemode) == Bool(false)
    requires k in ModernKeys(invoice)
    ensures ModernField(invoice, s, k) == Undefined <==> k in {Object, Id, Currency} && invoice.Get(k) == Undefined
  {
    hide Identity, PINNED, EchoesMetadata, LegacyDetails, ParentOf, ModernKeys, ModernInvoice;
    match k
    case StatusTransitions =>
    case Parent => KeptParent(invoice, s);
    case SubscriptionDetails => DetailsRead(invoice, PINNED);
    case _ => DefinedCopy(event, invoice, s, k);
  }

  lemma DefinedCopy(event: Value, invoice: Value, s: Snapshot, k: Key)
    requires ModernInvoice(event, invoice, s.subscription, s.customer, s.metadata) && invoice.Get(Livemode) == Bool(false)
    requires k in ModernKeys(invoice) && k !in {StatusTransitions, Parent, SubscriptionDetails}
    ensures invoice.Get(k) == Undefined ==> k in {Object, Id, Currency}
  {
    hide Identity, PINNED, EchoesMetadata, ModernKeys;
    CopiedOrAlias(invoice, k);
    if k in {Paid, Subscription} {
      AliasKept(invoice, k);
    }
  }

  lemma CopiedOrAlias(source: Value, k: Key)
    requires k in ModernKeys(source) && k !in {StatusTransitions, Parent, SubscriptionDetails}
    ensures k in {Object, Id, Livemode, Status, AmountPaid, AmountRemaining, Currency, Customer, Paid, Subscription}
  {
  }

  lemma LegacyDefined(invoice: Value, s: Snapshot)
    requires LegacyInvoice(invoice, s.subscription, s.customer, s.metadata) && invoice.Get(Livemode) == Bool(false)
    ensures NoUndefined(LegacyObject(invoice)) <==> invoice.Get(Object) != Undefined && invoice.Get(Id) != Undefined
  {
    hide Identity, LEGACY_PINNED;
    var kept := LegacyObject(invoice);
    assert Object in kept.fields && Id in kept.fields;
    forall k | k in kept.fields
      ensures kept.fields[k] == Undefined <==> k in {Object, Id} && invoice.Get(k) == Undefined
    {
    }
  }

  /** An invoice is projected exactly when it can be read and nothing that is kept is missing. */
  lemma ProjectedExactly(event: Value, id: string)
    ensures ProjectInvoice(event, id).Some? <==>
            Projectable(event, id) && exists s: Snapshot ::
              WholeInvoice(event, ObjectOf(event), s.subscription, s.customer, s.metadata)
  {
    hide ParseInvoice, Projectable, WholeInvoice, ProjectInvoice;
    var invoice := ObjectOf(event);
    var modern := event.Get(ApiVersion) == Str("2026-05-27.dahlia");
    forall s: Snapshot | Projectable(event, id) && WholeInvoice(event, invoice, s.subscription, s.customer, s.metadata)
      ensures ProjectInvoice(event, id).Some?
    {
      WholeIsProjected(event, id, Snapshot(modern, s.subscription, s.customer, s.metadata));
    }
    if ProjectInvoice(event, id).Some? {
      ProjectedIsWhole(event, id);
    }
  }

  lemma WholeIsProjected(event: Value, id: string, s: Snapshot)
    requires Projectable(event, id) && s.modern == (event.Get(ApiVersion) == Str("2026-05-27.dahlia"))
    requires WholeInvoice(event, ObjectOf(event), s.subscription, s.customer, s.metadata)
    ensures ProjectInvoice(event, id).Some?
  {
    hide ParseInvoice, ModernObject, LegacyObject, Envelope, Identity, IsDate, Less, NoUndefined, PINNED, OfOlderVersion;
    var invoice := ObjectOf(event);
    ParsedExactly(event, invoice, s);
    if s.modern {
      ModernDefined(event, invoice, s);
    } else {
      LegacyDefined(invoice, s);
    }
  }

  lemma ProjectedIsWhole(event: Value, id: string)
    requires ProjectInvoice(event, id).Some?
    ensures Projectable(event, id) && ParseInvoice(event, ObjectOf(event)).Some?
    ensures var s := ParseInvoice(event, ObjectOf(event)).value;
            WholeInvoice(event, ObjectOf(event), s.subscription, s.customer, s.metadata)
  {
    hide ParseInvoice, ModernObject, LegacyObject, Envelope, Identity, IsDate, Less, NoUndefined, PINNED, OfOlderVersion;
    var invoice := ObjectOf(event);
    var s := ParseInvoice(event, invoice).value;
    ParsedExactly(event, invoice, s);
    if s.modern {
      ModernDefined(event, invoice, s);
    } else {
      LegacyDefined(invoice, s);
    }
  }
}
