/** Binding a journal on disk to the business input that wrote it. */
module JournalBinding {
  import opened Values
  import opened Text
  import opened Journal
  import opened JournalScript
  import opened JournalBytes
  import opened Observation

  /** The caller's side of a binding: the parsed input, the digest of its text,
      and the selected target. */
  datatype Claim = Claim(input: Value, inputSha256: string, targetSha256: string, origin: string)

  predicate ValidClaim(claim: Claim) {
    ValidInput(claim.input) && Plain(claim.input)
    && IsSha256(claim.inputSha256) && IsSha256(claim.targetSha256) && claim.origin != ""
  }

  function ClaimHeader(claim: Claim): Event
    requires ValidInput(claim.input)
  {
    Header(claim.inputSha256, claim.targetSha256, claim.input.Get(SourceHead).s, claim.origin)
  }

  /** The request body a step sends. */
  function StepBody(claim: Claim, step: Step): Value {
    match step
    case Personal => Obj(map[])
    case Usage => claim.input.Get(UsageOf)
    case Subscription => claim.input.Get(SubscriptionOf)
    case Topup => claim.input.Get(TopupOf)
  }

  /** The Organization the journal settled: the one acknowledged, else selected. */
  function SettledOrg(es: seq<Event>): Option<string> {
    if es == [] then None
    else
      match es[|es| - 1]
      case Ack(Personal, Some(org)) => Some(org)
      case Select(org) => Some(org)
      case _ => SettledOrg(es[..|es| - 1])
  }

  predicate EventMatches(e: Event, claim: Claim, org: Option<string>)
    requires ValidInput(claim.input)
  {
    match e
    case Observed(o) => org.Some? && ValidObservation(o) && ObservationMatches(o, org.value, claim.input)
    case Intent(step, _, body) => body == StepBody(claim, step)
    case _ => true
  }

  datatype Binding = Binding(events: seq<Event>, org: Option<string>)

  predicate Bound(es: seq<Event>, claim: Claim)
    requires ValidInput(claim.input)
  {
    && es != [] && es[0] == ClaimHeader(claim)
    && forall i | 0 <= i < |es| :: EventMatches(es[i], claim, SettledOrg(es))
  }

  /** `validatedJournalBinding` */
  function ValidatedBinding(c: Codec, raw: Bytes, claim: Claim): Option<Binding> {
    if !ValidInput(claim.input) then None
    else
      var es := ReadJournal(c, raw);
      if es.None? || !Bound(es.value, claim) then None
      else Some(Binding(es.value, SettledOrg(es.value)))
  }

  /** The loop of `validatedJournalBinding` over the accepted events. */
  method BindJournal(c: Codec, raw: Bytes, claim: Claim) returns (r: Option<Binding>)
    ensures r == ValidatedBinding(c, raw, claim)
  {
    hide ValidInput, EventMatches, ReadJournal, SettledOrg;
    if !ValidInput(claim.input) {
      return None;
    }
    var read := JournalEvents(c, raw);
    if read.None? || read.value == [] || read.value[0] != ClaimHeader(claim) {
      return None;
    }
    var events := read.value;
    var org := SettledOrg(events);
    var i := 0;
    while i < |events|
      invariant 0 <= i <= |events|
      invariant forall j | 0 <= j < i :: EventMatches(events[j], claim, org)
    {
      if !EventMatches(events[i], claim, org) {
        return None;
      }
      i := i + 1;
    }
    return Some(Binding(events, org));
  }

  /** `readCompleteBusinessJournalBinding` */
  function CompleteBinding(c: Codec, raw: Bytes, claim: Claim): Option<string> {
    var b := ValidatedBinding(c, raw, claim);
    if b.None? || b.value.org.None? then None
    else if Ack(Usage, None) in b.value.events && Ack(Subscription, None) in b.value.events && Ack(Topup, None) in b.value.events
    then b.value.org
    else None
  }

  // ----- The journey of a claim -----

  /** The journey a start run of this claim is on. */
  predicate JourneyOf(sc: Script, claim: Claim)
    requires ValidClaim(claim)
  {
    && sc.Valid()
    && sc.header == ClaimHeader(claim)
    && (sc.opening.Created? ==> sc.opening.body == StepBody(claim, Personal))
    && sc.usage == StepBody(claim, Usage)
    && sc.subscription == StepBody(claim, Subscription)
    && sc.topup == StepBody(claim, Topup)
    && (sc.observation.Some? ==> ObservationMatches(sc.observation.value, sc.opening.org, claim.input))
  }

  /** The bodies of a journey are parsed JSON. */
  predicate PlainScript(sc: Script) {
    Plain(sc.usage) && Plain(sc.subscription) && Plain(sc.topup) && (sc.opening.Created? ==> Plain(sc.opening.body))
  }

  lemma PlainJourney(sc: Script, claim: Claim)
    requires ValidClaim(claim) && JourneyOf(sc, claim)
    ensures PlainScript(sc)
  {
  }

  lemma PlainWritable(sc: Script, n: nat)
    requires PlainScript(sc) && sc.header.Header? && n <= sc.Length()
    ensures Writable(sc.Events()[..n])
  {
    hide Plain;
  }

  lemma {:induction false} SettledOrgAt(sc: Script, n: nat)
    requires 1 <= n <= sc.Length() && sc.header.Header?
    ensures SettledOrg(sc.Events()[..n]) == sc.State(n).org
  {
    var es := sc.Events()[..n];
    assert es[n - 1] == sc.At(n - 1);
    if n == 1 {
      assert SettledOrg(es[..0]) == None;
    } else {
      SettledOrgAt(sc, n - 1);
      assert es[..n - 1] == sc.Events()[..n - 1];
    }
  }

  lemma JourneyEventMatches(sc: Script, claim: Claim, n: nat, i: nat)
    requires ValidClaim(claim) && JourneyOf(sc, claim)
    requires i < n <= sc.Length()
    ensures EventMatches(sc.At(i), claim, sc.State(n).org)
  {
    hide ValidInput, ObservationMatches, ValidObservation, IsReference, IsSha256, IsHex;
  }

  lemma JourneyStarts(sc: Script, claim: Claim, n: nat)
    requires ValidClaim(claim) && JourneyOf(sc, claim) && 1 <= n <= sc.Length()
    ensures Follows(sc.Events()[..n], sc) && sc.header.Header? && sc.At(0) == ClaimHeader(claim)
  {
    hide ValidInput, ObservationMatches, ValidObservation, IsReference, IsSha256, IsHex;
  }

  /** Whatever records a claim's own start run has completed, the same claim is
      bound to them, with the Organization once one is settled. */
  lemma OwnJournalBinds(c: Codec, sc: Script, claim: Claim, n: nat)
    requires Lawful(c) && ValidClaim(claim) && JourneyOf(sc, claim) && 1 <= n <= sc.Length()
    ensures ValidatedBinding(c, Content(c, sc.Events()[..n]), claim) == Some(Binding(sc.Events()[..n], sc.State(n).org))
  {
    hide Follows, Record, Plain, ValidInput, Script.At, Script.State, Script.Valid, ReadJournal, PlainScript, JourneyOf, Writable,
      SettledOrg, EventMatches, Content, Lawful;
    var es := sc.Events()[..n];
    JourneyStarts(sc, claim, n);
    PlainJourney(sc, claim);
    PlainWritable(sc, n);
    ReadContent(c, es);
    SettledOrgAt(sc, n);
    forall i | 0 <= i < |es|
      ensures EventMatches(es[i], claim, SettledOrg(es))
    {
      JourneyEventMatches(sc, claim, n, i);
    }
  }

  lemma ReadIsLegal(c: Codec, raw: Bytes)
    ensures ReadJournal(c, raw).Some? ==> Legal(ReadJournal(c, raw).value)
  {
    if ReadJournal(c, raw).Some? {
      var rs := Decode(c, Split(TrimEnd(raw))).value;
      AcceptedLanguage(rs, Parse(rs).value.events);
    }
  }

  lemma BoundIsLegal(c: Codec, raw: Bytes, claim: Claim)
    requires ValidatedBinding(c, raw, claim).Some?
    ensures var b := ValidatedBinding(c, raw, claim).value; Legal(b.events) && b.org == SettledOrg(b.events)
  {
    hide ReadJournal, Bound, Legal, SettledOrg, ValidInput;
    ReadIsLegal(c, raw);
  }

  lemma CompleteJourney(sc: Script)
    ensures sc.State(sc.Length()).org.Some?
    ensures sc.At(sc.OpeningLength() + 2) == Ack(Usage, None)
    ensures sc.At(sc.Length() - 3) == Ack(Subscription, None)
  {
  }

  /** A complete binding needs nothing but the top-up acknowledgement: once it is
      there, the other two and the Organization are too. */
  lemma TopupAckSuffices(c: Codec, raw: Bytes, claim: Claim)
    ensures CompleteBinding(c, raw, claim).Some? <==>
            ValidatedBinding(c, raw, claim).Some? && Ack(Topup, None) in ValidatedBinding(c, raw, claim).value.events
  {
    hide ReadJournal, Bound, Legal, Script.Valid, Script.At, Script.State, ValidatedBinding, SettledOrg;
    var b := ValidatedBinding(c, raw, claim);
    if b.Some? && Ack(Topup, None) in b.value.events {
      BoundIsLegal(c, raw, claim);
      var es := b.value.events;
      TopupAckCompletes(es);
      var sc: Script :| sc.Valid() && es == sc.Events();
      CompleteJourneyOf(sc, es);
    }
  }

  lemma CompleteJourneyOf(sc: Script, es: seq<Event>)
    requires sc.Valid() && es == sc.Events()
    ensures SettledOrg(es).Some? && Ack(Usage, None) in es && Ack(Subscription, None) in es
  {
    assert sc.header.Header?;
    hide Script.Valid, Script.At, Script.State, SettledOrg;
    assert es == sc.Events()[..sc.Length()];
    SettledOrgAt(sc, sc.Length());
    CompleteJourney(sc);
    assert es[sc.OpeningLength() + 2] == Ack(Usage, None);
    assert es[sc.Length() - 3] == Ack(Subscription, None);
  }
}
