/** What the requests and the records of a journey carry, told by the business input itself. */
module JournalRequests {
  import opened Values
  import opened Text
  import opened Journal
  import opened JournalScript
  import opened JournalBytes
  import opened Observation
  import opened JournalBinding
  import opened JournalRuns
  import J = Journal
  import Instants

  /** A request of a step, for this input: personal with nothing, the others with
      their part of the input and an Organization. */
  predicate Asks(input: Value, step: Step, org: Option<string>, body: Value) {
    match step
    case Personal => org.None? && body == Obj(map[])
    case Usage => org.Some? && body == input.Get(UsageOf) && MetersUsage(body)
    case Subscription => org.Some? && body == input.Get(SubscriptionOf) && TakesPlan(body)
    case Topup => org.Some? && body == input.Get(TopupOf) && BuysCredit(body)
  }

  /** A metered quantity over some time, priced in micros. */
  predicate MetersUsage(body: Value) {
    && body.HasExactly({Reference, Meter, QuantityUnit, Quantity, PeriodStart, PeriodEnd, PricingRevision, ExpectedMicros,
                        MeasurementFingerprint, WorkspaceRef})
    && (forall k | k in body.fields :: body.Get(k).Str?)
    && IsReference(body.Get(Reference).s) && IsReference(body.Get(WorkspaceRef).s)
    && Instants.Canonical(body.Get(PeriodStart).s) && Instants.Canonical(body.Get(PeriodEnd).s)
    && Instants.Millis(body.Get(PeriodStart).s) < Instants.Millis(body.Get(PeriodEnd).s)
    && IsCanonicalDecimal(body.Get(ExpectedMicros).s) && |body.Get(ExpectedMicros).s| <= 16
  }

  predicate TakesPlan(body: Value) {
    && body.HasExactly({Reference, PlanKey}) && body.Get(Reference).Str? && IsReference(body.Get(Reference).s)
    && body.Get(PlanKey).Str? && body.Get(PlanKey).s != ""
  }

  /** A top-up is of a positive amount. */
  predicate BuysCredit(body: Value) {
    && body.HasExactly({Reference, AmountMinor}) && body.Get(Reference).Str? && IsReference(body.Get(Reference).s)
    && body.Get(AmountMinor).Num? && 0 < body.Get(AmountMinor).n <= MAX_SAFE_INTEGER
  }

  /** The header of a claim's journal. */
  predicate Opens(claim: Claim, e: Event) {
    && e.Header? && e.inputSha256 == claim.inputSha256 && e.targetSha256 == claim.targetSha256
    && Str(e.sourceHead) == claim.input.Get(SourceHead) && e.origin == claim.origin
  }

  /** The records say what the claim's input says. */
  predicate Tallies(claim: Claim, es: seq<Event>) {
    && es != [] && Opens(claim, es[0])
    && (forall e | e in es && e.Intent? :: Asks(claim.input, e.step, e.org, e.body))
    && (forall e | e in es && e.Observed? ::
          && Str(e.observation.usageReference) == claim.input.Get(UsageOf).Get(Reference)
          && Str(e.observation.workspaceRef) == claim.input.Get(UsageOf).Get(WorkspaceRef)
          && Str(e.observation.amountMicros) == claim.input.Get(UsageOf).Get(ExpectedMicros))
  }

  lemma JourneyTallies(sc: Script, claim: Claim, n: nat)
    requires ValidClaim(claim) && JourneyOf(sc, claim) && 1 <= n <= sc.Length()
    ensures Tallies(claim, Prefix(sc, n))
  {
    hide IsReference, IsSha256, IsHex, ValidUsage, ValidObservation, Plain, MetersUsage, TakesPlan, BuysCredit;
    var es := Prefix(sc, n);
    assert es[0] == sc.At(0);
    forall e | e in es && e.Intent?
      ensures Asks(claim.input, e.step, e.org, e.body)
    {
      var i :| 0 <= i < n && es[i] == e;
      InputParts(claim.input);
    }
    forall e | e in es && e.Observed?
      ensures e.observation == sc.observation.value && sc.observation.Some?
    {
      var i :| 0 <= i < n && es[i] == e;
    }
  }

  lemma InputParts(input: Value)
    requires ValidInput(input)
    ensures MetersUsage(input.Get(UsageOf)) && TakesPlan(input.Get(SubscriptionOf)) && BuysCredit(input.Get(TopupOf))
  {
    hide IsReference, IsSha256, IsHex, ValidUsage, MetersUsage;
    UsageParts(input.Get(UsageOf));
  }

  lemma UsageParts(usage: Value)
    requires ValidUsage(usage)
    ensures MetersUsage(usage)
  {
    hide IsReference, IsMeter, IsUnit, IsQuantity, IsRevision, IsFingerprint, Instants.Canonical, Instants.Millis, Less;
    Instants.OrderAgrees(usage.Get(PeriodStart).s, usage.Get(PeriodEnd).s);
  }

  lemma {:induction false} RequestIsIntent(es: seq<Event>, p: Post)
    requires p in Requests(es)
    ensures Intent(p.step, p.org, p.body) in es
  {
    if !(es[|es| - 1].Intent? && p == Post(es[|es| - 1].step, es[|es| - 1].org, es[|es| - 1].body)) {
      RequestIsIntent(es[..|es| - 1], p);
    }
  }

  /** In every history a request carries its part of the input of the run that
      created the journal: usage, subscription and top-up each their own, personal
      the empty object; and all of them name one Organization. */
  lemma RequestsCarryInput(c: Codec, ws: seq<World>, acts: seq<Action>, p: Post, q: Post)
    requires History(c, ws, acts) && p in ws[|acts|].posts && q in ws[|acts|].posts
    ensures ws[|acts|].author.Some? && Asks(ws[|acts|].author.value.input, p.step, p.org, p.body)
    ensures p.org.Some? && q.org.Some? ==> p.org == q.org
  {
    hide Act, Holds, DeskInv, JourneyOf, ValidClaim, Requests, Asks;
    Kept(c, ws, acts);
    var w := ws[|acts|];
    var sc, n: nat :| Authored(c, w.file.value, w.posts, sc, n, w.author.value);
    PostTallies(c, w.file.value, w.posts, sc, n, w.author.value, p);
    PostTallies(c, w.file.value, w.posts, sc, n, w.author.value, q);
  }

  lemma PostTallies(c: Codec, f: File, posts: seq<Post>, sc: Script, n: nat, author: Claim, p: Post)
    requires Authored(c, f, posts, sc, n, author) && p in posts
    ensures Asks(author.input, p.step, p.org, p.body) && (p.org.Some? ==> p.org == Some(sc.opening.org))
  {
    hide JourneyOf, ValidClaim, Requests, Asks, Complete, NextLine, ObservationWhole, Script.At, Script.Valid, PlainScript;
    var m := if Sent(posts, sc, n) then n else n - 1;
    RequestIsIntent(Prefix(sc, m), p);
    JourneyTallies(sc, author, m);
    ValidStarts(sc);
    if p.org.Some? {
      IntentOrg(sc, m, Intent(p.step, p.org, p.body));
    }
  }

  lemma IntentOrg(sc: Script, n: nat, e: Event)
    requires n <= sc.Length() && e in Prefix(sc, n) && e.Intent? && e.org.Some? && sc.header.Header?
    ensures e.org == Some(sc.opening.org)
  {
  }

  /** In every history the readable journal opens with the author's header and
      says what the author's input says. */
  lemma JournalTallies(c: Codec, ws: seq<World>, acts: seq<Action>)
    requires Lawful(c) && History(c, ws, acts) && ws[|acts|].file.Some?
    requires ReadJournal(c, ws[|acts|].file.value.bytes).Some?
    ensures ws[|acts|].author.Some?
    ensures Tallies(ws[|acts|].author.value, ReadJournal(c, ws[|acts|].file.value.bytes).value)
  {
    hide Act, DeskInv, JourneyOf, ValidClaim, Lawful, ReadJournal, Tallies, Holds, Prefix;
    Kept(c, ws, acts);
    var w := ws[|acts|];
    var sc, n: nat :| Authored(c, w.file.value, w.posts, sc, n, w.author.value);
    var k := ReadableAt(c, w.file.value, w.posts, sc, n);
    JourneyTallies(sc, w.author.value, k);
  }

  // ----- Acknowledgements -----

  /** An accepted answer to the last request sent, a personal one naming its Organization. */
  ghost predicate Answers(w: World, a: Action, id: nat, step: Step, org: string) {
    a == Work(id, Accepted(org)) && w.posts != [] && w.posts[|w.posts| - 1].step == step
  }

  lemma AnsweredStep(c: Codec, w: World, a: Action, w': World, id: nat)
    requires Act(c, w, a) == Some(w') && id in w'.runs && w'.runs[id].Writer? && w'.runs[id].phase.Answered?
    ensures id in w.runs && w.runs[id].Writer?
    ensures var r, r' := w.runs[id], w'.runs[id];
            if a.Work? && a.id == id
            then a.op.Accepted? && w.file.Some? && r.phase.Posted? && r'.done == r.done && EndsInIntent(r'.sc, r'.done) &&
                 EndsInIntent(r.sc, r.done) && r.sc.At(r.done - 1).step == r'.sc.At(r'.done - 1).step &&
                 (r'.sc.At(r'.done - 1).step == Personal ==> r'.sc.opening.org == a.op.org)
            else r' == r
  {
    hide ValidClaim, ValidatedBinding, Outset, IsReference, MayRemain, WorkspaceAggregateObservation, ReadJournal, Line;
  }

  /** A request that is out and not yet answered is the last one sent. */
  lemma LastSent(c: Codec, d: Desk)
    requires DeskInv(c, d) && d.phase.Posted?
    ensures EndsInIntent(d.sc, d.done) && d.posts != [] && d.posts[|d.posts| - 1].step == d.sc.At(d.done - 1).step
  {
    hide JourneyOf, ValidClaim, Complete, NextLine, ObservationWhole, Script.At, Script.Valid, PlainScript;
    var es := Prefix(d.sc, d.done);
    assert es[|es| - 1] == d.sc.At(d.done - 1);
  }

  lemma {:induction false} AnsweredBefore(c: Codec, ws: seq<World>, acts: seq<Action>, n: nat, id: nat)
    returns (m: nat, org: string)
    requires History(c, ws, acts) && n <= |acts| && id in ws[n].runs && ws[n].runs[id].Writer? && ws[n].runs[id].phase.Answered?
    ensures var r := ws[n].runs[id];
            m < n && EndsInIntent(r.sc, r.done) && Answers(ws[m], acts[m], id, r.sc.At(r.done - 1).step, org) &&
            (r.sc.At(r.done - 1).step == Personal ==> r.sc.opening.org == org)
    ensures forall k | m < k < n :: !(acts[k].Work? && acts[k].id == id)
    decreases n
  {
    hide Act, DeskInv, Script.At, EndsInIntent, Authored;
    assert n > 0;
    var a := acts[n - 1];
    assert Act(c, ws[n - 1], a) == Some(ws[n]);
    AnsweredStep(c, ws[n - 1], a, ws[n], id);
    if a.Work? && a.id == id {
      Kept(c, ws[..n], acts[..n - 1]);
      LastSent(c, DeskOf(ws[n - 1], id));
      m, org := n - 1, a.op.org;
    } else {
      m, org := AnsweredBefore(c, ws, acts, n - 1, id);
    }
  }

  lemma AckAfterIntent(sc: Script, n: nat)
    requires n < sc.Length() && sc.header.Header? && sc.At(n).Ack?
    ensures EndsInIntent(sc, n) && sc.At(n - 1).step == sc.At(n).step
    ensures sc.At(n).ackOrg == if sc.At(n).step == Personal then Some(sc.opening.org) else None
  {
  }

  /** In every history an acknowledgement is begun only after the answer to the
      step's own request, the last one sent, was accepted; a personal one names the
      Organization of that answer. */
  lemma AckFollowsAnswer(c: Codec, ws: seq<World>, acts: seq<Action>, n: nat, id: nat, count: nat)
    returns (m: nat, org: string)
    requires History(c, ws, acts) && n < |acts| && acts[n] == Work(id, Write(count))
    requires id in ws[n].runs && ws[n].runs[id].Writer? && !ws[n].runs[id].phase.Writing?
    requires var r := ws[n].runs[id]; r.done < r.sc.Length() && r.sc.At(r.done).Ack?
    ensures var e := ws[n].runs[id].sc.At(ws[n].runs[id].done);
            m < n && Answers(ws[m], acts[m], id, e.step, org) && e.ackOrg == if e.step == Personal then Some(org) else None
    ensures forall k | m < k < n :: !(acts[k].Work? && acts[k].id == id)
  {
    hide Act, DeskInv, Script.At, EndsInIntent, Authored;
    assert Act(c, ws[n], acts[n]) == Some(ws[n + 1]);
    Kept(c, ws[..n + 1], acts[..n]);
    BeginsAfterAnswer(c, ws[n], ws[n + 1], id, count);
    m, org := AnsweredBefore(c, ws, acts, n, id);
    AckAfterIntent(ws[n].runs[id].sc, ws[n].runs[id].done);
  }

  lemma BeginsAfterAnswer(c: Codec, w: World, w': World, id: nat, count: nat)
    requires Inv(c, w) && Act(c, w, Work(id, Write(count))) == Some(w')
    requires id in w.runs && w.runs[id].Writer? && !w.runs[id].phase.Writing?
    requires var r := w.runs[id]; r.done < r.sc.Length() && r.sc.At(r.done).Ack?
    ensures w.runs[id].phase.Answered? && w.runs[id].sc.header.Header?
  {
    hide ValidClaim, ValidatedBinding, Outset, IsReference, MayRemain, Script.At, EndsInIntent, Line, Authored, Complete, NextLine,
      ObservationWhole, Requests, JourneyOf, PlainScript;
    var r := w.runs[id];
    assert DeskInv(c, DeskOf(w, id));
    ValidStarts(r.sc);
    AckAfterIntent(r.sc, r.done);
  }

  // ----- Binding -----

  /** The observation names the Organization the records settled, and its period spans the usage. */
  predicate Fitting(o: J.Observation, es: seq<Event>, input: Value)
    requires ValidInput(input)
  {
    var usage := input.Get(UsageOf);
    && ValidObservation(o) && SettledOrg(es) == Some(o.organizationId)
    && Instants.Millis(o.attributionPeriodStart) <= Instants.Millis(usage.Get(PeriodStart).s)
    && Instants.Millis(usage.Get(PeriodEnd).s) <= Instants.Millis(o.attributionPeriodEnd)
  }

  /** In an accepted journal only personal intents are without an Organization. */
  lemma IntentOrgs(es: seq<Event>, e: Event)
    requires Legal(es) && e in es && e.Intent?
    ensures e.org.None? <==> e.step == Personal
  {
    hide ValidObservation, IsReference;
    var sc: Script :| Follows(es, sc);
    var i :| 0 <= i < |es| && es[i] == e;
    assert sc.At(i) == e;
  }

  lemma ObservedIsValid(es: seq<Event>, o: J.Observation)
    requires Legal(es) && Observed(o) in es
    ensures ValidObservation(o)
  {
    hide ValidObservation, IsReference;
    var sc: Script :| Follows(es, sc);
    var i :| 0 <= i < |es| && es[i] == Observed(o);
    assert sc.At(i) == Observed(o);
  }

  /** A legal journal is bound to a claim exactly when it says what the claim's
      input says, and its observation fits the Organization and the usage. */
  lemma BoundTallies(es: seq<Event>, claim: Claim)
    requires Legal(es) && ValidInput(claim.input)
    ensures Bound(es, claim) <==>
            Tallies(claim, es) && forall e | e in es && e.Observed? :: Fitting(e.observation, es, claim.input)
  {
    hide Legal, ValidObservation, IsReference, IsSha256, IsHex, ValidUsage, Instants.Millis, SettledOrg, ValidInput, Opens, Asks,
      StepBody, ClaimHeader;
    HeaderOpens(claim, es);
    forall i | 0 <= i < |es|
      ensures es[i].Intent? ==> (EventMatches(es[i], claim, SettledOrg(es)) <==>
                                 Asks(claim.input, es[i].step, es[i].org, es[i].body))
    {
      if es[i].Intent? {
        IntentOrgs(es, es[i]);
        IntentAsks(claim, es[i], SettledOrg(es));
      } else if es[i].Observed? {
        ObservedIsValid(es, es[i].observation);
      }
    }
    forall e | e in es && e.Observed?
      ensures ValidObservation(e.observation)
    {
      ObservedIsValid(es, e.observation);
    }
  }

  lemma HeaderOpens(claim: Claim, es: seq<Event>)
    requires ValidInput(claim.input)
    ensures es != [] ==> (es[0] == ClaimHeader(claim) <==> Opens(claim, es[0]))
  {
    hide IsSha256, IsHex, ValidUsage;
  }

  lemma IntentAsks(claim: Claim, e: Event, org: Option<string>)
    requires ValidInput(claim.input) && e.Intent? && (e.org.None? <==> e.step == Personal)
    ensures EventMatches(e, claim, org) <==> Asks(claim.input, e.step, e.org, e.body)
  {
    hide IsSha256, IsHex, IsReference, MetersUsage, TakesPlan, BuysCredit, ValidUsage;
    InputParts(claim.input);
  }
}
