/** The one script every accepted journal is a prefix of. */
module JournalScript {
  import opened Values
  import opened Text
  import opened Journal

  /** How the billing Organization was settled. */
  datatype Opening = Created(body: Value, org: string) | Selected(org: string)

  /** Everything a complete journey decides. */
  datatype Script = Script(
    header: Event,
    opening: Opening,
    usage: Value,
    observation: Option<Observation>,
    subscription: Value,
    topup: Value)
  {
    function OpeningLength(): nat {
      if opening.Created? then 2 else 1
    }

    function ObservationLength(): nat {
      if observation.Some? then 1 else 0
    }

    function Length(): nat {
      OpeningLength() + ObservationLength() + 7
    }

    /** The i-th record of the journey, in the order the journey runs. */
    function At(i: nat): Event
      requires i < Length()
    {
      var b := 1 + OpeningLength();
      var c := b + 2 + ObservationLength();
      if i == 0 then header
      else if i < b then
        (match opening
         case Selected(org) => Select(org)
         case Created(body, org) => if i == 1 then Intent(Personal, None, body) else Ack(Personal, Some(org)))
      else if i == b then Intent(Usage, Some(opening.org), usage)
      else if i == b + 1 then Ack(Usage, None)
      else if i < c then Observed(observation.value)
      else if i == c then Intent(Subscription, Some(opening.org), subscription)
      else if i == c + 1 then Ack(Subscription, None)
      else if i == c + 2 then Intent(Topup, Some(opening.org), topup)
      else Ack(Topup, None)
    }

    function Events(): (es: seq<Event>)
      ensures |es| == Length() && forall i | 0 <= i < Length() :: es[i] == At(i)
    {
      seq(Length(), i requires 0 <= i < Length() => At(i))
    }

    predicate Valid() {
      && ValidHeader(header)
      && IsReference(opening.org)
      && (match opening
          case Selected(org) => "org_wb_" <= org
          case Created(body, org) => "org_" <= org && body.Obj?)
      && usage.Obj? && subscription.Obj? && topup.Obj?
      && (observation.Some? ==> ValidObservation(observation.value))
    }

    /** The reader's variables after the first `n` records. */
    function State(n: nat): Parser
      requires 1 <= n <= Length()
    {
      var b := 1 + OpeningLength();
      var c := b + 2 + ObservationLength();
      Parser(
        if n < b then 0 else if n < b + 2 then 1 else if n < c + 2 then 2 else if n < c + 4 then 3 else 4,
        if n == 2 && opening.Created? then Some(Personal)
        else if n == b + 1 then Some(Usage)
        else if n == c + 1 then Some(Subscription)
        else if n == c + 3 then Some(Topup)
        else None,
        if n < b then None else Some(opening.org),
        n >= b + 3 && observation.Some?,
        Events()[..n])
    }
  }

  /** A journal in accepted form: a nonempty prefix of some valid journey. */
  ghost predicate Legal(es: seq<Event>) {
    exists sc: Script :: Follows(es, sc)
  }

  ghost predicate Follows(es: seq<Event>, sc: Script) {
    sc.Valid() && 1 <= |es| <= sc.Length() && es == sc.Events()[..|es|]
  }

  function Records(es: seq<Event>): (rs: seq<Value>)
    ensures |rs| == |es| && forall i | 0 <= i < |es| :: rs[i] == Record(es[i])
  {
    seq(|es|, i requires 0 <= i < |es| => Record(es[i]))
  }

  /** The reader follows a valid journey record by record. */
  lemma ScriptStep(sc: Script, n: nat)
    requires sc.Valid() && 1 <= n < sc.Length()
    ensures Accept(sc.State(n), sc.At(n)) == Some(sc.State(n + 1))
  {
    hide IsReference, ValidObservation, ValidHeader;
    assert sc.Events()[..n + 1] == sc.Events()[..n] + [sc.At(n)];
  }

  lemma StateAtStart(sc: Script)
    ensures sc.State(1) == Parser(0, None, None, false, [sc.header])
  {
    assert sc.Events()[..1] == [sc.header];
  }

  lemma {:induction false} ScriptAccepted(sc: Script, n: nat)
    requires sc.Valid() && 1 <= n <= sc.Length()
    ensures Parse(Records(sc.Events()[..n])) == Some(sc.State(n))
  {
    hide ParseNext, Accept, ParseHeader, Script.State, Record;
    var rs := Records(sc.Events()[..n]);
    if n == 1 {
      HeaderIsRead(sc.header);
      StateAtStart(sc);
      assert rs == [Record(sc.header)];
    } else {
      ScriptAccepted(sc, n - 1);
      ScriptStep(sc, n - 1);
      RecordIsRead(sc.State(n - 1), sc.At(n - 1));
      assert rs[..n - 1] == Records(sc.Events()[..n - 1]);
    }
  }

  /** `sc'` is a valid journey with the first `n` records of `sc` and then `e`. */
  ghost predicate Continues(sc: Script, n: nat, e: Event, sc': Script)
    requires 1 <= n <= sc.Length()
  {
    sc'.Valid() && n < sc'.Length() && sc'.State(n) == sc.State(n) && sc'.At(n) == e
  }

  /** The journey `sc` with `e` as its record after the first `n`. */
  function Continue(sc: Script, n: nat, e: Event): Script {
    var b := 1 + sc.OpeningLength();
    match e
    case Select(org) => sc.(opening := Selected(org))
    case Observed(o) => sc.(observation := Some(o))
    case Ack(Personal, Some(org)) =>
      if sc.opening.Created? then sc.(opening := Created(sc.opening.body, org)) else sc
    case Intent(Personal, _, body) => sc.(opening := Created(body, "org_"))
    case Intent(Usage, _, body) => sc.(usage := body)
    case Intent(Subscription, _, body) =>
      if n == b + 2 then sc.(observation := None, subscription := body) else sc.(subscription := body)
    case Intent(Topup, _, body) => sc.(topup := body)
    case _ => sc
  }

  lemma PlaceholderReferences()
    ensures IsReference("org_") && IsReference("org_wb_")
  {
  }

  /** Whatever the reader accepts next is a next record of some valid journey
      with the same past. */
  lemma AcceptedNext(sc: Script, n: nat, e: Event)
    requires sc.Valid() && 1 <= n <= sc.Length()
    requires Accept(sc.State(n), e).Some?
    ensures Continues(sc, n, e, Continue(sc, n, e))
  {
    PlaceholderReferences();
    hide ValidObservation, ValidHeader, IsReference;
    var sc' := Continue(sc, n, e);
    assert n <= sc'.Length();
    assert sc'.Events()[..n] == sc.Events()[..n];
  }

  lemma AcceptedExtends(sc: Script, n: nat, r: Value, q: Parser) returns (sc': Script)
    requires sc.Valid() && 1 <= n <= sc.Length()
    requires ParseNext(sc.State(n), r) == Some(q)
    ensures sc'.Valid() && n < sc'.Length() && q == sc'.State(n + 1)
    ensures q.events == sc.State(n).events + [sc'.At(n)] && r == Record(sc'.At(n))
  {
    hide ParseNext, Accept, Record, Continue, Script.State, Script.Valid;
    var p := sc.State(n);
    assert |p.events| == n by {
      EventCount(sc, n);
    }
    ReadIsRecord(p, r, q);
    AcceptedNext(sc, n, q.events[n]);
    sc' := Continue(sc, n, q.events[n]);
    ScriptStep(sc', n);
  }

  lemma EventCount(sc: Script, n: nat)
    requires 1 <= n <= sc.Length()
    ensures sc.State(n).events == sc.Events()[..n]
  {
  }

  lemma {:induction false} AcceptedFollows(rs: seq<Value>, p: Parser) returns (sc: Script)
    requires Parse(rs) == Some(p)
    ensures sc.Valid() && 1 <= |rs| <= sc.Length()
    ensures p == sc.State(|rs|) && |p.events| == |rs| && rs == Records(p.events)
  {
    hide ParseNext, ParseHeader, Record, Script.State, Script.At;
    if |rs| == 1 {
      ReadHeader(rs[0], p);
      sc := Script(p.events[0], Selected("org_wb_"), Obj(map[]), None, Obj(map[]), Obj(map[]));
      PlaceholderReferences();
      StateAtStart(sc);
    } else {
      hide Script.Valid;
      var m := |rs| - 1;
      var p0 := Parse(rs[..m]).value;
      var sc0 := AcceptedFollows(rs[..m], p0);
      sc := AcceptedExtends(sc0, m, rs[m], p);
      assert rs == rs[..m] + [rs[m]];
    }
  }

  /** The language of the reader. A record list is accepted exactly when it is
      the records of a nonempty prefix of some valid journey, and the events
      returned are that prefix: no event is invented, dropped or changed. */
  lemma AcceptedLanguage(rs: seq<Value>, es: seq<Event>)
    ensures (Parse(rs).Some? && Parse(rs).value.events == es) <==> (Legal(es) && rs == Records(es))
  {
    if Parse(rs).Some? && Parse(rs).value.events == es {
      var sc := AcceptedFollows(rs, Parse(rs).value);
      assert Follows(es, sc);
    }
    if Legal(es) && rs == Records(es) {
      var sc: Script :| Follows(es, sc);
      ScriptAccepted(sc, |es|);
    }
  }

  // ----- What an accepted journal says -----

  /** Acknowledged or selected steps, in file order. */
  function Settled(es: seq<Event>): seq<Step> {
    if es == [] then []
    else
      var rest := Settled(es[..|es| - 1]);
      match es[|es| - 1]
      case Ack(step, _) => rest + [step]
      case Select(_) => rest + [Personal]
      case _ => rest
  }

  lemma {:induction false} SettledAt(sc: Script, n: nat)
    requires 1 <= n <= sc.Length() && sc.header.Header?
    ensures Settled(sc.Events()[..n]) == STEPS[..sc.State(n).next]
  {
    var es := sc.Events()[..n];
    if n == 1 {
      StateAtStart(sc);
      assert es[0] == sc.header && es[..0] == [];
      assert Settled(es[..0]) == [];
    } else {
      SettledAt(sc, n - 1);
      assert es[..n - 1] == sc.Events()[..n - 1];
      var k := sc.State(n - 1).next;
      assert es[n - 1] == sc.At(n - 1);
      if sc.State(n).next == k + 1 {
        assert STEPS[..k + 1] == STEPS[..k] + [STEPS[k]];
      }
    }
  }

  /** Neighbouring records of a journey, and two intents of it. */
  lemma ScriptShape(sc: Script, i: nat, j: nat)
    requires i < j < sc.Length() && sc.header.Header?
    ensures sc.At(j).Ack? && j == i + 1 ==> sc.At(i).Intent? && sc.At(i).step == sc.At(j).step
    ensures sc.At(i).Intent? && j == i + 1 ==> sc.At(j).Ack? && sc.At(i).step == sc.At(j).step
    ensures sc.At(j).Observed? && j == i + 1 ==> sc.At(i) == Ack(Usage, None)
    ensures !(sc.At(i).Observed? && sc.At(j).Observed?)
    ensures sc.At(i).Intent? && sc.At(j).Intent? ==>
              sc.At(i).step != sc.At(j).step && (sc.At(i).step != Personal ==> sc.At(i).org == sc.At(j).org)
  {
  }

  /** In every accepted journal the settled steps are a prefix of personal,
      usage, subscription, topup; an acknowledgement stands right after the one
      intent of its step and nothing else follows an intent, so at most the last
      record is an unacknowledged intent; an observation stands only right after
      the usage acknowledgement, once; and every later intent names one
      Organization. */
  lemma AcceptedShape(es: seq<Event>)
    requires Legal(es)
    ensures Settled(es) <= STEPS
    ensures forall i | 0 <= i < |es| && es[i].Ack? :: 0 < i && es[i - 1].Intent? && es[i - 1].step == es[i].step
    ensures forall i | 0 <= i < |es| - 1 && es[i].Intent? :: es[i + 1].Ack? && es[i + 1].step == es[i].step
    ensures forall i, j | 0 <= i < j < |es| && es[i].Intent? && es[j].Intent? :: es[i].step != es[j].step
    ensures forall i, j | 0 <= i < j < |es| && es[i].Observed? :: !es[j].Observed?
    ensures forall i | 0 <= i < |es| && es[i].Observed? :: 0 < i && es[i - 1] == Ack(Usage, None)
    ensures forall i, j | 0 <= i < j < |es| && es[i].Intent? && es[j].Intent? && es[i].step != Personal :: es[i].org == es[j].org
  {
    var sc: Script :| Follows(es, sc);
    FollowsStart(es, sc);
    SettledAt(sc, |es|);
    hide Script.At, Script.Valid, Script.State, Settled;
    forall i, j | 0 <= i < j < |es|
      ensures es[j].Ack? && j == i + 1 ==> es[i].Intent? && es[i].step == es[j].step
      ensures es[i].Intent? && j == i + 1 ==> es[j].Ack? && es[j].step == es[i].step
      ensures es[j].Observed? && j == i + 1 ==> es[i] == Ack(Usage, None)
      ensures !(es[i].Observed? && es[j].Observed?)
      ensures es[i].Intent? && es[j].Intent? ==> es[i].step != es[j].step && (es[i].step != Personal ==> es[i].org == es[j].org)
    {
      ScriptShape(sc, i, j);
    }
    assert es[0] == sc.header;
    forall i | 0 < i < |es|
      ensures es[i].Ack? ==> es[i - 1].Intent? && es[i - 1].step == es[i].step
      ensures es[i].Observed? ==> es[i - 1] == Ack(Usage, None)
    {
      ScriptShape(sc, i - 1, i);
    }
  }

  lemma FollowsStart(es: seq<Event>, sc: Script)
    requires Follows(es, sc)
    ensures sc.At(0) == sc.header && sc.header.Header?
  {
    hide IsReference, ValidObservation;
  }

  lemma TopupAckIsLast(sc: Script, i: nat)
    requires i < sc.Length() && sc.header.Header?
    ensures sc.At(i) == Ack(Topup, None) <==> i + 1 == sc.Length()
    ensures sc.State(i + 1).next == 4 <==> i + 1 == sc.Length()
    ensures sc.State(i + 1).next <= 4
  {
  }

  /** A top-up acknowledgement can only close the whole journey: the journal is
      then a complete script, so every earlier acknowledgement is there too. */
  lemma TopupAckCompletes(es: seq<Event>)
    requires Legal(es)
    ensures Ack(Topup, None) in es <==> Settled(es) == STEPS
    ensures Ack(Topup, None) in es ==> exists sc: Script :: sc.Valid() && es == sc.Events()
  {
    var sc: Script :| Follows(es, sc);
    assert sc.header.Header?;
    hide Script.Valid, Script.At, Script.State, Settled;
    SettledAt(sc, |es|);
    TopupAckIsLast(sc, |es| - 1);
    if Ack(Topup, None) in es {
      var i :| 0 <= i < |es| && es[i] == Ack(Topup, None);
      TopupAckIsLast(sc, i);
      assert es == sc.Events();
      assert STEPS[..4] == STEPS;
    }
    if Settled(es) == STEPS {
      assert |STEPS[..sc.State(|es|).next]| == 4;
      assert es[|es| - 1] == sc.At(|es| - 1);
    }
  }
}
