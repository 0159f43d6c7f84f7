/** Which removals of metadata can lose a live pair: decided by what the runs did
    and read, whatever the authority did meanwhile. */
module TidyRemovals {
  import opened Values
  import opened CredentialStatus
  import opened Credentials

  predicate Fence(st: PairStatus) {
    st.state == PairState.Revoking || st.state == Revoked
  }

  /** A status has shown the operation fenced, without this key. */
  predicate NoWriter(w: World, op: Operation) {
    exists rd | rd in w.readings :: rd.op == op && Fence(rd.status) && !rd.status.writer.present
  }

  predicate NoEvidence(w: World, op: Operation) {
    exists rd | rd in w.readings :: rd.op == op && Fence(rd.status) && !rd.status.evidence.present
  }

  /** A status has shown the operation unregistered after its issue call had ended. */
  predicate NeverArrived(w: World, op: Operation) {
    exists rd | rd in w.readings :: rd.op == op && rd.status.state == Unregistered && rd.ended
  }

  /** No run is signing the issue request of the operation or has sent it. */
  predicate NotIssued(w: World, op: Operation) {
    forall r | r in w.runs && r.issuer && r.op == op :: !Committed(r)
  }

  predicate KnownAbsent(w: World, op: Operation) {
    NotIssued(w, op) || (NoWriter(w, op) && NoEvidence(w, op)) || NeverArrived(w, op)
  }

  /** A removed metadata entry names the remover's own operation, or one that is
      known to be absent. */
  predicate Tidy(w: World, a: Action) {
    TakesMetadata(w, a) && w.disk.metadata.Some? ==>
      w.disk.metadata.value == w.runs[a.id].op || KnownAbsent(w, w.disk.metadata.value)
  }

  // ----- What a reading tells for good -----

  predicate StillTrue(w: World, rd: Reading) {
    && (Fence(rd.status) ==>
          var r := RemoteOf(w, rd.op);
          r.Fenced? && (r.writer ==> rd.status.writer.present) && (r.evidence ==> rd.status.evidence.present))
    && (rd.status.state == Unregistered && rd.ended ==> Buried(w, rd.op))
  }

  ghost predicate Told(w: World) {
    forall rd | rd in w.readings :: StillTrue(w, rd)
  }

  lemma RemotesKept(w: World, a: Action)
    requires Act(w, a).Some? && !a.Serve?
    ensures Act(w, a).value.remotes == w.remotes
  {
    hide Truthful, IssuedPair, ProvesNoOperation, ProvesRevoked;
  }

  lemma FenceStays(w: World, a: Action, op: Operation)
    requires Act(w, a).Some? && RemoteOf(w, op).Fenced?
    ensures var r, r' := RemoteOf(w, op), RemoteOf(Act(w, a).value, op);
            r'.Fenced? && (r'.writer ==> r.writer) && (r'.evidence ==> r.evidence)
  {
    if !a.Serve? {
      RemotesKept(w, a);
    }
  }

  lemma ReadingsGrow(w: World, a: Action)
    requires Act(w, a).Some?
    ensures var w' := Act(w, a).value;
            if a.StatusAnswered? then a.id < |w.runs| && w'.readings == Read(w, w.runs[a.id].op, a.status)
            else w'.readings == w.readings
  {
    hide Truthful, IssuedPair, ProvesNoOperation, ProvesRevoked, MayBecome, IssueEnded;
  }

  /** Once its issue call has ended, an operation the authority does not know never comes to live. */
  lemma EndedIsBuried(w: World, op: Operation)
    requires Base(w) && AllFrugal(w) && IssueEnded(w, op) && RemoteOf(w, op).Fresh?
    ensures Buried(w, op)
  {
    hide ProvesNoOperation, ProvesRevoked, CouldLive;
    var q :| q in w.runs && EndedRun(q, op);
    assert RunInv(w, q);
    forall r | r in w.runs && r.op == op
      ensures r.issuer ==> r == q
      ensures !Early(r) && !Bound(r)
    {
      assert RunInv(w, r);
      if r.issuer {
        SameIssuer(w, q, r);
      }
    }
    NoPending(w, op);
  }

  lemma NoPending(w: World, op: Operation)
    requires RemoteOf(w, op).Fresh? && op !in w.late && forall r | r in w.runs && r.op == op :: !Bound(r)
    ensures !CouldLive(w, op)
  {
  }

  lemma StatusIsTrue(w: World, a: Action)
    requires Act(w, a).Some? && a.StatusAnswered? && a.status.Some?
    ensures a.id < |w.runs| && Truthful(a.status.value, RemoteOf(w, w.runs[a.id].op))
  {
    hide Truthful, ProvesNoOperation, ProvesRevoked;
  }

  lemma NewReading(w: World, a: Action)
    requires Base(w) && AllFrugal(w) && Act(w, a).Some? && a.StatusAnswered? && a.status.Some?
    ensures a.id < |w.runs| && StillTrue(w, Reading(w.runs[a.id].op, a.status.value, IssueEnded(w, w.runs[a.id].op)))
  {
    StatusIsTrue(w, a);
    hide Act, Base, AllFrugal, Buried, IssueEnded;
    var op := w.runs[a.id].op;
    if IssueEnded(w, op) && a.status.value.state == Unregistered {
      EndedIsBuried(w, op);
    }
  }

  lemma StaysTrue(w: World, a: Action, rd: Reading)
    requires Base(w) && Act(w, a).Some? && StillTrue(w, rd)
    ensures StillTrue(Act(w, a).value, rd)
  {
    hide Act, Base, Buried;
    if Fence(rd.status) {
      FenceStays(w, a, rd.op);
    }
    if rd.status.state == Unregistered && rd.ended {
      BuriedStays(w, a, rd.op);
    }
  }

  lemma ToldKept(w: World, a: Action)
    requires Base(w) && AllFrugal(w) && Told(w) && Act(w, a).Some?
    ensures Told(Act(w, a).value)
  {
    hide Act, Base, AllFrugal, StillTrue, IssueEnded;
    ReadingsGrow(w, a);
    var w' := Act(w, a).value;
    forall rd | rd in w'.readings
      ensures StillTrue(w', rd)
    {
      if rd !in w.readings {
        NewReading(w, a);
      }
      StaysTrue(w, a, rd);
    }
  }

  lemma {:induction false} ToldThroughout(ws: seq<World>, acts: seq<Action>)
    requires History(ws, acts)
    ensures Told(ws[|acts|])
    decreases |acts|
  {
    if |acts| > 0 {
      hide Base, AllFrugal, Act, Told;
      var m := |acts| - 1;
      ToldThroughout(ws[..|ws| - 1], acts[..m]);
      KeptAt(ws, acts, m);
      assert Act(ws[m], acts[m]) == Some(ws[m + 1]);
      ToldKept(ws[m], acts[m]);
    }
  }

  // ----- Tidy removals are safe -----

  lemma KnownAbsentIsAbsent(w: World, op: Operation)
    requires Base(w) && Told(w) && op in w.used && KnownAbsent(w, op)
    ensures !CouldLive(w, op)
  {
    if NotIssued(w, op) {
      var i :| 0 <= i < |w.runs| && w.runs[i].issuer && w.runs[i].op == op;
      assert w.runs[i] in w.runs;
      NotLive(w, w.runs[i]);
    } else if NeverArrived(w, op) {
      var rd :| rd in w.readings && rd.op == op && rd.status.state == Unregistered && rd.ended;
      assert StillTrue(w, rd);
    } else {
      var rd :| rd in w.readings && rd.op == op && Fence(rd.status) && !rd.status.writer.present;
      var rd' :| rd' in w.readings && rd'.op == op && Fence(rd'.status) && !rd'.status.evidence.present;
      assert StillTrue(w, rd) && StillTrue(w, rd');
    }
  }

  lemma TidyIsSafe(w: World, a: Action)
    requires Base(w) && Told(w) && Tidy(w, a)
    ensures Safe(w, a)
  {
    hide Told, KnownAbsent, CouldLive, RunInv;
    if TakesMetadata(w, a) && w.disk.metadata.Some? {
      var op := w.disk.metadata.value;
      if op == w.runs[a.id].op {
        OwnIsSafe(w, a);
      } else {
        KnownAbsentIsAbsent(w, op);
      }
    }
  }

  /** In a history whose steps only remove metadata of the remover's own operation
      or of one known to be absent, every pair that is or may become live has its
      metadata durably on disk, in every state. */
  lemma TidyIsRecoverable(ws: seq<World>, acts: seq<Action>)
    requires History(ws, acts) && forall i | 0 <= i < |acts| :: Tidy(ws[i], acts[i])
    ensures forall i | 0 <= i <= |acts| :: Recoverable(ws[i])
  {
    hide Base, AllFrugal, Told, Act, Safe, Recoverable, Tidy;
    forall i | 0 <= i < |acts|
      ensures Safe(ws[i], acts[i])
    {
      KeptAt(ws, acts, i);
      ToldThroughout(ws[..i + 1], acts[..i]);
      TidyIsSafe(ws[i], acts[i]);
    }
    RecoverableThroughout(ws, acts);
  }

  /** Runs that never overlap are always tidy. */
  lemma SoloIsTidy(ws: seq<World>, acts: seq<Action>, a: Action)
    requires History(ws, acts) && forall i | 0 <= i < |acts| :: Alone(ws[i], acts[i])
    ensures Tidy(ws[|acts|], a)
  {
    hide Solo, Act;
    SoloThroughout(ws, acts);
    if TakesMetadata(ws[|acts|], a) {
      SoloTakesOwn(ws[|acts|], a);
    }
  }

  // ----- What is visible of a history -----

  /** The steps of the runs, the disk and the machine, answers included: all but the authority's own. */
  function Visible(acts: seq<Action>): seq<Action> {
    if acts == [] then []
    else Visible(acts[..|acts| - 1]) + if acts[|acts| - 1].Serve? then [] else [acts[|acts| - 1]]
  }

  predicate SameView(v: World, w: World) {
    v == w.(remotes := v.remotes)
  }

  lemma SameServe(w: World, v: World, a: Action)
    requires SameView(v, w) && a.Serve? && Act(w, a).Some?
    ensures SameView(v, Act(w, a).value)
  {
  }

  lemma SameStep(w: World, v: World, a: Action)
    requires SameView(v, w) && !a.Serve? && Act(w, a).Some? && Act(v, a).Some?
    ensures SameView(Act(v, a).value, Act(w, a).value)
  {
    hide Truthful, IssuedPair, ProvesNoOperation, ProvesRevoked;
  }

  /** The same visible steps leave the same files, runs and readings. */
  lemma {:induction false} SameViews(ws: seq<World>, acts: seq<Action>, vs: seq<World>, bs: seq<Action>)
    requires History(ws, acts) && History(vs, bs) && Visible(acts) == Visible(bs)
    ensures SameView(vs[|bs|], ws[|acts|])
    decreases |acts| + |bs|
  {
    hide Act;
    var m, n := |acts| - 1, |bs| - 1;
    if acts != [] && acts[m].Serve? {
      assert Act(ws[m], acts[m]) == Some(ws[m + 1]);
      SameViews(ws[..|acts|], acts[..m], vs, bs);
      SameServe(ws[m], vs[|bs|], acts[m]);
    } else if bs != [] && bs[n].Serve? {
      assert Act(vs[n], bs[n]) == Some(vs[n + 1]);
      SameViews(ws, acts, vs[..|bs|], bs[..n]);
      SameServe(vs[n], ws[|acts|], bs[n]);
    } else if acts != [] && bs != [] {
      assert Act(ws[m], acts[m]) == Some(ws[m + 1]) && Act(vs[n], bs[n]) == Some(vs[n + 1]);
      LastVisible(acts, bs);
      SameViews(ws[..|acts|], acts[..m], vs[..|bs|], bs[..n]);
      SameStep(ws[m], vs[n], acts[m]);
    }
  }

  lemma LastVisible(acts: seq<Action>, bs: seq<Action>)
    requires acts != [] && bs != [] && !acts[|acts| - 1].Serve? && !bs[|bs| - 1].Serve? && Visible(acts) == Visible(bs)
    ensures acts[|acts| - 1] == bs[|bs| - 1] && Visible(acts[..|acts| - 1]) == Visible(bs[..|bs| - 1])
  {
    var front, back := Visible(acts[..|acts| - 1]), Visible(bs[..|bs| - 1]);
    assert Visible(acts) == front + [acts[|acts| - 1]] && Visible(bs) == back + [bs[|bs| - 1]];
    assert Visible(acts)[|front|] == Visible(bs)[|back|];
    assert Visible(acts)[..|front|] == front && Visible(bs)[..|back|] == back;
  }

  lemma TidyIsVisible(v: World, w: World, a: Action)
    requires SameView(v, w)
    ensures Tidy(v, a) == Tidy(w, a)
  {
  }

  // ----- Another authority -----

  ghost predicate Reached(v: World, visible: seq<Action>) {
    exists ws, acts :: History(ws, acts) && ws[|acts|] == v && Visible(acts) == visible
  }

  lemma ReachNext(v: World, visible: seq<Action>, a: Action, v': World)
    requires Reached(v, visible) && Act(v, a) == Some(v')
    ensures Reached(v', visible + if a.Serve? then [] else [a])
  {
    hide Act;
    var ws, acts :| History(ws, acts) && ws[|acts|] == v && Visible(acts) == visible;
    assert (acts + [a])[..|acts|] == acts;
    assert History(ws + [v'], acts + [a]);
    assert Visible(acts + [a]) == visible + if a.Serve? then [] else [a];
    assert (ws + [v'])[|acts + [a]|] == v';
  }

  /** The other authority answers like the first, but takes an issue request in if
      it can and keeps the given keys when it fences. */
  predicate Fits(r: Remote, other: Remote, ended: bool, writer: bool, evidence: bool) {
    || (r.Open? && other == r)
    || (r.Fenced? && other == Fenced(r.writer || writer, r.evidence || evidence))
    || ((r.Fresh? || DeadRemote(r)) && other == if ended then Open(true, true) else Fresh)
  }

  ghost predicate Shadows(w: World, v: World, op: Operation, writer: bool, evidence: bool) {
    && SameView(v, w) && (forall o | o != op :: RemoteOf(v, o) == RemoteOf(w, o))
    && Fits(RemoteOf(w, op), RemoteOf(v, op), IssueEnded(w, op), writer, evidence)
  }

  /** No reading speaks against it. */
  predicate Allows(w: World, op: Operation, writer: bool, evidence: bool) {
    forall rd | rd in w.readings && rd.op == op ::
      && (Fence(rd.status) ==> (writer ==> rd.status.writer.present) && (evidence ==> rd.status.evidence.present))
      && !(rd.status.state == Unregistered && rd.ended)
  }

  /** A status that is true of the first authority and read is true of the other. */
  lemma SameAnswer(st: PairStatus, r: Remote, other: Remote, ended: bool, writer: bool, evidence: bool)
    requires Truthful(st, r) && Fits(r, other, ended, writer, evidence) && (writer || evidence)
    requires Fence(st) ==> (writer ==> st.writer.present) && (evidence ==> st.evidence.present)
    requires !(st.state == Unregistered && ended)
    ensures Truthful(st, other)
  {
  }

  lemma SameIssue(st: PairStatus, r: Remote, other: Remote, ended: bool, writer: bool, evidence: bool)
    requires Truthful(st, r) && IssuedPair(st) && Fits(r, other, ended, writer, evidence)
    ensures other == r
  {
  }

  // ----- When an issue call ends -----

  lemma RunEnds(w: World, id: nat, a: Action)
    requires id < |w.runs| && ActOfRun(w, id, a).Some? && Frugal(w.runs[id])
    ensures var w', r := ActOfRun(w, id, a).value, w.runs[id];
            |w'.runs| == |w.runs| && w'.runs == w.runs[id := w'.runs[id]] &&
            (forall op :: EndedRun(r, op) ==> EndedRun(w'.runs[id], op)) &&
            (forall op :: EndedRun(w'.runs[id], op) && !EndedRun(r, op) ==>
               r.issuer && r.op == op && r.phase.Issuing? && (a.Stop? || a.IssueAnswered?)) &&
            w'.late == (if a.Stop? && r.phase.Issuing? then w.late + {r.op} else w.late)
  {
    hide Truthful, IssuedPair, ProvesNoOperation, ProvesRevoked, IssueEnded;
  }

  lemma EndedByRun(w: World, id: nat, a: Action, op: Operation)
    requires Base(w) && AllFrugal(w) && id < |w.runs| && ActOfRun(w, id, a).Some?
    ensures IssueEnded(w, op) ==> IssueEnded(ActOfRun(w, id, a).value, op)
    ensures IssueEnded(ActOfRun(w, id, a).value, op) && !IssueEnded(w, op) ==>
              a.IssueAnswered? && w.runs[id].issuer && w.runs[id].op == op && w.runs[id].phase.Issuing?
  {
    hide ActOfRun, RunInv, Frugal;
    var w' := ActOfRun(w, id, a).value;
    RunEnds(w, id, a);
    var r := w.runs[id];
    assert r in w.runs;
    if IssueEnded(w, op) {
      var q :| q in w.runs && EndedRun(q, op);
      var j :| 0 <= j < |w.runs| && w.runs[j] == q;
      assert w'.runs[j] in w'.runs && EndedRun(w'.runs[j], op);
      if op in w'.late {
        IssuingIsIssuer(w, r);
        SameIssuer(w, q, r);
      }
    } else if IssueEnded(w', op) {
      var q :| q in w'.runs && EndedRun(q, op);
      var j :| 0 <= j < |w'.runs| && w'.runs[j] == q;
      assert w.runs[j] in w.runs;
      assert j == id;
    }
  }

  lemma IssuingIsIssuer(w: World, r: Run)
    requires Base(w) && r in w.runs
    ensures r.phase.Issuing? ==> r.issuer
  {
    assert RunInv(w, r);
  }

  lemma EndedByFailure(w: World, metadata: Option<Operation>, op: Operation)
    requires Base(w)
    ensures IssueEnded(Failed(w, metadata), op) == IssueEnded(w, op)
  {
    hide RunInv, OneIssuer;
    var w' := Failed(w, metadata);
    if IssueEnded(w, op) {
      var q :| q in w.runs && EndedRun(q, op);
      var j :| 0 <= j < |w.runs| && w.runs[j] == q;
      assert w'.runs[j] == q.(phase := Over);
      assert w'.runs[j] in w'.runs && EndedRun(w'.runs[j], op);
      forall r | r in w.runs && r.phase.Issuing?
        ensures r.op != op
      {
        IssuingIsIssuer(w, r);
        if r.op == op {
          SameIssuer(w, q, r);
        }
      }
    } else {
      forall j | 0 <= j < |w.runs| && w.runs[j].issuer && w.runs[j].op == op && op !in w'.late
        ensures !EndedRun(w'.runs[j], op)
      {
        assert w.runs[j] in w.runs;
      }
    }
  }

  lemma EndedByStart(w: World, a: Action, op: Operation)
    requires Act(w, a).Some? && (a.StartIssue? || a.StartRevoke? || a.Serve? || a.Writeback?)
    ensures IssueEnded(Act(w, a).value, op) == IssueEnded(w, op)
  {
    hide MayBecome;
    var w' := Act(w, a).value;
    forall q | EndedRun(q, op)
      ensures q in w'.runs <==> q in w.runs
    {
    }
  }

  /** An issue call ends only by its answer, or the loss of it, and stays ended. */
  lemma EndedStep(w: World, a: Action, op: Operation)
    requires Base(w) && AllFrugal(w) && Act(w, a).Some?
    ensures IssueEnded(w, op) ==> IssueEnded(Act(w, a).value, op)
    ensures IssueEnded(Act(w, a).value, op) && !IssueEnded(w, op) ==>
              a.IssueAnswered? && a.id < |w.runs| && w.runs[a.id].issuer && w.runs[a.id].op == op &&
              w.runs[a.id].phase.Issuing?
  {
    hide IssueEnded, Base, AllFrugal, ActOfRun, MayBecome, Failed;
    match a
    case StartIssue(_) => EndedByStart(w, a, op);
    case StartRevoke => EndedByStart(w, a, op);
    case Serve(_, _) => EndedByStart(w, a, op);
    case Writeback => EndedByStart(w, a, op);
    case PowerLoss(metadata) => EndedByFailure(w, metadata, op);
    case _ => EndedByRun(w, a.id, a, op);
  }

  // ----- The shadow takes the same visible steps -----

  /** The other world can take the step, if it gives the answer. */
  predicate Answers(w: World, v: World, a: Action)
    requires a.StatusAnswered? || a.IssueAnswered?
  {
    a.id < |w.runs| ==>
      (a.StatusAnswered? && a.status.Some? ==> Truthful(a.status.value, RemoteOf(v, w.runs[a.id].op))) &&
      (a.IssueAnswered? && a.pair.Some? ==> Truthful(a.pair.value, RemoteOf(v, w.runs[a.id].op)))
  }

  lemma SameAct(w: World, v: World, a: Action)
    requires SameView(v, w) && Act(w, a).Some? && !a.Serve?
    requires a.StatusAnswered? || a.IssueAnswered? ==> Answers(w, v, a)
    ensures Act(v, a) == Some(Act(w, a).value.(remotes := v.remotes))
  {
    hide Truthful, IssuedPair, ProvesNoOperation, ProvesRevoked;
  }

  lemma SameFlight(w: World, v: World, op: Operation)
    requires SameView(v, w)
    ensures IssueInFlight(v, op) == IssueInFlight(w, op) && RevokeInFlight(v, op) == RevokeInFlight(w, op)
    ensures IssueEnded(v, op) == IssueEnded(w, op)
  {
  }

  function Served(v: World, op: Operation, to: Remote): World {
    v.(remotes := v.remotes[op := to])
  }

  lemma ServeNext(v: World, visible: seq<Action>, op: Operation, to: Remote)
    requires Reached(v, visible) && MayBecome(v, op, to)
    ensures Reached(Served(v, op, to), visible)
  {
    ReachNext(v, visible, Serve(op, to), Served(v, op, to));
    assert visible + [] == visible;
  }

  /** The shadow of the authority's own step on the operation: none, one or two. */
  lemma ShadowServe(w: World, op: Operation, to: Remote, v: World, visible: seq<Action>, writer: bool, evidence: bool)
    returns (v': World)
    requires MayBecome(w, op, to) && Shadows(w, v, op, writer, evidence) && Reached(v, visible)
    ensures Shadows(Served(w, op, to), v', op, writer, evidence) && Reached(v', visible)
  {
    hide Reached, IssueEnded;
    var r, other := RemoteOf(w, op), RemoteOf(v, op);
    SameFlight(w, v, op);
    EndedServed(w, op, to);
    v' := v;
    if to.Open? {
      ServeNext(v, visible, op, to);
      v' := Served(v, op, to);
    } else if r.Open? {
      ServeNext(v, visible, op, Open(true, true));
      v' := Served(v, op, Open(true, true));
      var kept := Fenced(to.writer || writer, to.evidence || evidence);
      ServeNext(v', visible, op, kept);
      v' := Served(v', op, kept);
    } else if other.Fenced? {
      var kept := Fenced(to.writer || writer, to.evidence || evidence);
      ServeNext(v, visible, op, kept);
      v' := Served(v, op, kept);
    }
    forall o | o != op
      ensures RemoteOf(v', o) == RemoteOf(Served(w, op, to), o)
    {
      assert RemoteOf(v, o) == RemoteOf(w, o);
    }
  }

  lemma EndedServed(w: World, op: Operation, to: Remote)
    ensures IssueEnded(Served(w, op, to), op) == IssueEnded(w, op)
  {
  }

  lemma ShadowOtherServe(w: World, o: Operation, to: Remote, v: World, visible: seq<Action>, op: Operation, writer: bool,
                         evidence: bool)
    requires MayBecome(w, o, to) && o != op && Shadows(w, v, op, writer, evidence) && Reached(v, visible)
    ensures Shadows(Served(w, o, to), Served(v, o, to), op, writer, evidence) && Reached(Served(v, o, to), visible)
  {
    hide Reached, IssueEnded;
    SameFlight(w, v, o);
    ServeNext(v, visible, o, to);
    assert IssueEnded(Served(w, o, to), op) == IssueEnded(w, op) by {
      SameFlight(w, Served(w, o, to), op);
    }
    forall p | p != op
      ensures RemoteOf(Served(v, o, to), p) == RemoteOf(Served(w, o, to), p)
    {
      assert RemoteOf(v, p) == RemoteOf(w, p);
    }
  }

  /** A visible step, after the other authority has taken the request in if it is the last chance. */
  lemma ShadowVisible(w: World, a: Action, v: World, visible: seq<Action>, op: Operation, writer: bool, evidence: bool)
    returns (v': World)
    requires Base(w) && AllFrugal(w) && Act(w, a).Some? && !a.Serve? && (writer || evidence)
    requires Shadows(w, v, op, writer, evidence) && Reached(v, visible) && Allows(Act(w, a).value, op, writer, evidence)
    ensures Shadows(Act(w, a).value, v', op, writer, evidence) && Reached(v', visible + [a])
  {
    hide Reached, Base, AllFrugal, Act, IssueEnded, Truthful;
    var w' := Act(w, a).value;
    EndedStep(w, a, op);
    RemotesKept(w, a);
    var u := v;
    if IssueEnded(w', op) && !IssueEnded(w, op) && RemoteOf(v, op).Fresh? {
      InFlightAt(w, v, a, op);
      ServeNext(v, visible, op, Open(true, true));
      u := Served(v, op, Open(true, true));
    }
    AnswersAlike(w, a, v, u, op, writer, evidence);
    SameAct(w, u, a);
    v' := w'.(remotes := u.remotes);
    ReachNext(u, visible, a, v');
    forall o | o != op
      ensures RemoteOf(v', o) == RemoteOf(w', o)
    {
      assert RemoteOf(v, o) == RemoteOf(w, o);
    }
  }

  lemma InFlightAt(w: World, v: World, a: Action, op: Operation)
    requires SameView(v, w) && a.IssueAnswered? && a.id < |w.runs| && w.runs[a.id].issuer && w.runs[a.id].op == op
    requires w.runs[a.id].phase.Issuing? && RemoteOf(v, op).Fresh?
    ensures MayBecome(v, op, Open(true, true))
  {
    assert v.runs[a.id] in v.runs;
  }

  lemma AnswersAlike(w: World, a: Action, v: World, u: World, op: Operation, writer: bool, evidence: bool)
    requires Act(w, a).Some? && Shadows(w, v, op, writer, evidence) && (writer || evidence)
    requires Allows(Act(w, a).value, op, writer, evidence)
    requires u == v || (a.IssueAnswered? && RemoteOf(v, op).Fresh? && u == Served(v, op, Open(true, true)))
    ensures a.StatusAnswered? || a.IssueAnswered? ==> Answers(w, u, a)
  {
    hide IssueEnded, Allows, MayBecome;
    if a.StatusAnswered? && a.status.Some? {
      var o := w.runs[a.id].op;
      StatusIsTrue(w, a);
      ReadingsGrow(w, a);
      if o == op {
        AllowsReading(w, a, op, writer, evidence);
        hide Act, Truthful;
        SameAnswer(a.status.value, RemoteOf(w, op), RemoteOf(v, op), IssueEnded(w, op), writer, evidence);
      }
    } else if a.IssueAnswered? && a.pair.Some? {
      var o := w.runs[a.id].op;
      if o == op {
        SameIssue(a.pair.value, RemoteOf(w, op), RemoteOf(v, op), IssueEnded(w, op), writer, evidence);
      }
    }
  }

  lemma AllowsReading(w: World, a: Action, op: Operation, writer: bool, evidence: bool)
    requires Act(w, a).Some? && a.StatusAnswered? && a.status.Some? && a.id < |w.runs| && w.runs[a.id].op == op
    requires Allows(Act(w, a).value, op, writer, evidence)
    ensures Fence(a.status.value) ==>
              (writer ==> a.status.value.writer.present) && (evidence ==> a.status.value.evidence.present)
    ensures !(a.status.value.state == Unregistered && IssueEnded(w, op))
  {
    hide Act, IssueEnded;
    ReadingsGrow(w, a);
    assert Reading(op, a.status.value, IssueEnded(w, op)) in Act(w, a).value.readings;
  }

  lemma AllowsBefore(w: World, a: Action, op: Operation, writer: bool, evidence: bool)
    requires Act(w, a).Some? && Allows(Act(w, a).value, op, writer, evidence)
    ensures Allows(w, op, writer, evidence)
  {
    hide Act;
    ReadingsGrow(w, a);
  }

  /** Every history has a shadow with the same visible steps. */
  lemma {:induction false} ShadowOf(ws: seq<World>, acts: seq<Action>, op: Operation, writer: bool, evidence: bool)
    returns (v: World)
    requires History(ws, acts) && (writer || evidence) && Allows(ws[|acts|], op, writer, evidence)
    ensures Shadows(ws[|acts|], v, op, writer, evidence) && Reached(v, Visible(acts))
    decreases |acts|
  {
    hide Base, AllFrugal, Act, Shadows, Reached, Allows, MayBecome;
    if acts == [] {
      v := START;
      StartShadows(op, writer, evidence);
    } else {
      var m := |acts| - 1;
      var a := acts[m];
      assert Act(ws[m], a) == Some(ws[m + 1]);
      AllowsBefore(ws[m], a, op, writer, evidence);
      var u := ShadowOf(ws[..|acts|], acts[..m], op, writer, evidence);
      KeptAt(ws, acts, m);
      if a.Serve? {
        ServeStep(ws[m], a, ws[m + 1]);
        if a.op == op {
          v := ShadowServe(ws[m], op, a.to, u, Visible(acts[..m]), writer, evidence);
        } else {
          ShadowOtherServe(ws[m], a.op, a.to, u, Visible(acts[..m]), op, writer, evidence);
          v := Served(u, a.op, a.to);
        }
        assert Visible(acts) == Visible(acts[..m]);
      } else {
        v := ShadowVisible(ws[m], a, u, Visible(acts[..m]), op, writer, evidence);
      }
    }
  }

  lemma ServeStep(w: World, a: Action, w': World)
    requires a.Serve? && Act(w, a) == Some(w')
    ensures MayBecome(w, a.op, a.to) && w' == Served(w, a.op, a.to)
  {
  }

  lemma StartShadows(op: Operation, writer: bool, evidence: bool)
    ensures Shadows(START, START, op, writer, evidence) && Reached(START, [])
  {
    assert History([START], []) && Visible([]) == [];
  }

  /** What is not known to be absent is live, or may become so, for some authority. */
  lemma ShadowLives(w: World, v: World, op: Operation, writer: bool, evidence: bool)
    requires Base(w) && AllFrugal(w) && Shadows(w, v, op, writer, evidence) && (writer || evidence) && !NotIssued(w, op)
    ensures CouldLive(v, op)
  {
    hide RunInv;
    if RemoteOf(v, op).Fresh? {
      var q :| q in w.runs && q.issuer && q.op == op && Committed(q);
      assert q in v.runs;
      if !q.phase.Signing? && !q.phase.Issuing? {
        assert EndedRun(q, op);
        assert op in v.late;
      }
    }
  }

  lemma MayBeLive(ws: seq<World>, acts: seq<Action>, op: Operation) returns (v: World)
    requires History(ws, acts) && !KnownAbsent(ws[|acts|], op)
    ensures Reached(v, Visible(acts)) && SameView(v, ws[|acts|]) && CouldLive(v, op)
    ensures forall o | o != op :: RemoteOf(v, o) == RemoteOf(ws[|acts|], o)
  {
    hide Reached, Base, AllFrugal, Act, CouldLive, NotIssued;
    var w := ws[|acts|];
    var writer, evidence := !NoWriter(w, op), !NoEvidence(w, op);
    KeptAt(ws, acts, |acts|);
    v := ShadowOf(ws, acts, op, writer, evidence);
    ShadowLives(w, v, op, writer, evidence);
  }

  // ----- Exactness -----

  /** Every history with the same visible steps has the entry dead at this step. */
  ghost predicate AlwaysSafe(acts: seq<Action>, a: Action) {
    forall v | Reached(v, Visible(acts)) :: Safe(v, a)
  }

  /** In every such history that is recoverable before the step, it is after it. */
  ghost predicate AlwaysRecoverable(acts: seq<Action>, a: Action) {
    forall v | Reached(v, Visible(acts)) && Recoverable(v) && Act(v, a).Some? :: Recoverable(Act(v, a).value)
  }

  lemma TidyIsAlwaysSafe(ws: seq<World>, acts: seq<Action>, a: Action)
    requires History(ws, acts) && Tidy(ws[|acts|], a)
    ensures AlwaysSafe(acts, a) && AlwaysRecoverable(acts, a)
  {
    hide Base, AllFrugal, Told, Act, Safe, Recoverable, Tidy;
    forall v | Reached(v, Visible(acts))
      ensures Safe(v, a) && (Recoverable(v) && Act(v, a).Some? ==> Recoverable(Act(v, a).value))
    {
      var vs, bs :| History(vs, bs) && vs[|bs|] == v && Visible(bs) == Visible(acts);
      SameViews(ws, acts, vs, bs);
      TidyIsVisible(v, ws[|acts|], a);
      KeptAt(vs, bs, |bs|);
      ToldThroughout(vs, bs);
      TidyIsSafe(v, a);
      if Recoverable(v) && Act(v, a).Some? {
        StepIsExact(v, a);
      }
    }
  }

  lemma UntidyLoses(ws: seq<World>, acts: seq<Action>, a: Action)
    requires History(ws, acts) && !Tidy(ws[|acts|], a)
    ensures !AlwaysSafe(acts, a)
    ensures Recoverable(ws[|acts|]) ==> !AlwaysRecoverable(acts, a)
  {
    hide Base, AllFrugal, KnownAbsent, CouldLive, Reached;
    var w := ws[|acts|];
    var op := w.disk.metadata.value;
    var v := MayBeLive(ws, acts, op);
    assert !Safe(v, a);
    if Recoverable(w) {
      KeptAt(ws, acts, |acts|);
      ReachedKept(v, Visible(acts));
      StillRecoverable(w, v, op, a);
      StepIsExact(v, a);
    }
  }

  lemma ReachedKept(v: World, visible: seq<Action>)
    requires Reached(v, visible)
    ensures Base(v)
  {
    hide Base, AllFrugal, Act;
    var vs, bs :| History(vs, bs) && vs[|bs|] == v && Visible(bs) == visible;
    KeptAt(vs, bs, |bs|);
  }

  /** The entry of a committed run is durable while it is there. */
  lemma StillRecoverable(w: World, v: World, op: Operation, a: Action)
    requires Base(w) && Recoverable(w) && SameView(v, w) && (forall o | o != op :: RemoteOf(v, o) == RemoteOf(w, o))
    requires w.disk.metadata == Some(op) && !KnownAbsent(w, op) && TakesMetadata(v, a)
    ensures Recoverable(v) && Act(v, a).Some?
  {
    hide NoWriter, NoEvidence, NeverArrived, ProvesNoOperation, ProvesRevoked;
    var q :| q in w.runs && q.issuer && q.op == op && Committed(q);
    assert RunInv(w, q);
    forall o | CouldLive(v, o) && o != op
      ensures CouldLive(w, o)
    {
      assert Pending(v, o) == Pending(w, o);
    }
  }

  /** The condition is exact: a step is tidy exactly when, in every history with the
      same visible steps, it removes no metadata of a pair that could be live; and,
      while nothing is lost so far, exactly when it then loses nothing either. */
  lemma TidyIsExact(ws: seq<World>, acts: seq<Action>, a: Action)
    requires History(ws, acts)
    ensures Tidy(ws[|acts|], a) <==> AlwaysSafe(acts, a)
    ensures Recoverable(ws[|acts|]) ==> (Tidy(ws[|acts|], a) <==> AlwaysRecoverable(acts, a))
  {
    hide Act, Tidy, AlwaysSafe, AlwaysRecoverable, Recoverable;
    if Tidy(ws[|acts|], a) {
      TidyIsAlwaysSafe(ws, acts, a);
    } else {
      UntidyLoses(ws, acts, a);
    }
  }
}
