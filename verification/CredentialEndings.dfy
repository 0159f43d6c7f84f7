/** How issue and revoke runs end: what they may hold, when they give up, what they leave. */
module CredentialEndings {
  import opened Values
  import opened CredentialStatus
  import opened Credentials

  // ----- Receiving a pair -----

  /** Of a status that can be rendered, an issued pair is active, without a legacy
      key, and usable in both roles; the other parts of the test follow. */
  lemma IssuedExactly(st: PairStatus, m: Metadata)
    requires Renderable(st, m)
    ensures IssuedPair(st) <==> st.state == Active && !st.legacy && st.writer.usable && st.evidence.usable
  {
    hide Instants.Canonical, Instants.Millis;
  }

  /** In every history a pair is received only while both its keys are live. */
  lemma ReceivedLive(ws: seq<World>, acts: seq<Action>, m: nat)
    requires History(ws, acts) && m < |acts| && acts[m].IssueAnswered? && acts[m].pair.Some?
    ensures acts[m].id < |ws[m].runs|
    ensures var r := ws[m].runs[acts[m].id];
            r.phase.Issuing? && RemoteOf(ws[m], r.op) == Open(true, true) &&
            ws[m + 1] == ws[m].(runs := ws[m].runs[acts[m].id := r.(phase := Holding(0))])
  {
    assert Act(ws[m], acts[m]) == Some(ws[m + 1]);
  }

  // ----- Giving up -----

  /** The run ends by itself in this step: neither killed nor cut off. */
  predicate EndsItself(w: World, a: Action, w': World, id: nat) {
    && id < |w.runs| && id < |w'.runs| && !w.runs[id].phase.Over? && w'.runs[id].phase.Over?
    && !a.Stop? && !a.PowerLoss?
  }

  /** In every history a run that has asked for keys, or may have, ends by itself
      only after removing its files with a proof that the pair is absent, or when a
      status is lost, or after a revoke whose status proves nothing; and then a
      revoke that is under way was asked for once more. */
  lemma NeverAbandoned(ws: seq<World>, acts: seq<Action>, m: nat, id: nat)
    requires History(ws, acts) && m < |acts| && EndsItself(ws[m], acts[m], ws[m + 1], id) && !Early(ws[m].runs[id])
    ensures var r := ws[m].runs[id];
            || (r.phase.Removing? && r.phase.next >= 2 && Proven(r))
            || ((r.phase.Reconciling? || r.phase.Asking?) && acts[m] == StatusAnswered(id, None))
            || (r.phase.Asking? && r.revokes > 0 && acts[m].StatusAnswered? && acts[m].id == id && acts[m].status.Some? &&
                !ProvesRevoked(acts[m].status.value) &&
                (acts[m].status.value.state == PairState.Revoking ==> r.phase.second))
  {
    hide Base, Act, Truthful, ProvesNoOperation, ProvesRevoked;
    assert Act(ws[m], acts[m]) == Some(ws[m + 1]);
    KeptAt(ws, acts, m);
    EndingStep(ws[m], acts[m], ws[m + 1], id);
  }

  lemma EndingStep(w: World, a: Action, w': World, id: nat)
    requires Act(w, a) == Some(w') && EndsItself(w, a, w', id) && !Early(w.runs[id]) && Frugal(w.runs[id])
    ensures var r := w.runs[id];
            || (r.phase.Removing? && r.phase.next >= 2 && Proven(r))
            || ((r.phase.Reconciling? || r.phase.Asking?) && a == StatusAnswered(id, None))
            || (r.phase.Asking? && r.revokes > 0 && a.StatusAnswered? && a.id == id && a.status.Some? &&
                !ProvesRevoked(a.status.value) && (a.status.value.state == PairState.Revoking ==> r.phase.second))
  {
    hide Truthful, ProvesNoOperation, ProvesRevoked, MayBecome, IssuedPair;
    assert a.StatusAnswered? || a.Remove? || a.Publish? || a.Unpublish? || a.ReadBack?;
  }

  // ----- Removing -----

  /** Three removals in a row take the writer's secret, the evidence secret and
      last the metadata; a file whose removal fails is left. */
  lemma RemovesAll(ws: seq<World>, acts: seq<Action>, m: nat, id: nat, ok: seq<bool>)
    requires History(ws, acts) && m + 3 <= |acts| && id < |ws[m].runs| && ws[m].runs[id].phase == Removing(0) && |ok| == 3
    requires acts[m] == Remove(id, ok[0]) && acts[m + 1] == Remove(id, ok[1]) && acts[m + 2] == Remove(id, ok[2])
    ensures var d, d' := ws[m].disk, ws[m + 3].disk;
            d'.writer == (if ok[0] then None else d.writer) && d'.evidence == (if ok[1] then None else d.evidence) &&
            d'.metadata == (if ok[2] then None else d.metadata) && d.platter <= d'.platter
    ensures id < |ws[m + 3].runs| && ws[m + 3].runs[id].phase.Over?
  {
    assert Act(ws[m], acts[m]) == Some(ws[m + 1]);
    assert Act(ws[m + 1], acts[m + 1]) == Some(ws[m + 2]);
    assert Act(ws[m + 2], acts[m + 2]) == Some(ws[m + 3]);
  }
}
