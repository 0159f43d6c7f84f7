/** What a verify run reports, in any history of start and verify runs. */
module JournalReports {
  import opened Values
  import opened Text
  import opened Journal
  import opened JournalScript
  import opened JournalBytes
  import opened Observation
  import opened JournalBinding
  import opened JournalRuns

  // ----- The lock -----

  /** Every run that is not over holds the lock, so there is at most one. */
  predicate Guarded(w: World) {
    forall i | i in w.runs && w.runs[i] != Over :: w.lock == Some(i)
  }

  lemma GuardedStep(c: Codec, w: World, a: Action)
    requires Guarded(w) && Act(c, w, a).Some?
    ensures Guarded(Act(c, w, a).value)
  {
    hide DoWork, ValidClaim, ValidatedBinding, Outset, IsReference, MayRemain;
  }

  lemma {:induction false} GuardedThroughout(c: Codec, ws: seq<World>, acts: seq<Action>)
    requires History(c, ws, acts)
    ensures Guarded(ws[|acts|])
    decreases |acts|
  {
    if acts != [] {
      var m := |acts| - 1;
      assert Act(c, ws[m], acts[m]) == Some(ws[m + 1]);
      GuardedThroughout(c, ws[..|ws| - 1], acts[..m]);
      hide Act, Guarded;
      GuardedStep(c, ws[m], acts[m]);
    }
  }

  lemma LockStep(c: Codec, w: World, a: Action, w': World, id: nat)
    requires Act(c, w, a) == Some(w') && w'.lock == Some(id)
    requires w.lock == Some(id) ==> id in w.runs
    ensures id in w'.runs
    ensures w'.runs[id] == Over ==> a == Kill(id) || a.PowerLoss? || (w.lock == Some(id) && w.runs[id] == Over)
  {
    hide DoWork, ValidClaim, ValidatedBinding, Outset, IsReference, MayRemain;
  }

  /** In every history a lock is stale only when its run was killed, or the power
      failed: a run that ends by itself leaves no lock behind. */
  lemma {:induction false} StaleOnlyByKill(c: Codec, ws: seq<World>, acts: seq<Action>, id: nat)
    requires History(c, ws, acts) && ws[|acts|].lock == Some(id)
    ensures id in ws[|acts|].runs
    ensures ws[|acts|].runs[id] == Over ==> exists m | 0 <= m < |acts| :: acts[m] == Kill(id) || acts[m].PowerLoss?
    decreases |acts|
  {
    hide Act;
    assert acts != [];
    var m := |acts| - 1;
    assert Act(c, ws[m], acts[m]) == Some(ws[m + 1]);
    if ws[m].lock == Some(id) {
      StaleOnlyByKill(c, ws[..|ws| - 1], acts[..m], id);
    }
    LockStep(c, ws[m], acts[m], ws[m + 1], id);
  }

  // ----- The moment of a report -----

  /** Run `id` reads the journal in step `i`. */
  ghost predicate VerifiesAt(ws: seq<World>, acts: seq<Action>, i: nat, id: nat) {
    i < |acts| < |ws| && acts[i] == Work(id, Verify) && id in ws[i].runs && ws[i].runs[id].Verifier?
  }

  lemma ReportStep(c: Codec, w: World, a: Action, w': World, id: nat)
    requires Act(c, w, a) == Some(w') && id in w'.runs && w'.runs[id].Reported?
    ensures id in w.runs && (w.runs[id] == w'.runs[id] || (a == Work(id, Verify) && w.runs[id].Verifier?))
  {
    hide DoWork, ValidClaim, ValidatedBinding, Outset, IsReference, MayRemain;
  }

  /** A report was made in one step and has not changed since. */
  lemma {:induction false} ReportedOnce(c: Codec, ws: seq<World>, acts: seq<Action>, m: nat, id: nat) returns (i: nat)
    requires History(c, ws, acts) && m <= |acts| && id in ws[m].runs && ws[m].runs[id].Reported?
    ensures i < m && VerifiesAt(ws, acts, i, id) && id in ws[i + 1].runs && ws[i + 1].runs[id] == ws[m].runs[id]
    decreases m
  {
    hide Act;
    assert m > 0;
    assert Act(c, ws[m - 1], acts[m - 1]) == Some(ws[m]);
    ReportStep(c, ws[m - 1], acts[m - 1], ws[m], id);
    if ws[m - 1].runs[id] == ws[m].runs[id] {
      i := ReportedOnce(c, ws, acts, m - 1, id);
    } else {
      i := m - 1;
    }
  }

  // ----- What it says -----

  /** The binding names exactly the complete records of the file, the Organization
      they settle, and exactly the requests sent, but for a trailing intent. */
  ghost predicate Tells(c: Codec, f: File, posts: seq<Post>, sc: Script, b: Binding) {
    && (exists k | 1 <= k <= sc.Length() :: f.bytes == Complete(c, sc, k) && b == Binding(Prefix(sc, k), sc.State(k).org))
    && (posts == Requests(b.events) ||
        (b.events != [] && b.events[|b.events| - 1].Intent? && posts == Requests(b.events[..|b.events| - 1])))
  }

  predicate AtBoundary(c: Codec, f: File, sc: Script) {
    exists k | 1 <= k <= sc.Length() :: f.bytes == Complete(c, sc, k)
  }

  predicate EndsLine(b: Bytes) {
    b != [] && b[|b| - 1] == NEWLINE
  }

  /** The complete records are all the file holds, and they are what the claim says. */
  predicate Accounts(c: Codec, f: File, sc: Script, claim: Claim) {
    ValidInput(claim.input) && exists k | 1 <= k <= sc.Length() :: f.bytes == Complete(c, sc, k) && Bound(Prefix(sc, k), claim)
  }

  /** The report of a claim about the journal of the author's run: what it binds is
      exactly the complete records; a claim is bound exactly when they are what it
      says, and the author's own claim exactly when the file ends with a line break. */
  ghost predicate ReportsOn(c: Codec, w: World, claim: Claim, result: Option<Binding>, sc: Script, n: nat)
    requires w.file.Some?
  {
    && w.author.Some? && Authored(c, w.file.value, w.posts, sc, n, w.author.value)
    && (result.Some? ==> Tells(c, w.file.value, w.posts, sc, result.value))
    && (result.Some? <==> Accounts(c, w.file.value, sc, claim))
    && (claim == w.author.value ==> (result.Some? <==> EndsLine(w.file.value.bytes)))
  }

  lemma BoundTells(c: Codec, f: File, posts: seq<Post>, sc: Script, n: nat, claim: Claim)
    requires Lawful(c) && Holds(c, f, posts, sc, n) && ValidatedBinding(c, f.bytes, claim).Some?
    ensures Tells(c, f, posts, sc, ValidatedBinding(c, f.bytes, claim).value)
  {
    hide Holds, Lawful, Requests, Complete, Script.State, SettledOrg, ReadJournal, ValidatedBinding, Prefix;
    BindingRead(c, f.bytes, claim);
    ReadableTells(c, f, posts, sc, n);
    var k := ReadableAt(c, f, posts, sc, n);
    SettledByHeld(c, f, posts, sc, n, k);
  }

  lemma BindingRead(c: Codec, raw: Bytes, claim: Claim)
    requires ValidatedBinding(c, raw, claim).Some?
    ensures ReadJournal(c, raw).Some?
    ensures var es := ReadJournal(c, raw).value; ValidatedBinding(c, raw, claim).value == Binding(es, SettledOrg(es))
  {
    hide ReadJournal, SettledOrg, Bound;
  }

  lemma OwnBound(c: Codec, f: File, posts: seq<Post>, sc: Script, n: nat, claim: Claim)
    requires Lawful(c) && Holds(c, f, posts, sc, n) && ValidClaim(claim) && JourneyOf(sc, claim)
    ensures ValidatedBinding(c, f.bytes, claim).Some? <==> AtBoundary(c, f, sc)
  {
    hide Holds, JourneyOf, ValidClaim, Lawful, Complete, Script.State, ValidatedBinding, ReadJournal, Script.At, Requests;
    if AtBoundary(c, f, sc) {
      var k :| 1 <= k <= sc.Length() && f.bytes == Complete(c, sc, k);
      CompleteContent(c, sc, k);
      OwnJournalBinds(c, sc, claim, k);
    } else if ValidatedBinding(c, f.bytes, claim).Some? {
      BoundTells(c, f, posts, sc, n, claim);
    }
  }

  lemma AccountsBound(c: Codec, f: File, posts: seq<Post>, sc: Script, n: nat, claim: Claim)
    requires Lawful(c) && Holds(c, f, posts, sc, n)
    ensures ValidatedBinding(c, f.bytes, claim).Some? <==> Accounts(c, f, sc, claim)
  {
    hide Holds, Lawful, Complete, ReadJournal, Bound, ValidInput, SettledOrg, Prefix;
    if ReadJournal(c, f.bytes).Some? {
      var k := ReadableAt(c, f, posts, sc, n);
      forall j | 1 <= j <= sc.Length() && f.bytes == Complete(c, sc, j)
        ensures j == k
      {
        LongerPrefix(c, sc, j, k);
        LongerPrefix(c, sc, k, j);
      }
    } else if k :| 1 <= k <= sc.Length() && f.bytes == Complete(c, sc, k) {
      HeldReads(c, f, posts, sc, n, k);
    }
  }

  lemma HeldReads(c: Codec, f: File, posts: seq<Post>, sc: Script, n: nat, k: nat)
    requires Lawful(c) && Holds(c, f, posts, sc, n) && 1 <= k <= sc.Length() && f.bytes == Complete(c, sc, k)
    ensures ReadJournal(c, f.bytes).Some?
  {
    hide Script.At, Script.State, Script.Valid, ReadJournal, Content, Requests, Line, PlainScript, Lawful, NextLine, Legal,
      ObservationWhole;
    PrefixLegal(sc, k);
    ValidStarts(sc);
    PlainWritable(sc, k);
    ReadContent(c, Prefix(sc, k));
  }

  /** A file of a journey ends at a record boundary exactly when it ends with a line break. */
  lemma BoundaryEndsLine(c: Codec, f: File, posts: seq<Post>, sc: Script, n: nat)
    requires Lawful(c) && Holds(c, f, posts, sc, n)
    ensures AtBoundary(c, f, sc) <==> EndsLine(f.bytes)
  {
    hide Script.At, Script.State, Script.Valid, Content, Requests, Line, PlainScript, Lawful, NextLine, ObservationWhole;
    var whole := Complete(c, sc, n);
    var piece := f.bytes[|whole|..];
    assert f.bytes == whole + piece;
    if k :| 1 <= k <= sc.Length() && f.bytes == Complete(c, sc, k) {
      NextPrefix(c, sc, k - 1);
      LineEnds(c, sc, k - 1);
    } else if EndsLine(f.bytes) {
      PieceEnds(c, f, posts, sc, n, piece);
    }
  }

  lemma LineEnds(c: Codec, sc: Script, n: nat)
    requires n < sc.Length()
    ensures EndsLine(NextLine(c, sc, n))
  {
    hide Script.At;
  }

  lemma PieceEnds(c: Codec, f: File, posts: seq<Post>, sc: Script, n: nat, piece: Bytes)
    requires Lawful(c) && Holds(c, f, posts, sc, n) && f.bytes == Complete(c, sc, n) + piece && EndsLine(f.bytes)
    ensures AtBoundary(c, f, sc)
  {
    hide Script.At, Script.State, Script.Valid, Content, Requests, Line, PlainScript, Lawful, NextLine, ObservationWhole;
    var line := NextLine(c, sc, n);
    Cancelled(Complete(c, sc, n), piece, line);
    if piece == [] {
      assert f.bytes == Complete(c, sc, n);
      assert n > 0 by {
        NoRecords(c, sc);
      }
    } else {
      NoLine(c, sc, n);
      OneBreak(c, sc, n);
      assert piece[|piece| - 1] == f.bytes[|f.bytes| - 1] == NEWLINE;
      assert NEWLINE in piece;
      assert piece == line;
      NextPrefix(c, sc, n);
    }
  }

  lemma Cancelled(whole: Bytes, piece: Bytes, line: Bytes)
    requires whole + piece <= whole + line
    ensures piece <= line
  {
    forall i | 0 <= i < |piece|
      ensures i < |line| && piece[i] == line[i]
    {
      assert (whole + piece)[|whole| + i] == (whole + line)[|whole| + i];
    }
  }

  lemma NoRecords(c: Codec, sc: Script)
    ensures Complete(c, sc, 0) == []
  {
  }

  lemma NoLine(c: Codec, sc: Script, n: nat)
    ensures n >= sc.Length() ==> NextLine(c, sc, n) == []
  {
  }

  lemma HeldReports(c: Codec, w: World, claim: Claim, sc: Script, n: nat)
    requires Lawful(c) && w.file.Some? && w.author.Some? && Authored(c, w.file.value, w.posts, sc, n, w.author.value)
    ensures ReportsOn(c, w, claim, ValidatedBinding(c, w.file.value.bytes, claim), sc, n)
  {
    hide Holds, JourneyOf, ValidClaim, Lawful, ValidatedBinding, Tells, AtBoundary, Accounts, EndsLine;
    if ValidatedBinding(c, w.file.value.bytes, claim).Some? {
      BoundTells(c, w.file.value, w.posts, sc, n, claim);
    }
    AccountsBound(c, w.file.value, w.posts, sc, n, claim);
    if claim == w.author.value {
      OwnBound(c, w.file.value, w.posts, sc, n, claim);
      BoundaryEndsLine(c, w.file.value, w.posts, sc, n);
    }
  }

  lemma CompleteContent(c: Codec, sc: Script, k: nat)
    requires k <= sc.Length()
    ensures Complete(c, sc, k) == Content(c, sc.Events()[..k]) && Prefix(sc, k) == sc.Events()[..k]
  {
  }

  lemma SettledByHeld(c: Codec, f: File, posts: seq<Post>, sc: Script, n: nat, k: nat)
    requires Holds(c, f, posts, sc, n) && 1 <= k <= sc.Length()
    ensures SettledOrg(Prefix(sc, k)) == sc.State(k).org
  {
    hide Script.At, Script.State, Script.Valid, SettledOrg, Complete, NextLine, PlainScript;
    ValidStarts(sc);
    SettledOrgAt(sc, k);
  }

  /** In every history, kills and power failures included: while a verify run reads
      the journal no start run is at work; without a journal it reports nothing,
      and no request was sent; with one it reports as said above. */
  lemma VerifyReports(c: Codec, ws: seq<World>, acts: seq<Action>, i: nat, id: nat)
    requires Lawful(c) && History(c, ws, acts) && VerifiesAt(ws, acts, i, id)
    ensures forall j | j in ws[i].runs :: !ws[i].runs[j].Writer?
    ensures id in ws[i + 1].runs && ws[i + 1].runs[id].Reported? && ws[i + 1].runs[id].claim == ws[i].runs[id].claim
    ensures var result := ws[i + 1].runs[id].result;
            if ws[i].file.None? then result.None? && ws[i].posts == []
            else exists sc, n: nat :: ReportsOn(c, ws[i], ws[i].runs[id].claim, result, sc, n)
  {
    hide Act, Holds, DeskInv, JourneyOf, ValidClaim, Lawful, ReadJournal, ReportsOn, Authored, Bound, SettledOrg, ValidatedBinding;
    var w := ws[i];
    var claim := w.runs[id].claim;
    assert Act(c, w, acts[i]) == Some(ws[i + 1]);
    VerifyStep(c, w, id, ws[i + 1]);
    HistoryUpTo(c, ws, acts, i);
    GuardedThroughout(c, ws[..i + 1], acts[..i]);
    Kept(c, ws[..i + 1], acts[..i]);
    if w.file.Some? {
      var sc, n: nat :| Authored(c, w.file.value, w.posts, sc, n, w.author.value);
      HeldReports(c, w, claim, sc, n);
    } else {
      EmptyUnread(c, claim);
    }
  }

  lemma VerifyStep(c: Codec, w: World, id: nat, w': World)
    requires Act(c, w, Work(id, Verify)) == Some(w') && id in w.runs && w.runs[id].Verifier?
    ensures id in w'.runs && w'.runs[id] == Reported(w.runs[id].claim,
              ValidatedBinding(c, if w.file.Some? then w.file.value.bytes else [], w.runs[id].claim))
  {
    hide DoWork, ValidClaim, ValidatedBinding, Outset, IsReference;
  }

  lemma HistoryUpTo(c: Codec, ws: seq<World>, acts: seq<Action>, i: nat)
    requires History(c, ws, acts) && i <= |acts|
    ensures History(c, ws[..i + 1], acts[..i])
  {
    hide Act;
  }

  lemma EmptyUnread(c: Codec, claim: Claim)
    ensures ValidatedBinding(c, [], claim).None?
  {
    assert ReadJournal(c, []).None?;
    hide ReadJournal, Bound;
  }
}
