/** Any number of start and verify runs on one journal path, interleaved step by
    step, killed at any step, with the power failing at any step. */
module JournalRuns {
  import opened Values
  import opened Text
  import opened Journal
  import opened JournalScript
  import opened JournalBytes
  import opened Observation
  import opened JournalBinding

  /** The journal file: its bytes, how many of them are flushed, whether its
      directory entry is, and the flushed file a rename has just replaced while
      the directory still may name it. */
  datatype File = File(bytes: Bytes, synced: nat, entrySynced: bool, replaced: Option<Bytes>)

  /** A mutation sent to the billing service. */
  datatype Post = Post(step: Step, org: Option<string>, body: Value)

  datatype Phase =
    | Ready                        // between two operations
    | Writing(offset: nat)         // appending the next record, this much handed over
    | Flushed                      // header flushed, its directory not yet
    | Posted                       // the request of the last intent is out
    | Answered                     // and its answer was accepted
    | Prepared(original: Bytes)    // journal read, replacement being written
    | Checked(original: Bytes)     // journal seen unchanged just before the rename
    | Renamed                      // replacement published, directory not yet flushed

  /** A run of either command. A writer is on a journey, some of whose records
      are complete; what the journey has not decided yet is a placeholder. */
  datatype Run =
    | Preflight(claim: Claim, absent: bool)
    | Writer(claim: Claim, sc: Script, done: nat, phase: Phase)
    | Verifier(claim: Claim)
    | Reported(claim: Claim, result: Option<Binding>)
    | Over

  /** `author` is the claim of the run that created the journal, while there is one. */
  datatype World = World(lock: Option<nat>, file: Option<File>, runs: map<nat, Run>, posts: seq<Post>, author: Option<Claim>)

  const START := World(None, None, map[], [], None)

  /** What one run may do next. */
  datatype Op =
    | SeeAbsent
    | Create(shared: Option<string>)
    | Write(count: nat)
    | Flush
    | FlushDirectory
    | Send
    | Accepted(org: string)
    | Observe(snapshot: Value, receipt: Value)
    | Recheck
    | Rename
    | Verify

  /** What may happen next: a run starts, works, ends or is killed; an operator
      removes the lock directory of a dead run; the power fails. */
  datatype Action =
    | LockStart(id: nat, claim: Claim)
    | LockVerify(id: nat, claim: Claim)
    | Work(id: nat, op: Op)
    | Exit(id: nat)
    | Kill(id: nat)
    | ClearStaleLock
    | PowerLoss(left: Option<Bytes>, lockLeft: bool)

  // ----- The journey so far -----

  function Prefix(sc: Script, n: nat): seq<Event>
    requires n <= sc.Length()
  {
    sc.Events()[..n]
  }

  predicate EndsInIntent(sc: Script, n: nat) {
    1 <= n <= sc.Length() && sc.At(n - 1).Intent?
  }

  /** The observation is the next thing to write. */
  predicate ObservationDue(sc: Script, n: nat) {
    n == sc.OpeningLength() + 3 && sc.observation.None?
  }

  /** The bytes of the first `n` records. */
  function Complete(c: Codec, sc: Script, n: nat): Bytes
    requires n <= sc.Length()
  {
    Content(c, Prefix(sc, n))
  }

  function NextLine(c: Codec, sc: Script, n: nat): Bytes {
    if n < sc.Length() then Line(c, sc.At(n)) else []
  }

  /** The requests the given records announce. */
  function Requests(es: seq<Event>): seq<Post> {
    if es == [] then []
    else
      var rest := Requests(es[..|es| - 1]);
      match es[|es| - 1]
      case Intent(step, org, body) => rest + [Post(step, org, body)]
      case _ => rest
  }

  // ----- What a run does -----

  /** The journey as far as it is known when the journal is created. */
  function Outset(claim: Claim, shared: Option<string>): Script
    requires ValidClaim(claim)
  {
    Script(ClaimHeader(claim),
           if shared.Some? then Selected(shared.value) else Created(StepBody(claim, Personal), "org_"),
           StepBody(claim, Usage), None, StepBody(claim, Subscription), StepBody(claim, Topup))
  }

  /** A writer with the file it writes and the requests sent so far. */
  datatype Desk = Desk(file: File, posts: seq<Post>, claim: Claim, sc: Script, done: nat, phase: Phase)

  predicate MayAppend(d: Desk) {
    && d.done < d.sc.Length()
    && !ObservationDue(d.sc, d.done)
    && (d.phase == Answered || (d.phase == Ready && !EndsInIntent(d.sc, d.done)))
  }

  /** `append`: some of the bytes that are left go to the end of the file. */
  function DoWrite(c: Codec, d: Desk, count: nat): Option<Desk> {
    var line := NextLine(c, d.sc, d.done);
    var offset := if d.phase.Writing? then d.phase.offset else 0;
    if (d.phase.Writing? || MayAppend(d)) && 0 < count && offset + count <= |line|
    then Some(d.(file := d.file.(bytes := d.file.bytes + line[offset..offset + count]), phase := Writing(offset + count)))
    else None
  }

  function DoFlush(c: Codec, d: Desk): Option<Desk> {
    if d.phase.Writing? && d.phase.offset == |NextLine(c, d.sc, d.done)| && d.done < d.sc.Length()
    then Some(d.(file := d.file.(synced := |d.file.bytes|), done := d.done + 1, phase := if d.done == 0 then Flushed else Ready))
    else None
  }

  function DoFlushDirectory(d: Desk): Option<Desk> {
    if d.phase.Flushed? then Some(d.(file := d.file.(entrySynced := true, replaced := None), phase := Ready))
    else if d.phase.Renamed? then Some(d.(file := d.file.(entrySynced := true, replaced := None), done := d.done + 1, phase := Ready))
    else None
  }

  /** The request of `mutate`, after its intent was appended. */
  function DoSend(d: Desk): Option<Desk> {
    if d.phase.Ready? && EndsInIntent(d.sc, d.done) then
      var e := d.sc.At(d.done - 1);
      Some(d.(posts := d.posts + [Post(e.step, e.org, e.body)], phase := Posted))
    else None
  }

  /** The answer passed its checks; a personal answer settles the Organization. */
  function DoAccept(d: Desk, org: string): Option<Desk> {
    if !d.phase.Posted? || !EndsInIntent(d.sc, d.done) then None
    else if d.sc.At(d.done - 1).step != Personal then Some(d.(phase := Answered))
    else if d.sc.opening.Created? && IsReference(org) && "org_" <= org
    then Some(d.(sc := d.sc.(opening := Created(d.sc.opening.body, org)), phase := Answered))
    else None
  }

  /** `appendObservation` up to the copy: the journal is read and must parse. */
  function DoObserve(c: Codec, d: Desk, snapshot: Value, receipt: Value): Option<Desk> {
    if d.phase.Ready? && ObservationDue(d.sc, d.done) && ValidClaim(d.claim) && ReadJournal(c, d.file.bytes).Some? then
      var o := WorkspaceAggregateObservation(snapshot, d.sc.opening.org, d.claim.input, receipt);
      if o.None? then None else Some(d.(sc := d.sc.(observation := o), phase := Prepared(d.file.bytes)))
    else None
  }

  function DoRecheck(d: Desk): Option<Desk> {
    if d.phase.Prepared? && d.file.bytes == d.phase.original then Some(d.(phase := Checked(d.phase.original))) else None
  }

  /** The flushed copy with the observation takes the journal's name. */
  function DoRename(c: Codec, d: Desk): Option<Desk> {
    if d.phase.Checked? then
      var published := d.phase.original + NextLine(c, d.sc, d.done);
      Some(d.(file := File(published, |published|, d.file.entrySynced, Some(d.file.bytes)), phase := Renamed))
    else None
  }

  function DoWork(c: Codec, d: Desk, op: Op): Option<Desk> {
    match op
    case Write(count) => DoWrite(c, d, count)
    case Flush => DoFlush(c, d)
    case FlushDirectory => DoFlushDirectory(d)
    case Send => DoSend(d)
    case Accepted(org) => DoAccept(d, org)
    case Observe(snapshot, receipt) => DoObserve(c, d, snapshot, receipt)
    case Recheck => DoRecheck(d)
    case Rename => DoRename(c, d)
    case _ => None
  }

  /** One operation of run `id`. */
  function ActOfRun(c: Codec, w: World, id: nat, op: Op): Option<World>
    requires id in w.runs
  {
    var run := w.runs[id];
    if run.Preflight? && op.SeeAbsent? && w.file.None? then
      Some(w.(runs := w.runs[id := run.(absent := true)]))
    else if run.Preflight? && run.absent && op.Create? && w.file.None? && ValidClaim(run.claim)
            && (op.shared.Some? ==> IsReference(op.shared.value) && "org_wb_" <= op.shared.value) then
      // The file is created exclusively: an existing one would be an error.
      Some(w.(file := Some(File([], 0, false, None)), author := Some(run.claim),
              runs := w.runs[id := Writer(run.claim, Outset(run.claim, op.shared), 0, Ready)]))
    else if run.Verifier? && op.Verify? then
      var raw := if w.file.Some? then w.file.value.bytes else [];
      Some(w.(runs := w.runs[id := Reported(run.claim, ValidatedBinding(c, raw, run.claim))]))
    else if run.Writer? && w.file.Some? then
      var d := DoWork(c, Desk(w.file.value, w.posts, run.claim, run.sc, run.done, run.phase), op);
      if d.None? then None
      else Some(w.(file := Some(d.value.file), posts := d.value.posts,
                   runs := w.runs[id := Writer(run.claim, d.value.sc, d.value.done, d.value.phase)]))
    else None
  }

  /** What a power failure may leave of the file. */
  predicate MayRemain(f: Option<File>, left: Option<Bytes>) {
    if f.None? then left.None?
    else if left.None? then !f.value.entrySynced
    else left == f.value.replaced || (left.value <= f.value.bytes && f.value.synced <= |left.value|)
  }

  /** One step of the world, when the code or the environment allows it. */
  function Act(c: Codec, w: World, a: Action): Option<World> {
    match a
    case LockStart(id, claim) =>
      if id !in w.runs && w.lock.None? && ValidClaim(claim)
      then Some(w.(lock := Some(id), runs := w.runs[id := Preflight(claim, false)])) else None
    case LockVerify(id, claim) =>
      if id !in w.runs && w.lock.None? && ValidClaim(claim)
      then Some(w.(lock := Some(id), runs := w.runs[id := Verifier(claim)])) else None
    case Work(id, op) =>
      if id in w.runs then ActOfRun(c, w, id, op) else None
    case Exit(id) =>
      if id in w.runs && w.runs[id] != Over then Some(w.(lock := None, runs := w.runs[id := Over])) else None
    case Kill(id) =>
      if id in w.runs then Some(w.(runs := w.runs[id := Over])) else None
    case ClearStaleLock =>
      if w.lock.Some? && w.lock.value in w.runs && w.runs[w.lock.value] == Over then Some(w.(lock := None)) else None
    case PowerLoss(left, lockLeft) =>
      if MayRemain(w.file, left)
      then Some(World(if lockLeft then w.lock else None,
                      if left.Some? then Some(File(left.value, |left.value|, true, None)) else None,
                      map id | id in w.runs :: Over, w.posts, if left.Some? then w.author else None))
      else None
  }

  // ----- What every step keeps -----

  predicate Sent(posts: seq<Post>, sc: Script, n: nat) {
    n <= sc.Length() && posts == Requests(Prefix(sc, n))
  }

  predicate Unsent(posts: seq<Post>, sc: Script, n: nat) {
    EndsInIntent(sc, n) && posts == Requests(Prefix(sc, n - 1))
  }

  /** The file holds `n` complete, flushed records of a journey and then a piece
      of the next line; every request announced by the complete records is out,
      except that the last one may not be yet. */
  ghost predicate Holds(c: Codec, f: File, posts: seq<Post>, sc: Script, n: nat) {
    && sc.Valid() && PlainScript(sc) && n <= sc.Length()
    && Complete(c, sc, n) <= f.bytes <= Complete(c, sc, n) + NextLine(c, sc, n)
    && |Complete(c, sc, n)| <= f.synced <= |f.bytes|
    && (f.replaced.Some? ==> f.replaced.value == Complete(c, sc, n))
    && (n >= 2 ==> f.entrySynced)
    && (Sent(posts, sc, n) || Unsent(posts, sc, n))
    && (f.bytes != Complete(c, sc, n) ==> Sent(posts, sc, n))
    && (n == sc.OpeningLength() + 3 ==> ObservationWhole(c, f, sc, n))
  }

  /** Where the observation comes next, it is not there at all, or there in full and flushed. */
  predicate ObservationWhole(c: Codec, f: File, sc: Script, n: nat)
    requires n <= sc.Length()
  {
    || f.bytes == Complete(c, sc, n)
    || (sc.observation.Some? && f.bytes == Complete(c, sc, n) + NextLine(c, sc, n) && f.synced == |f.bytes|)
  }

  /** The journal of the author's start run. */
  ghost predicate Authored(c: Codec, f: File, posts: seq<Post>, sc: Script, n: nat, author: Claim) {
    Holds(c, f, posts, sc, n) && ValidClaim(author) && JourneyOf(sc, author)
  }

  /** What the phase of the live writer adds. */
  predicate PhaseHolds(c: Codec, d: Desk) {
    var f, sc, n := d.file, d.sc, d.done;
    && n <= sc.Length()
    && ValidClaim(d.claim) && JourneyOf(sc, d.claim)
    && (n >= 1 && !d.phase.Flushed? ==> f.entrySynced)
    && (d.phase.Writing? || d.phase.Renamed? || f.bytes == Complete(c, sc, n))
    && (d.phase.Ready? && EndsInIntent(sc, n) ==> Unsent(d.posts, sc, n))
    && (d.phase.Ready? && !EndsInIntent(sc, n) ==> Sent(d.posts, sc, n))
    && (!d.phase.Ready? ==> Sent(d.posts, sc, n))
    && (d.phase.Writing? ==>
        d.phase.offset <= |NextLine(c, sc, n)| && f.bytes == Complete(c, sc, n) + NextLine(c, sc, n)[..d.phase.offset] && !ObservationDue(sc, n) && n < sc.Length())
    && (d.phase.Flushed? ==> n == 1)
    && (d.phase.Posted? || d.phase.Answered? ==> EndsInIntent(sc, n))
    && (d.phase.Prepared? ==> d.phase.original == f.bytes)
    && (d.phase.Checked? ==> d.phase.original == f.bytes)
    && (d.phase.Renamed? ==> f.bytes == Complete(c, sc, n) + NextLine(c, sc, n) && f.synced == |f.bytes|)
    && (if d.phase.Prepared? || d.phase.Checked? || d.phase.Renamed? then n == sc.OpeningLength() + 3 && sc.observation.Some?
        else sc.observation.Some? ==> n >= sc.OpeningLength() + 4)
    && (f.replaced.Some? ==> d.phase.Renamed?)
  }

  ghost predicate DeskInv(c: Codec, d: Desk) {
    Holds(c, d.file, d.posts, d.sc, d.done) && PhaseHolds(c, d)
  }

  function DeskOf(w: World, id: nat): Desk
    requires id in w.runs && w.runs[id].Writer? && w.file.Some?
  {
    Desk(w.file.value, w.posts, w.runs[id].claim, w.runs[id].sc, w.runs[id].done, w.runs[id].phase)
  }

  ghost predicate Inv(c: Codec, w: World) {
    && (forall i, j | i in w.runs && j in w.runs && w.runs[i].Writer? && w.runs[j].Writer? :: i == j)
    && (w.file.None? ==> w.posts == [] && forall i | i in w.runs :: !w.runs[i].Writer?)
    && (w.file.Some? <==> w.author.Some?)
    && (w.file.Some? ==> exists sc, n: nat :: Authored(c, w.file.value, w.posts, sc, n, w.author.value))
    && (forall i | i in w.runs && w.runs[i].Writer? :: w.author == Some(w.runs[i].claim))
    && (w.file.Some? ==> forall i | i in w.runs && w.runs[i].Writer? :: DeskInv(c, DeskOf(w, i)))
  }

  // ----- One lemma per operation -----

  lemma NextPrefix(c: Codec, sc: Script, n: nat)
    requires n < sc.Length()
    ensures Prefix(sc, n + 1) == Prefix(sc, n) + [sc.At(n)]
    ensures Complete(c, sc, n + 1) == Complete(c, sc, n) + NextLine(c, sc, n)
    ensures Requests(Prefix(sc, n + 1)) ==
            (if sc.At(n).Intent? then Requests(Prefix(sc, n)) + [Post(sc.At(n).step, sc.At(n).org, sc.At(n).body)] else Requests(Prefix(sc, n)))
  {
    assert Prefix(sc, n + 1)[..n] == Prefix(sc, n);
  }

  lemma Landmarks(sc: Script)
    requires sc.Valid()
    ensures !sc.At(0).Intent? && !sc.At(sc.OpeningLength() + 2).Intent?
    ensures sc.observation.Some? ==> sc.At(sc.OpeningLength() + 3).Observed?
    ensures IsReference(sc.opening.org)
  {
  }

  /** Where a write starts, everything announced is sent and the file is a known piece. */
  lemma BeforeWrite(c: Codec, d: Desk, count: nat)
    requires DeskInv(c, d) && DoWrite(c, d, count).Some?
    ensures var offset := if d.phase.Writing? then d.phase.offset else 0;
            Sent(d.posts, d.sc, d.done) && d.done < d.sc.Length() && d.done != d.sc.OpeningLength() + 3 &&
            offset + count <= |NextLine(c, d.sc, d.done)| && d.file.replaced.None? && (d.done >= 1 ==> d.file.entrySynced) &&
            d.file.bytes == Complete(c, d.sc, d.done) + NextLine(c, d.sc, d.done)[..offset]
  {
    hide Script.Valid, Script.At, JourneyOf, ValidClaim, PlainScript, Requests, Content, Line, Complete, NextLine;
    assert NextLine(c, d.sc, d.done)[..0] == [];
  }

  lemma WriteKeeps(c: Codec, d: Desk, count: nat)
    requires DeskInv(c, d) && DoWrite(c, d, count).Some?
    ensures DeskInv(c, DoWrite(c, d, count).value)
  {
    hide Script.Valid, Script.At, JourneyOf, ValidClaim, PlainScript, Requests, Content, Line, Complete, NextLine, Sent, Unsent,
      ObservationDue, EndsInIntent;
    BeforeWrite(c, d, count);
    var line, whole := NextLine(c, d.sc, d.done), Complete(c, d.sc, d.done);
    var offset := if d.phase.Writing? then d.phase.offset else 0;
    var d' := DoWrite(c, d, count).value;
    Piece(whole, line, offset, count);
    assert d'.file.bytes == whole + line[..offset + count];
    assert Holds(c, d'.file, d'.posts, d'.sc, d'.done);
    assert PhaseHolds(c, d');
  }

  lemma Piece(whole: Bytes, line: Bytes, offset: nat, count: nat)
    requires offset + count <= |line|
    ensures (whole + line[..offset]) + line[offset..offset + count] == whole + line[..offset + count]
    ensures whole <= whole + line[..offset + count] <= whole + line
  {
  }

  lemma FlushKeeps(c: Codec, d: Desk)
    requires DeskInv(c, d) && DoFlush(c, d).Some?
    ensures DeskInv(c, DoFlush(c, d).value)
  {
    hide Script.Valid, Script.At, JourneyOf, ValidClaim, PlainScript, Requests, Content, Line;
    Landmarks(d.sc);
    var line := NextLine(c, d.sc, d.done);
    NextPrefix(c, d.sc, d.done);
    assert line[..|line|] == line;
  }

  lemma FlushDirectoryKeeps(c: Codec, d: Desk)
    requires DeskInv(c, d) && DoFlushDirectory(d).Some?
    ensures DeskInv(c, DoFlushDirectory(d).value)
  {
    hide Script.Valid, Script.At, JourneyOf, ValidClaim, PlainScript, Requests, Content, Line;
    Landmarks(d.sc);
    if d.done < d.sc.Length() {
      NextPrefix(c, d.sc, d.done);
    }
  }

  lemma SendKeeps(c: Codec, d: Desk)
    requires DeskInv(c, d) && DoSend(d).Some?
    ensures DeskInv(c, DoSend(d).value)
  {
    hide Script.Valid, JourneyOf, ValidClaim, PlainScript, Requests, Content, Line;
    NextPrefix(c, d.sc, d.done - 1);
  }

  /** Settling the Organization or the observation changes no record already
      written. */
  lemma SamePrefix(c: Codec, sc: Script, sc': Script, n: nat)
    requires n <= sc.Length() && n <= sc'.Length()
    requires forall i | 0 <= i < n :: sc.At(i) == sc'.At(i)
    ensures Prefix(sc, n) == Prefix(sc', n)
  {
  }

  /** The Organization of the answer settles the journey and touches nothing written. */
  lemma PersonalAnswered(c: Codec, sc: Script, claim: Claim, org: string)
    requires ValidClaim(claim) && sc.opening.Created? && sc.observation.None? && JourneyOf(sc, claim)
    requires PlainScript(sc) && IsReference(org) && "org_" <= org
    ensures var sc' := sc.(opening := Created(sc.opening.body, org));
            sc'.Valid() && JourneyOf(sc', claim) && PlainScript(sc') && sc'.Length() == sc.Length() &&
            sc'.At(1) == sc.At(1) && sc.At(1).Intent? && !ObservationDue(sc, 2) &&
            Prefix(sc', 2) == Prefix(sc, 2) && Prefix(sc', 1) == Prefix(sc, 1)
  {
    hide ValidClaim, ValidHeader, IsReference, Plain, StepBody, ClaimHeader;
    var sc' := sc.(opening := Created(sc.opening.body, org));
    SamePrefix(c, sc, sc', 2);
    SamePrefix(c, sc, sc', 1);
  }

  lemma PersonalIntentIsSecond(sc: Script, n: nat)
    requires sc.Valid() && EndsInIntent(sc, n) && sc.At(n - 1).step == Personal
    ensures n == 2 && sc.opening.Created?
  {
  }

  lemma AcceptKeeps(c: Codec, d: Desk, org: string)
    requires DeskInv(c, d) && DoAccept(d, org).Some?
    ensures DeskInv(c, DoAccept(d, org).value)
  {
    hide Script.Valid, Script.At, JourneyOf, ValidClaim, PlainScript, Requests, Content, Line, IsReference;
    if d.sc.At(d.done - 1).step == Personal {
      PersonalIntentIsSecond(d.sc, d.done);
      PersonalAnswered(c, d.sc, d.claim, org);
    }
  }

  lemma ObservedJourney(sc: Script, o: Journal.Observation, claim: Claim)
    requires sc.Valid() && ValidClaim(claim) && JourneyOf(sc, claim) && PlainScript(sc) && sc.observation.None?
    requires ValidObservation(o) && ObservationMatches(o, sc.opening.org, claim.input)
    ensures sc.(observation := Some(o)).Valid()
    ensures JourneyOf(sc.(observation := Some(o)), claim) && PlainScript(sc.(observation := Some(o)))
    ensures Prefix(sc.(observation := Some(o)), sc.OpeningLength() + 3) == Prefix(sc, sc.OpeningLength() + 3)
  {
    hide ValidClaim, ValidHeader, ValidObservation, IsReference, ObservationMatches, Plain, StepBody;
  }

  lemma PrepareKeeps(c: Codec, d: Desk, snapshot: Value, receipt: Value)
    requires DeskInv(c, d) && DoObserve(c, d, snapshot, receipt).Some?
    ensures DeskInv(c, DoObserve(c, d, snapshot, receipt).value)
  {
    hide ValidInput, ValidUsage, Requests, Content, Line, Script.Valid, Script.At, JourneyOf,
      WorkspaceAggregateObservation, ReadJournal, PlainScript, ValidObservation, ObservationMatches, SavedMatchesReceipt;
    var d' := DoObserve(c, d, snapshot, receipt).value;
    Landmarks(d.sc);
    BuiltIsAccepted(snapshot, d.sc.opening.org, d.claim.input, receipt);
    ObservedJourney(d.sc, d'.sc.observation.value, d.claim);
    Landmarks(d'.sc);
    assert Complete(c, d'.sc, d.done) == Complete(c, d.sc, d.done);
  }

  lemma RecheckKeeps(c: Codec, d: Desk)
    requires DeskInv(c, d) && DoRecheck(d).Some?
    ensures DeskInv(c, DoRecheck(d).value)
  {
    hide Script.Valid, JourneyOf, ValidClaim, Requests, Content, Line;
  }

  lemma RenameKeeps(c: Codec, d: Desk)
    requires DeskInv(c, d) && DoRename(c, d).Some?
    ensures DeskInv(c, DoRename(c, d).value)
  {
    hide Script.Valid, JourneyOf, ValidClaim, Requests, Content, Line;
  }

  lemma WorkKeeps(c: Codec, d: Desk, op: Op)
    requires DeskInv(c, d) && DoWork(c, d, op).Some?
    ensures DeskInv(c, DoWork(c, d, op).value)
  {
    hide DeskInv, DoWrite, DoFlush, DoFlushDirectory, DoSend, DoAccept, DoObserve, DoRecheck, DoRename;
    match op
    case Write(count) => WriteKeeps(c, d, count);
    case Flush => FlushKeeps(c, d);
    case FlushDirectory => FlushDirectoryKeeps(c, d);
    case Send => SendKeeps(c, d);
    case Accepted(org) => AcceptKeeps(c, d, org);
    case Observe(snapshot, receipt) => PrepareKeeps(c, d, snapshot, receipt);
    case Recheck => RecheckKeeps(c, d);
    case Rename => RenameKeeps(c, d);
  }

  /** A new journal: nothing written, nothing sent. */
  lemma CreateKeeps(c: Codec, claim: Claim, shared: Option<string>)
    requires ValidClaim(claim) && (shared.Some? ==> IsReference(shared.value) && "org_wb_" <= shared.value)
    ensures DeskInv(c, Desk(File([], 0, false, None), [], claim, Outset(claim, shared), 0, Ready))
  {
    var sc := Outset(claim, shared);
    PlaceholderReferences();
    assert sc.Valid();
    PlainJourney(sc, claim);
    assert Prefix(sc, 0) == [];
  }

  /** What a power failure leaves is still a journal of the same journey. */
  lemma PowerLossKeeps(c: Codec, f: File, posts: seq<Post>, sc: Script, n: nat, left: Bytes)
    requires Holds(c, f, posts, sc, n) && MayRemain(Some(f), Some(left))
    ensures Holds(c, File(left, |left|, true, None), posts, sc, n)
  {
    hide Script.Valid, Requests, Content, Line;
  }

  /** Without its directory entry the whole journal may go, but then nothing was
      sent. */
  lemma VanishedUnsent(c: Codec, f: File, posts: seq<Post>, sc: Script, n: nat)
    requires Holds(c, f, posts, sc, n) && !f.entrySynced
    ensures posts == []
  {
    assert sc.header.Header?;
    if n == 1 {
      assert Prefix(sc, 1) == [sc.header];
      assert Requests([sc.header][..0]) == [];
    }
  }

  // ----- Every run of the world -----

  lemma WriterWorkKeeps(c: Codec, w: World, id: nat, op: Op)
    requires Inv(c, w) && id in w.runs && w.runs[id].Writer? && ActOfRun(c, w, id, op).Some?
    ensures Inv(c, ActOfRun(c, w, id, op).value)
  {
    hide DoWork, DeskInv, Authored, ValidClaim, ValidatedBinding, Outset, IsReference;
    var d := DeskOf(w, id);
    WorkKeeps(c, d, op);
    var d' := DoWork(c, d, op).value;
    var w' := ActOfRun(c, w, id, op).value;
    ClaimKept(c, d, op);
    assert DeskOf(w', id) == d';
    DeskAuthored(c, d');
  }

  lemma DeskAuthored(c: Codec, d: Desk)
    requires DeskInv(c, d)
    ensures Authored(c, d.file, d.posts, d.sc, d.done, d.claim)
  {
    hide Holds, JourneyOf, ValidClaim, Complete, NextLine, Sent, Unsent;
  }

  lemma ClaimKept(c: Codec, d: Desk, op: Op)
    requires DoWork(c, d, op).Some?
    ensures DoWork(c, d, op).value.claim == d.claim
  {
    hide WorkspaceAggregateObservation, ReadJournal, ValidClaim;
  }

  lemma CreationKeeps(c: Codec, w: World, id: nat, op: Op)
    requires Inv(c, w) && id in w.runs && w.runs[id].Preflight? && op.Create? && ActOfRun(c, w, id, op).Some?
    ensures Inv(c, ActOfRun(c, w, id, op).value)
  {
    hide ValidClaim, Outset, Holds, PhaseHolds, IsReference;
    CreateKeeps(c, w.runs[id].claim, op.shared);
    var w' := ActOfRun(c, w, id, op).value;
    DeskAuthored(c, DeskOf(w', id));
    assert Authored(c, w'.file.value, w'.posts, w'.runs[id].sc, 0, w'.runs[id].claim);
  }

  lemma PowerLossKeepsWorld(c: Codec, w: World, left: Option<Bytes>, lockLeft: bool)
    requires Inv(c, w) && Act(c, w, PowerLoss(left, lockLeft)).Some?
    ensures Inv(c, Act(c, w, PowerLoss(left, lockLeft)).value)
  {
    hide Holds, PhaseHolds, DeskInv, JourneyOf, ValidClaim;
    if w.file.Some? {
      var sc, n: nat :| Authored(c, w.file.value, w.posts, sc, n, w.author.value);
      if left.Some? {
        PowerLossKeeps(c, w.file.value, w.posts, sc, n, left.value);
        assert Authored(c, File(left.value, |left.value|, true, None), w.posts, sc, n, w.author.value);
      } else {
        VanishedUnsent(c, w.file.value, w.posts, sc, n);
      }
    }
  }

  /** No writer moved: the file and the requests are as they were, and every
      writer left was already there. */
  predicate Quiet(w: World, w': World) {
    && w'.file == w.file && w'.posts == w.posts && w'.author == w.author
    && forall i | i in w'.runs && w'.runs[i].Writer? :: i in w.runs && w.runs[i] == w'.runs[i]
  }

  lemma QuietStep(c: Codec, w: World, a: Action)
    requires Act(c, w, a).Some? && !a.PowerLoss?
    requires a.Work? ==> !w.runs[a.id].Writer? && !(w.runs[a.id].Preflight? && a.op.Create?)
    ensures Quiet(w, Act(c, w, a).value)
  {
    hide DoWork, ValidClaim, ValidatedBinding, Outset, IsReference;
  }

  lemma QuietKeeps(c: Codec, w: World, w': World)
    requires Inv(c, w) && Quiet(w, w')
    ensures Inv(c, w')
  {
    hide Holds, DeskInv;
    forall i | i in w'.runs && w'.runs[i].Writer? && w.file.Some?
      ensures DeskInv(c, DeskOf(w', i))
    {
      assert DeskOf(w', i) == DeskOf(w, i);
    }
  }

  lemma StepKeeps(c: Codec, w: World, a: Action)
    requires Inv(c, w) && Act(c, w, a).Some?
    ensures Inv(c, Act(c, w, a).value)
  {
    hide Inv, ActOfRun;
    if a.PowerLoss? {
      PowerLossKeepsWorld(c, w, a.left, a.lockLeft);
    } else if a.Work? && w.runs[a.id].Writer? {
      WriterWorkKeeps(c, w, a.id, a.op);
    } else if a.Work? && w.runs[a.id].Preflight? && a.op.Create? {
      CreationKeeps(c, w, a.id, a.op);
    } else {
      QuietStep(c, w, a);
      QuietKeeps(c, w, Act(c, w, a).value);
    }
  }

  /** A history: worlds joined by steps, from no lock, no journal and no request. */
  ghost predicate History(c: Codec, ws: seq<World>, acts: seq<Action>) {
    && |ws| == |acts| + 1 && ws[0] == START
    && forall i | 0 <= i < |acts| :: Act(c, ws[i], acts[i]) == Some(ws[i + 1])
  }

  lemma {:induction false} Kept(c: Codec, ws: seq<World>, acts: seq<Action>)
    requires History(c, ws, acts)
    ensures Inv(c, ws[|acts|])
    decreases |acts|
  {
    if acts != [] {
      var m := |acts| - 1;
      assert Act(c, ws[m], acts[m]) == Some(ws[m + 1]);
      Kept(c, ws[..|ws| - 1], acts[..m]);
      hide Inv, Act;
      StepKeeps(c, ws[m], acts[m]);
    }
  }

  // ----- What follows -----

  function Rank(step: Step): nat {
    match step
    case Personal => 0
    case Usage => 1
    case Subscription => 2
    case Topup => 3
  }

  predicate OnceInOrder(posts: seq<Post>) {
    forall i, j | 0 <= i < j < |posts| :: Rank(posts[i].step) < Rank(posts[j].step)
  }

  /** The request's own intent, and before it the acknowledgement or selection of
      every earlier step, is on disk now and after any power failure. */
  ghost predicate Announced(c: Codec, f: Option<File>, p: Post) {
    exists es :: IntentOnDisk(c, f, p, es)
  }

  ghost predicate IntentOnDisk(c: Codec, f: Option<File>, p: Post, es: seq<Event>) {
    && Legal(es) && es != []
    && es[|es| - 1] == Intent(p.step, p.org, p.body)
    && Settled(es) == STEPS[..Rank(p.step)]
    && forall left | MayRemain(f, left) :: left.Some? && Content(c, es) <= left.value
  }

  lemma {:induction false} RequestsRise(sc: Script, n: nat)
    requires n <= sc.Length() && sc.header.Header?
    ensures OnceInOrder(Requests(Prefix(sc, n)))
    ensures forall i | 0 <= i < |Requests(Prefix(sc, n))| :: Rank(Requests(Prefix(sc, n))[i].step) < Reached(sc, n)
  {
    if n > 0 {
      RequestsRise(sc, n - 1);
      assert Prefix(sc, n)[..n - 1] == Prefix(sc, n - 1);
      ReachedNext(sc, n - 1);
    }
  }

  /** Steps begun after `n` records. */
  function Reached(sc: Script, n: nat): nat
    requires n <= sc.Length()
  {
    if n == 0 then 0 else sc.State(n).next + (if sc.State(n).pending.Some? then 1 else 0)
  }

  lemma ReachedNext(sc: Script, n: nat)
    requires n < sc.Length() && sc.header.Header?
    ensures Reached(sc, n) <= Reached(sc, n + 1)
    ensures sc.At(n).Intent? ==> Reached(sc, n) <= Rank(sc.At(n).step) < Reached(sc, n + 1)
    ensures sc.At(n).Intent? ==> n >= 1 && sc.State(n + 1).next == Rank(sc.At(n).step)
  {
  }

  lemma {:induction false} RequestFound(sc: Script, n: nat, p: Post) returns (k: nat)
    requires n <= sc.Length() && p in Requests(Prefix(sc, n))
    ensures k < n && sc.At(k) == Intent(p.step, p.org, p.body)
  {
    hide Script.At;
    assert Prefix(sc, n)[..n - 1] == Prefix(sc, n - 1);
    if sc.At(n - 1).Intent? && p == Post(sc.At(n - 1).step, sc.At(n - 1).org, sc.At(n - 1).body) {
      k := n - 1;
    } else {
      k := RequestFound(sc, n - 1, p);
    }
  }

  lemma PrefixOfPrefix(c: Codec, sc: Script, k: nat, n: nat)
    requires k <= n <= sc.Length()
    ensures Complete(c, sc, k) <= Complete(c, sc, n)
  {
    assert Prefix(sc, n)[..k] == Prefix(sc, k);
    ContentPrefix(c, Prefix(sc, n), k);
  }

  lemma SentAnnounced(c: Codec, f: File, posts: seq<Post>, sc: Script, n: nat, p: Post)
    requires Holds(c, f, posts, sc, n) && p in posts
    ensures Announced(c, Some(f), p)
  {
    hide ObservationWhole, Script.Valid, Script.At, Script.State, Content, Settled, Requests, Follows, PlainScript, NextLine, Legal;
    var m := if Sent(posts, sc, n) then n else n - 1;
    ValidStarts(sc);
    var k := RequestFound(sc, m, p);
    var es := Prefix(sc, k + 1);
    PrefixLegal(sc, k + 1);
    SettledBefore(sc, k);
    PrefixOfPrefix(c, sc, k + 1, n);
    assert f.entrySynced;
    forall left | MayRemain(Some(f), left)
      ensures left.Some? && Content(c, es) <= left.value
    {
      RemainingPrefix(c, f, sc, n, k + 1, left);
    }
    assert IntentOnDisk(c, Some(f), p, es);
  }

  lemma ValidStarts(sc: Script)
    requires sc.Valid()
    ensures sc.header.Header?
  {
  }

  /** Before an intent exactly the earlier steps are settled. */
  lemma SettledBefore(sc: Script, k: nat)
    requires sc.Valid() && k < sc.Length() && sc.At(k).Intent?
    ensures 1 <= k && Settled(Prefix(sc, k + 1)) == STEPS[..Rank(sc.At(k).step)]
  {
    ValidStarts(sc);
    SettledAt(sc, k + 1);
    ReachedNext(sc, k);
    hide Settled;
  }

  /** Flushed records of a named file survive. */
  lemma RemainingPrefix(c: Codec, f: File, sc: Script, n: nat, k: nat, left: Option<Bytes>)
    requires k <= n <= sc.Length() && MayRemain(Some(f), left) && f.entrySynced
    requires Complete(c, sc, k) <= Complete(c, sc, n) <= f.bytes && |Complete(c, sc, n)| <= f.synced
    requires f.replaced.Some? ==> f.replaced.value == Complete(c, sc, n)
    ensures left.Some? && Complete(c, sc, k) <= left.value
  {
    hide Content;
  }

  /** In every history of any number of start and verify runs, interleaved,
      killed and cut off by power failures at any step: each mutation is sent at
      most once, in the order personal, usage, subscription, topup, and only with
      its intent and all earlier acknowledgements safely on disk. */
  lemma MutationsAreSafe(c: Codec, ws: seq<World>, acts: seq<Action>)
    requires History(c, ws, acts)
    ensures OnceInOrder(ws[|acts|].posts)
    ensures forall p | p in ws[|acts|].posts :: Announced(c, ws[|acts|].file, p)
  {
    hide Act, Holds, Announced, OnceInOrder, DeskInv, JourneyOf, ValidClaim;
    Kept(c, ws, acts);
    var w := ws[|acts|];
    if w.file.Some? {
      var sc, n: nat :| Authored(c, w.file.value, w.posts, sc, n, w.author.value);
      HeldInOrder(c, w.file.value, w.posts, sc, n);
      forall p | p in w.posts
        ensures Announced(c, w.file, p)
      {
        SentAnnounced(c, w.file.value, w.posts, sc, n, p);
      }
    } else {
      NothingSent();
    }
  }

  lemma NothingSent()
    ensures OnceInOrder([])
  {
  }

  lemma HeldInOrder(c: Codec, f: File, posts: seq<Post>, sc: Script, n: nat)
    requires Holds(c, f, posts, sc, n)
    ensures OnceInOrder(posts)
  {
    assert sc.header.Header?;
    hide Script.At, Script.Valid, Script.State, Requests, Content, Complete, NextLine, OnceInOrder;
    RequestsRise(sc, n);
    if n > 0 {
      RequestsRise(sc, n - 1);
    }
  }

  /** The journal tells the truth about the service. Whatever of it is readable,
      now or after a power failure, names exactly the requests sent, in order,
      except that a trailing intent may not have been sent yet. */
  lemma JournalTellsRequests(c: Codec, ws: seq<World>, acts: seq<Action>, left: Option<Bytes>)
    requires Lawful(c) && History(c, ws, acts) && MayRemain(ws[|acts|].file, left)
    ensures left.None? ==> ws[|acts|].posts == []
    ensures left.Some? && ReadJournal(c, left.value).Some? ==>
              var es := ReadJournal(c, left.value).value;
              ws[|acts|].posts == Requests(es) ||
              (es != [] && es[|es| - 1].Intent? && ws[|acts|].posts == Requests(es[..|es| - 1]))
  {
    hide Act, Holds, DeskInv, JourneyOf, ValidClaim, Lawful, ReadJournal, Requests;
    Kept(c, ws, acts);
    var w := ws[|acts|];
    if w.file.Some? {
      var sc, n: nat :| Authored(c, w.file.value, w.posts, sc, n, w.author.value);
      if left.None? {
        VanishedUnsent(c, w.file.value, w.posts, sc, n);
      } else if ReadJournal(c, left.value).Some? {
        PowerLossKeeps(c, w.file.value, w.posts, sc, n, left.value);
        ReadableTells(c, File(left.value, |left.value|, true, None), w.posts, sc, n);
      }
    }
  }

  lemma ReadableTells(c: Codec, f: File, posts: seq<Post>, sc: Script, n: nat)
    requires Lawful(c) && Holds(c, f, posts, sc, n) && ReadJournal(c, f.bytes).Some?
    ensures var es := ReadJournal(c, f.bytes).value;
            posts == Requests(es) || (es != [] && es[|es| - 1].Intent? && posts == Requests(es[..|es| - 1]))
  {
    hide Script.At, Script.State, Script.Valid, ReadJournal, Content, Requests, Complete, NextLine;
    var k := ReadableAt(c, f, posts, sc, n);
    assert Sent(posts, sc, n) || Unsent(posts, sc, n);
    hide Holds;
    RequestsTell(c, posts, sc, n, k);
  }

  lemma RequestsTell(c: Codec, posts: seq<Post>, sc: Script, n: nat, k: nat)
    requires n <= k <= n + 1 && 1 <= k <= sc.Length()
    requires Sent(posts, sc, n) || (k == n && Unsent(posts, sc, n))
    ensures posts == Requests(Prefix(sc, k)) ||
            (Prefix(sc, k)[k - 1].Intent? && posts == Requests(Prefix(sc, k)[..k - 1]))
  {
    hide Script.At, Requests;
    assert Prefix(sc, k)[..k - 1] == Prefix(sc, k - 1);
    if k == n + 1 {
      NextPrefix(c, sc, n);
    }
  }

  /** A readable file of a journey ends at a record boundary: the last complete
      record, or one written out in full but not yet flushed. */
  lemma ReadableAt(c: Codec, f: File, posts: seq<Post>, sc: Script, n: nat) returns (k: nat)
    requires Lawful(c) && Holds(c, f, posts, sc, n) && ReadJournal(c, f.bytes).Some?
    ensures 1 <= k <= sc.Length() && n <= k <= n + 1 && f.bytes == Complete(c, sc, k)
    ensures ReadJournal(c, f.bytes) == Some(Prefix(sc, k))
    ensures k == n + 1 ==> Sent(posts, sc, n)
  {
    hide Script.At, Script.State, Script.Valid, ReadJournal, Content, Requests, Line;
    var m := if n < sc.Length() then n + 1 else n;
    if n < sc.Length() {
      NextPrefix(c, sc, n);
    }
    k := CutReads(c, sc, m, f.bytes);
    LongerPrefix(c, sc, k, n);
    LongerPrefix(c, sc, n, k);
  }

  lemma PrefixFollows(sc: Script, m: nat)
    requires sc.Valid() && 1 <= m <= sc.Length()
    ensures sc.header.Header? && Follows(Prefix(sc, m), sc)
  {
    hide IsReference, ValidObservation;
  }

  lemma CutReads(c: Codec, sc: Script, m: nat, cut: Bytes) returns (k: nat)
    requires Lawful(c) && sc.Valid() && PlainScript(sc) && 1 <= m <= sc.Length()
    requires cut <= Complete(c, sc, m) && ReadJournal(c, cut).Some?
    ensures 1 <= k <= m && cut == Complete(c, sc, k) && ReadJournal(c, cut) == Some(Prefix(sc, k))
  {
    hide Script.At, Script.State, Script.Valid, ReadJournal, Content, Line, Follows, PlainScript, Lawful, Writable;
    var es := Prefix(sc, m);
    PrefixFollows(sc, m);
    PlainWritable(sc, m);
    PrefixReads(c, es, cut);
    k :| 1 <= k <= m && cut == Content(c, es[..k]);
    assert es[..k] == Prefix(sc, k);
  }

  lemma LongerPrefix(c: Codec, sc: Script, k: nat, n: nat)
    requires k <= sc.Length() && n <= sc.Length()
    ensures k < n ==> |Complete(c, sc, k)| < |Complete(c, sc, n)|
  {
    if k < n {
      hide Content;
      NextPrefix(c, sc, k);
      PrefixOfPrefix(c, sc, k + 1, n);
    }
  }

  // ----- The observation -----

  /** Complete records, and then a piece of a line; nothing follows a usage
      acknowledgement but whole records. */
  ghost predicate WholeRecords(c: Codec, raw: Bytes, es: seq<Event>, piece: Bytes) {
    && (es == [] || Legal(es)) && raw == Content(c, es) + piece && NEWLINE !in piece
    && (es != [] && es[|es| - 1] == Ack(Usage, None) ==> piece == [])
  }

  /** In every history, whatever a power failure leaves of the journal is complete
      records and a piece without a line break, and there is no piece where the
      observation would stand: it is published whole or not at all. */
  lemma ObservationIsWhole(c: Codec, ws: seq<World>, acts: seq<Action>, left: Option<Bytes>)
    requires Lawful(c) && History(c, ws, acts) && MayRemain(ws[|acts|].file, left)
    ensures left.Some? ==> exists es, piece :: WholeRecords(c, left.value, es, piece)
  {
    hide Act, Holds, DeskInv, JourneyOf, ValidClaim, WholeRecords, Lawful;
    Kept(c, ws, acts);
    var w := ws[|acts|];
    if w.file.Some? && left.Some? {
      var sc, n: nat :| Authored(c, w.file.value, w.posts, sc, n, w.author.value);
      PowerLossKeeps(c, w.file.value, w.posts, sc, n, left.value);
      HeldIsWhole(c, File(left.value, |left.value|, true, None), w.posts, sc, n);
    }
  }

  lemma HeldIsWhole(c: Codec, f: File, posts: seq<Post>, sc: Script, n: nat)
    requires Lawful(c) && Holds(c, f, posts, sc, n)
    ensures exists es, piece :: WholeRecords(c, f.bytes, es, piece)
  {
    hide Script.At, Script.State, Script.Valid, Content, Requests, Line, PlainScript, Lawful, Legal;
    PrefixLegal(sc, n);
    var whole := Complete(c, sc, n);
    var piece := f.bytes[|whole|..];
    assert f.bytes == whole + piece;
    if n < sc.Length() {
      assert piece <= NextLine(c, sc, n);
      OneBreak(c, sc, n);
      if n > 0 {
        UsageIsBeforeObservation(sc, n);
      }
      if piece == NextLine(c, sc, n) {
        NextPrefix(c, sc, n);
        PrefixLegal(sc, n + 1);
        UsageIsBeforeObservation(sc, n + 1);
        assert WholeRecords(c, f.bytes, Prefix(sc, n + 1), []);
      } else {
        assert WholeRecords(c, f.bytes, Prefix(sc, n), piece);
      }
    } else {
      assert WholeRecords(c, f.bytes, Prefix(sc, n), []);
    }
  }

  lemma PrefixLegal(sc: Script, n: nat)
    requires sc.Valid() && n <= sc.Length()
    ensures Prefix(sc, n) == [] || Legal(Prefix(sc, n))
  {
    if n > 0 {
      PrefixFollows(sc, n);
    }
  }

  /** The usage acknowledgement is the last record exactly where the observation comes next. */
  lemma UsageIsBeforeObservation(sc: Script, n: nat)
    requires sc.Valid() && 1 <= n <= sc.Length()
    ensures Prefix(sc, n)[n - 1] == Ack(Usage, None) <==> n == sc.OpeningLength() + 3
  {
    hide IsReference, ValidObservation;
  }

  /** A line has its one break at its end. */
  lemma OneBreak(c: Codec, sc: Script, n: nat)
    requires Lawful(c) && sc.Valid() && PlainScript(sc) && n < sc.Length()
    ensures var line := NextLine(c, sc, n);
            line != [] && forall piece | piece <= line && piece != line :: NEWLINE !in piece
  {
    hide Script.Valid, Script.At, PlainScript, Lawful;
    ScriptPlain(sc, n);
    var text := LawfulLine(c, sc.At(n));
    var line := NextLine(c, sc, n);
    assert line == text + [NEWLINE];
    forall piece | piece <= line && piece != line
      ensures NEWLINE !in piece
    {
      assert |piece| <= |text|;
      assert piece == text[..|piece|];
    }
  }

  lemma ScriptPlain(sc: Script, n: nat)
    requires PlainScript(sc) && sc.Valid() && n < sc.Length()
    ensures PlainEvent(sc.At(n))
  {
    hide Plain, IsReference, ValidObservation;
  }
}
