/** Issue and revoke runs on one output directory against one authority: lost and
    malformed answers, runs killed or the power failing at any step, runs overlapping. */
module Credentials {
  import opened Values
  import opened CredentialStatus

  type Operation = nat

  /** A pair at the authority. Nothing is known of a fresh operation; an open one
      may gain keys; a fenced one (revoking or revoked) can only lose them. */
  datatype Remote = Fresh | Open(writer: bool, evidence: bool) | Fenced(writer: bool, evidence: bool)

  datatype Phase =
    | Vacant                        // destinations seen vacant, operation id generated
    | Linked                        // metadata published, directory not yet flushed
    | Synced                        // directory flushed, metadata not yet read back
    | Signing                       // metadata read back, issue request being signed
    | Issuing                       // issue request in flight
    | Reconciling                   // issue answer lost, status asked
    | Holding(written: nat)         // pair received, this many secrets written
    | Revoking(second: bool)        // revoke request being signed or in flight
    | Asking(second: bool)          // status asked after a revoke
    | Removing(next: nat)           // absence proved, removing the local files
    | Done                          // pair handed over
    | Over                          // refused, failed, finished or killed

  /** A run of either command, with the requests it sent and the last status it read. */
  datatype Run = Run(issuer: bool, op: Operation, phase: Phase, issues: nat, revokes: nat, status: Option<PairStatus>)

  /** A status some run has read of an operation, before or after the operation's
      issue call had ended. */
  datatype Reading = Reading(op: Operation, status: PairStatus, ended: bool)

  /** The directory entries of the three files, by the operation that wrote them;
      `platter` holds every state the metadata entry may have after a power failure. */
  datatype Disk = Disk(writer: Option<Operation>, evidence: Option<Operation>,
                       metadata: Option<Operation>, platter: set<Option<Operation>>)

  /** `late` are the issue requests, `lateRevokes` the revoke requests whose run
      died before the call settled; `readings` all statuses read so far. */
  datatype World = World(remotes: map<Operation, Remote>, disk: Disk, runs: seq<Run>, used: set<Operation>,
                         late: set<Operation>, lateRevokes: set<Operation>, readings: set<Reading>)

  const START := World(map[], Disk(None, None, None, {None}), [], {}, {}, {}, {})

  datatype Action =
    | StartIssue(op: Operation)
    | StartRevoke
    | Publish(id: nat)
    | Unpublish(id: nat)
    | FlushDirectory(id: nat)
    | ReadBack(id: nat)
    | SignFailed(id: nat)
    | SendIssue(id: nat)
    | Serve(op: Operation, to: Remote)
    | IssueAnswered(id: nat, pair: Option<PairStatus>)
    | RevokeSettled(id: nat)
    | StatusAnswered(id: nat, status: Option<PairStatus>)
    | WriteSecret(id: nat, ok: bool, left: bool)
    | Remove(id: nat, ok: bool)
    | Stop(id: nat)
    | Writeback
    | PowerLoss(metadata: Option<Operation>)

  // ----- The authority -----

  function RemoteOf(w: World, op: Operation): Remote {
    if op in w.remotes then w.remotes[op] else Fresh
  }

  predicate IssueInFlight(w: World, op: Operation) {
    op in w.late || exists r | r in w.runs :: r.issuer && r.op == op && r.phase.Issuing?
  }

  predicate RevokeInFlight(w: World, op: Operation) {
    op in w.lateRevokes || exists r | r in w.runs :: r.op == op && r.phase.Revoking?
  }

  predicate Fewer(writer: bool, evidence: bool, r: Remote)
    requires !r.Fresh?
  {
    (writer ==> r.writer) && (evidence ==> r.evidence)
  }

  /** The authority is monotone, and an operation leaves `Fresh` only while a
      request for it is in flight: a request never takes effect after its call settled. */
  predicate MayBecome(w: World, op: Operation, to: Remote) {
    match RemoteOf(w, op)
    case Fresh => (to.Open? && IssueInFlight(w, op)) || (to == Fenced(false, false) && RevokeInFlight(w, op))
    case Open(_, _) => to.Open? || (to.Fenced? && Fewer(to.writer, to.evidence, RemoteOf(w, op)))
    case Fenced(_, _) => to.Fenced? && Fewer(to.writer, to.evidence, RemoteOf(w, op))
  }

  /** A status that was understood tells the truth, unless it says it cannot. */
  predicate Truthful(st: PairStatus, r: Remote) {
    && Consistent(st)
    && st.state != Misspelled
    && (st.state != Indeterminate ==>
          match r
          case Fresh => st.state == Unregistered && !st.writer.present && !st.evidence.present
          case Open(writer, evidence) =>
            st.state in {Prepared, CredentialStatus.Issuing, Active, Partial} &&
            st.writer.present == writer && st.evidence.present == evidence
          case Fenced(writer, evidence) =>
            st.state in {PairState.Revoking, Revoked} && st.writer.present == writer && st.evidence.present == evidence)
  }

  predicate Live(r: Remote) {
    !r.Fresh? && (r.writer || r.evidence)
  }

  predicate Bound(r: Run) {
    r.issuer && (r.phase.Signing? || r.phase.Issuing?)
  }

  /** The issue request was sent, or its run will send it without another look at the disk. */
  predicate Pending(w: World, op: Operation) {
    op in w.late || exists r | r in w.runs :: r.op == op && Bound(r)
  }

  /** The pair is live, or may still become so. */
  predicate CouldLive(w: World, op: Operation) {
    match RemoteOf(w, op)
    case Fresh => Pending(w, op)
    case Open(_, _) => true
    case Fenced(writer, evidence) => writer || evidence
  }

  // ----- The client's tests -----

  /** `parseIssued` */
  predicate IssuedPair(st: PairStatus) {
    && st.state == Active && st.coverage == Complete && !st.terminal && !st.legacy && st.provenance
    && st.writer.present && st.writer.usable && st.evidence.present && st.evidence.usable
  }

  predicate ProvesNoOperation(st: PairStatus) {
    st.state == Unregistered && st.coverage == Absent && !st.legacy
  }

  predicate ProvesRevoked(st: PairStatus) {
    && st.state == Revoked && st.terminal && st.coverage == Absent
    && !st.writer.present && !st.evidence.present && !st.legacy
  }

  // ----- The steps -----

  function WithRun(w: World, id: nat, r: Run): World
    requires id < |w.runs|
  {
    w.(runs := w.runs[id := r])
  }

  function WithMetadata(d: Disk, metadata: Option<Operation>): Disk {
    d.(metadata := metadata, platter := d.platter + {metadata})
  }

  function StartRevoking(r: Run): Run {
    r.(phase := Phase.Revoking(false), revokes := r.revokes + 1)
  }

  function AfterStatus(r: Run, status: Option<PairStatus>): Run {
    var told := if status.Some? then r.(status := status) else r;
    if status.None? then told.(phase := Over)
    else if r.phase.Reconciling? then
      if ProvesNoOperation(status.value) then told.(phase := Removing(0)) else StartRevoking(told)
    else if ProvesRevoked(status.value) then told.(phase := Removing(0))
    else if r.phase == Asking(false) && status.value.state == PairState.Revoking then
      told.(phase := Phase.Revoking(true), revokes := told.revokes + 1)
    else told.(phase := Over)
  }

  predicate EndedRun(r: Run, op: Operation) {
    r.issuer && r.op == op && r.issues > 0 && !r.phase.Issuing?
  }

  /** The call of the operation's issue request has ended, in whatever way, but not with its run. */
  predicate IssueEnded(w: World, op: Operation) {
    op !in w.late && exists r | r in w.runs :: EndedRun(r, op)
  }

  function Read(w: World, op: Operation, status: Option<PairStatus>): set<Reading> {
    w.readings + if status.Some? then {Reading(op, status.value, IssueEnded(w, op))} else {}
  }

  /** One secret is published without replacement. Any failure leads to a revoke,
      and may leave the secret behind. */
  function DoWriteSecret(w: World, id: nat, ok: bool, left: bool): World
    requires id < |w.runs| && w.runs[id].phase.Holding? && w.runs[id].phase.written < 2
  {
    var r := w.runs[id];
    var first := r.phase.written == 0;
    var vacant := (if first then w.disk.writer else w.disk.evidence).None?;
    var flushed := if ok then {w.disk.metadata} else w.disk.platter;
    var disk :=
      if !vacant || (!ok && !left) then w.disk
      else if first then w.disk.(writer := Some(r.op), platter := flushed)
      else w.disk.(evidence := Some(r.op), platter := flushed);
    var told := if !vacant || !ok then StartRevoking(r) else r.(phase := if first then Holding(1) else Done);
    WithRun(w, id, told).(disk := disk)
  }

  /** `removeCredentialFiles` takes the three paths in order, whatever they name by now. */
  function DoRemove(w: World, id: nat, ok: bool): World
    requires id < |w.runs| && w.runs[id].phase.Removing?
  {
    var r := w.runs[id];
    var next := r.phase.next;
    var disk :=
      if !ok then w.disk
      else if next == 0 then w.disk.(writer := None)
      else if next == 1 then w.disk.(evidence := None)
      else WithMetadata(w.disk, None);
    WithRun(w, id, r.(phase := if next < 2 then Removing(next + 1) else Over)).(disk := disk)
  }

  /** A run is killed, or the machine with it: a request in flight may yet arrive. */
  function Stopped(w: World, id: nat): World
    requires id < |w.runs|
  {
    var r := w.runs[id];
    WithRun(w, id, r.(phase := Over)).(
      late := if r.phase.Issuing? then w.late + {r.op} else w.late,
      lateRevokes := if r.phase.Revoking? then w.lateRevokes + {r.op} else w.lateRevokes)
  }

  function AllOver(runs: seq<Run>): seq<Run> {
    seq(|runs|, i requires 0 <= i < |runs| => runs[i].(phase := Over))
  }

  function Failed(w: World, metadata: Option<Operation>): World {
    World(w.remotes, w.disk.(metadata := metadata, platter := {metadata}), AllOver(w.runs), w.used,
          w.late + set r | r in w.runs && r.phase.Issuing? :: r.op,
          w.lateRevokes + set r | r in w.runs && r.phase.Revoking? :: r.op, w.readings)
  }

  /** One step of run `id`. */
  function ActOfRun(w: World, id: nat, a: Action): Option<World>
    requires id < |w.runs|
  {
    var r := w.runs[id];
    match a
    case Publish(_) =>
      // The link refuses an existing destination.
      if !r.phase.Vacant? then None
      else if w.disk.metadata.Some? then Some(WithRun(w, id, r.(phase := Over)))
      else Some(WithRun(w, id, r.(phase := Linked)).(disk := WithMetadata(w.disk, Some(r.op))))
    case Unpublish(_) =>
      // The temporary name could not be removed after the link.
      if r.phase.Linked? then Some(WithRun(w, id, r.(phase := Over)).(disk := WithMetadata(w.disk, None))) else None
    case FlushDirectory(_) =>
      if r.phase.Linked? then Some(WithRun(w, id, r.(phase := Synced)).(disk := w.disk.(platter := {w.disk.metadata})))
      else None
    case ReadBack(_) =>
      if !r.phase.Synced? then None
      else if w.disk.metadata != Some(r.op) then Some(WithRun(w, id, r.(phase := Over)))
      else Some(WithRun(w, id, r.(phase := Signing)))
    case SignFailed(_) =>
      if r.phase.Signing? then Some(WithRun(w, id, r.(phase := Reconciling))) else None
    case SendIssue(_) =>
      if r.phase.Signing? then Some(WithRun(w, id, r.(phase := Phase.Issuing, issues := r.issues + 1))) else None
    case IssueAnswered(_, pair) =>
      if !r.phase.Issuing? then None
      else if pair.Some? then
        if Truthful(pair.value, RemoteOf(w, r.op)) && IssuedPair(pair.value)
        then Some(WithRun(w, id, r.(phase := Holding(0)))) else None
      else Some(WithRun(w, id, r.(phase := Reconciling)))
    case RevokeSettled(_) =>
      if r.phase.Revoking? then Some(WithRun(w, id, r.(phase := Asking(r.phase.second)))) else None
    case StatusAnswered(_, status) =>
      if (r.phase.Reconciling? || r.phase.Asking?) && (status.Some? ==> Truthful(status.value, RemoteOf(w, r.op)))
      then Some(WithRun(w, id, AfterStatus(r, status)).(readings := Read(w, r.op, status))) else None
    case WriteSecret(_, ok, left) =>
      if r.phase.Holding? && r.phase.written < 2 then Some(DoWriteSecret(w, id, ok, left)) else None
    case Remove(_, ok) =>
      if r.phase.Removing? then Some(DoRemove(w, id, ok)) else None
    case Stop(_) => Some(Stopped(w, id))
    case _ => None
  }

  function Act(w: World, a: Action): Option<World> {
    match a
    case StartIssue(op) =>
      if op !in w.used && w.disk.writer.None? && w.disk.evidence.None? && w.disk.metadata.None?
      then Some(w.(used := w.used + {op}, runs := w.runs + [Run(true, op, Vacant, 0, 0, None)])) else None
    case StartRevoke =>
      if w.disk.metadata.Some?
      then Some(w.(runs := w.runs + [Run(false, w.disk.metadata.value, Phase.Revoking(false), 0, 1, None)])) else None
    case Serve(op, to) =>
      if MayBecome(w, op, to) then Some(w.(remotes := w.remotes[op := to])) else None
    case Writeback => Some(w.(disk := w.disk.(platter := {w.disk.metadata})))
    case PowerLoss(metadata) => if metadata in w.disk.platter then Some(Failed(w, metadata)) else None
    case _ => if a.id < |w.runs| then ActOfRun(w, a.id, a) else None
  }

  /** The step unlinks the metadata path. */
  predicate TakesMetadata(w: World, a: Action) {
    && (a.Unpublish? || (a.Remove? && a.ok)) && a.id < |w.runs|
    && (a.Unpublish? ==> w.runs[a.id].phase.Linked?)
    && (a.Remove? ==> w.runs[a.id].phase.Removing? && w.runs[a.id].phase.next >= 2)
  }

  /** If it does, what the entry names cannot be live. */
  predicate Safe(w: World, a: Action) {
    TakesMetadata(w, a) && w.disk.metadata.Some? ==> !CouldLive(w, w.disk.metadata.value)
  }

  /** The last signed status the run read proves that its pair is absent. */
  predicate Proven(r: Run) {
    r.status.Some? && (ProvesRevoked(r.status.value) || (r.issuer && ProvesNoOperation(r.status.value)))
  }

  // ----- The invariant -----

  predicate Early(r: Run) {
    r.phase.Vacant? || r.phase.Linked? || r.phase.Synced?
  }

  predicate DeadRemote(r: Remote) {
    r == Fenced(false, false)
  }

  predicate Ordered(r: Run) {
    && (!r.issuer ==> r.phase.Revoking? || r.phase.Asking? || r.phase.Removing? || r.phase.Over?)
    && (Early(r) || r.phase.Signing? ==> r.issues == 0)
    && (r.phase.Issuing? ==> r.issues > 0)
    && (r.phase.Removing? ==> Proven(r))
    && (Early(r) || r.phase.Signing? || r.phase.Issuing? ==> r.status.None?)
  }

  /** The run has begun to send its issue request. */
  predicate Committed(r: Run) {
    r.phase.Signing? || r.issues > 0
  }

  predicate RunInv(w: World, r: Run) {
    && r.op in w.used
    && Ordered(r)
    && (r.issuer && (!r.phase.Over? || r.issues == 0 || Proven(r)) ==> r.op !in w.late)
    && (r.issuer && r.issues == 0 ==> RemoteOf(w, r.op).Fresh? || DeadRemote(RemoteOf(w, r.op)))
    && (r.issuer && (r.phase.Synced? || Committed(r)) && w.disk.metadata == Some(r.op) ==> w.disk.platter == {Some(r.op)})
    && (r.phase.Vacant? ==> Some(r.op) !in w.disk.platter)
    && (Proven(r) ==> DeadRemote(RemoteOf(w, r.op)) || (r.issuer && RemoteOf(w, r.op).Fresh?))
  }

  predicate Durable(w: World, op: Operation) {
    w.disk.metadata == Some(op) && w.disk.platter == {Some(op)}
  }

  predicate Known(w: World) {
    && w.late <= w.used && w.lateRevokes <= w.used && w.remotes.Keys <= w.used
    && w.disk.metadata in w.disk.platter
    && (forall m | m in w.disk.platter && m.Some? :: m.value in w.used)
  }

  predicate OneIssuer(w: World) {
    forall i, j | 0 <= i < |w.runs| && 0 <= j < |w.runs| && i != j && w.runs[i].issuer && w.runs[j].issuer :: w.runs[i].op != w.runs[j].op
  }

  predicate Generated(runs: seq<Run>, op: Operation) {
    exists i | 0 <= i < |runs| :: runs[i].issuer && runs[i].op == op
  }

  ghost predicate Recoverable(w: World) {
    forall op | CouldLive(w, op) :: Durable(w, op)
  }

  /** What every step keeps. */
  ghost predicate Base(w: World) {
    && Known(w) && OneIssuer(w)
    && (forall op | op in w.used :: Generated(w.runs, op))
    && (forall r | r in w.runs :: RunInv(w, r))
  }

  // ----- One lemma per kind of step -----

  /** Run `id` takes a step that touches neither the authority nor, for any
      other run, what the disk promises. */
  predicate RunStep(w: World, w': World, id: nat, r': Run) {
    && id < |w.runs| && r'.op == w.runs[id].op && r'.issuer == w.runs[id].issuer
    && w'.runs == w.runs[id := r'] && w'.remotes == w.remotes && w'.used == w.used
    && (w'.late == w.late || (w'.late == w.late + {r'.op} && r'.issuer && w.runs[id].phase.Issuing? && r'.phase.Over?))
    && (w'.lateRevokes == w.lateRevokes || w'.lateRevokes == w.lateRevokes + {r'.op})
    && (Bound(r') ==> Bound(w.runs[id]) || Durable(w, r'.op))
  }

  /** The disk gains no metadata entry, unless of the given operation. */
  predicate NothingNew(w: World, d: Disk, own: Option<Operation>) {
    && d.metadata in d.platter
    && (forall m | m in d.platter && m.Some? && m != own :: m in w.disk.platter)
    && (d.metadata.Some? && d.metadata != own ==> d.metadata == w.disk.metadata && d.platter <= w.disk.platter)
  }

  /** The step reads the metadata of `op` back. */
  predicate Confirms(w: World, id: nat, r': Run, op: Operation) {
    id < |w.runs| && r'.op == op && Bound(r') && !Bound(w.runs[id]) && Durable(w, op)
  }

  lemma FlightKept(w: World, w': World, id: nat, r': Run, op: Operation)
    requires RunStep(w, w', id, r')
    ensures CouldLive(w', op) ==> CouldLive(w, op) || Confirms(w, id, r', op)
  {
    if Pending(w', op) && op !in w'.late {
      var r :| r in w'.runs && r.op == op && Bound(r);
      var j :| 0 <= j < |w'.runs| && w'.runs[j] == r;
      if j != id {
        assert w.runs[j] == r;
        assert r in w.runs;
      } else if Bound(w.runs[id]) {
        assert w.runs[id] in w.runs;
      }
    } else if Pending(w', op) && op !in w.late {
      assert w.runs[id] in w.runs;
    }
  }

  lemma OthersKeep(w: World, w': World, id: nat, r': Run, own: Option<Operation>, r: Run, j: nat)
    requires Base(w) && RunStep(w, w', id, r') && NothingNew(w, w'.disk, own)
    requires own.Some? ==> own == Some(r'.op) && r'.issuer
    requires j < |w.runs| && j != id && w.runs[j] == r
    ensures RunInv(w', r)
  {
    assert RunInv(w, r);
    assert r.issuer && r'.issuer ==> r.op != r'.op by {
      assert OneIssuer(w);
    }
    assert RemoteOf(w', r.op) == RemoteOf(w, r.op);
    if Early(r) {
      assert r.issuer;
      assert Some(r.op) != own;
    }
  }

  lemma RunStepKeeps(w: World, w': World, id: nat, r': Run, own: Option<Operation>)
    requires Base(w) && RunStep(w, w', id, r') && NothingNew(w, w'.disk, own) && RunInv(w', r')
    requires own.Some? ==> own == Some(r'.op) && r'.issuer
    ensures Base(w')
    ensures (Recoverable(w) && forall op | CouldLive(w, op) || (Bound(r') && Durable(w, op)) :: Durable(w', op))
            ==> Recoverable(w')
  {
    hide RunInv, CouldLive, Durable, Bound;
    forall op | op in w'.used
      ensures Generated(w'.runs, op)
    {
      var i :| 0 <= i < |w.runs| && w.runs[i].issuer && w.runs[i].op == op;
      assert w'.runs[i].issuer && w'.runs[i].op == op;
    }
    forall r | r in w'.runs
      ensures RunInv(w', r)
    {
      var j :| 0 <= j < |w'.runs| && w'.runs[j] == r;
      if j != id {
        OthersKeep(w, w', id, r', own, r, j);
      }
    }
    forall op | CouldLive(w', op)
      ensures CouldLive(w, op) || (Bound(r') && Durable(w, op))
    {
      FlightKept(w, w', id, r', op);
    }
    RunKnown(w, w.runs[id]);
    OwnUsed(w', r');
  }

  lemma OwnUsed(w: World, r: Run)
    requires RunInv(w, r)
    ensures r.op in w.used
  {
  }

  lemma RunKnown(w: World, r: Run)
    requires Base(w) && r in w.runs
    ensures r.op in w.used
  {
    assert RunInv(w, r);
  }

  lemma PublishKeeps(w: World, id: nat, a: Action)
    requires Base(w) && id < |w.runs| && (a.Publish? || a.FlushDirectory?) && ActOfRun(w, id, a).Some?
    ensures Base(ActOfRun(w, id, a).value)
    ensures Recoverable(w) ==> Recoverable(ActOfRun(w, id, a).value)
  {
    var w' := ActOfRun(w, id, a).value;
    assert RunInv(w, w.runs[id]);
    RunStepKeeps(w, w', id, w'.runs[id], if w.runs[id].issuer && a.Publish? then Some(w.runs[id].op) else None);
  }

  lemma TakeKeeps(w: World, id: nat, a: Action)
    requires Base(w) && id < |w.runs| && (a.Unpublish? || a.Remove?) && a.id == id
    requires ActOfRun(w, id, a).Some?
    ensures Base(ActOfRun(w, id, a).value)
    ensures Recoverable(w) && Safe(w, a) ==> Recoverable(ActOfRun(w, id, a).value)
  {
    var w' := ActOfRun(w, id, a).value;
    var r := w.runs[id];
    assert RunInv(w, r);
    RunStepKeeps(w, w', id, w'.runs[id], None);
  }

  /** Neither without its request nor after a proof of absence can a run's pair be live. */
  lemma NotLive(w: World, r: Run)
    requires Base(w) && r in w.runs && ((r.issuer && !Committed(r)) || Proven(r))
    ensures !CouldLive(w, r.op)
  {
    hide Truthful, ProvesNoOperation, ProvesRevoked;
    assert RunInv(w, r);
    forall q | q in w.runs && q.op == r.op && Bound(q)
      ensures !r.issuer
    {
      assert RunInv(w, q);
    }
  }

  lemma TalkKeeps(w: World, id: nat, a: Action)
    requires Base(w) && id < |w.runs| && ActOfRun(w, id, a).Some?
    requires a.ReadBack? || a.SignFailed? || a.SendIssue? || a.IssueAnswered? || a.RevokeSettled? || a.WriteSecret?
    ensures Base(ActOfRun(w, id, a).value)
    ensures Recoverable(w) ==> Recoverable(ActOfRun(w, id, a).value)
  {
    hide Truthful, IssuedPair, CouldLive;
    var w' := ActOfRun(w, id, a).value;
    assert RunInv(w, w.runs[id]);
    RunStepKeeps(w, w', id, w'.runs[id], None);
  }

  lemma StatusKeeps(w: World, id: nat, a: Action)
    requires Base(w) && id < |w.runs| && ActOfRun(w, id, a).Some? && a.StatusAnswered?
    ensures Base(ActOfRun(w, id, a).value)
    ensures Recoverable(w) ==> Recoverable(ActOfRun(w, id, a).value)
  {
    var r := w.runs[id];
    var w' := ActOfRun(w, id, a).value;
    if a.status.Some? {
      StatusProves(a.status.value, RemoteOf(w, r.op));
    }
    hide Truthful, CouldLive, ProvesNoOperation, ProvesRevoked, Consistent;
    assert RunInv(w, r);
    RunStepKeeps(w, w', id, w'.runs[id], None);
  }

  /** What the two tests of a truthful status prove. */
  lemma StatusProves(st: PairStatus, r: Remote)
    requires Truthful(st, r)
    ensures ProvesNoOperation(st) ==> r.Fresh?
    ensures ProvesRevoked(st) ==> DeadRemote(r)
  {
  }

  lemma StopKeeps(w: World, id: nat)
    requires Base(w) && id < |w.runs|
    ensures Base(Stopped(w, id))
    ensures Recoverable(w) ==> Recoverable(Stopped(w, id))
  {
    var w' := Stopped(w, id);
    assert RunInv(w, w.runs[id]);
    RunStepKeeps(w, w', id, w'.runs[id], None);
  }

  lemma ServeKeeps(w: World, op: Operation, to: Remote)
    requires Base(w) && MayBecome(w, op, to)
    ensures Base(w.(remotes := w.remotes[op := to]))
    ensures Recoverable(w) ==> Recoverable(w.(remotes := w.remotes[op := to]))
  {
    var w' := w.(remotes := w.remotes[op := to]);
    FlightUsed(w, op);
    forall r | r in w'.runs
      ensures RunInv(w', r)
    {
      assert RunInv(w, r);
      if r.op == op && Proven(r) {
        NotLive(w, r);
      } else if r.op == op && r.issuer && r.issues == 0 {
        NotSent(w, r);
      }
    }
    forall o | CouldLive(w', o)
      ensures CouldLive(w, o)
    {
      assert CouldLive(w, o);
    }
  }

  lemma NotSent(w: World, r: Run)
    requires Base(w) && r in w.runs && r.issuer && r.issues == 0
    ensures !IssueInFlight(w, r.op)
  {
    assert RunInv(w, r);
    forall q | q in w.runs && q.issuer && q.op == r.op && q.phase.Issuing?
      ensures false
    {
      assert RunInv(w, q);
      SameIssuer(w, q, r);
    }
  }

  lemma FlightUsed(w: World, op: Operation)
    requires Base(w)
    ensures IssueInFlight(w, op) || RevokeInFlight(w, op) || op in w.remotes ==> op in w.used
  {
    if IssueInFlight(w, op) && op !in w.late {
      var r :| r in w.runs && r.issuer && r.op == op && r.phase.Issuing?;
      assert RunInv(w, r);
    } else if RevokeInFlight(w, op) && op !in w.lateRevokes {
      var r :| r in w.runs && r.op == op && r.phase.Revoking?;
      assert RunInv(w, r);
    }
  }

  /** A new run, of a fresh operation or of the one the metadata names. */
  predicate Joins(w: World, w': World, r: Run) {
    && w' == w.(runs := w.runs + [r], used := w.used + {r.op})
    && if r.issuer then r.op !in w.used && w.disk.metadata.None? && r == Run(true, r.op, Vacant, 0, 0, None)
       else w.disk.metadata == Some(r.op) && r == Run(false, r.op, Phase.Revoking(false), 0, 1, None)
  }

  lemma Started(w: World, a: Action) returns (r: Run)
    requires Base(w) && (a.StartIssue? || a.StartRevoke?) && Act(w, a).Some?
    ensures Joins(w, Act(w, a).value, r)
  {
    hide RunInv, CouldLive;
    var w' := Act(w, a).value;
    r := w'.runs[|w.runs|];
    assert a.StartRevoke? ==> w.used + {r.op} == w.used;
  }

  lemma JoinedRun(w: World, w': World, r: Run, q: Run)
    requires Base(w) && Joins(w, w', r) && q in w'.runs
    ensures RunInv(w', q)
  {
    hide ProvesNoOperation, ProvesRevoked;
    if q in w.runs {
      assert RunInv(w, q);
    } else {
      assert q == r;
      FlightUsed(w, r.op);
    }
  }

  lemma JoinedLive(w: World, w': World, r: Run, op: Operation)
    requires Joins(w, w', r) && CouldLive(w', op)
    ensures CouldLive(w, op)
  {
    if Pending(w', op) && op !in w.late {
      var q :| q in w'.runs && q.op == op && Bound(q);
      assert q in w.runs;
    }
  }

  lemma JoinedGenerated(w: World, w': World, r: Run, op: Operation)
    requires Base(w) && Joins(w, w', r) && op in w'.used
    ensures Generated(w'.runs, op)
  {
    hide RunInv, CouldLive;
    var n := |w.runs|;
    if op in w.used {
      var i :| 0 <= i < n && w.runs[i].issuer && w.runs[i].op == op;
      assert w'.runs[i] == w.runs[i];
    } else {
      assert w'.runs[n].op == op;
    }
  }

  lemma JoinedIssuers(w: World, w': World, r: Run)
    requires Base(w) && Joins(w, w', r)
    ensures OneIssuer(w')
  {
    hide RunInv;
    forall i | 0 <= i < |w.runs|
      ensures w'.runs[i] == w.runs[i] && w.runs[i].op in w.used
    {
      RunKnown(w, w.runs[i]);
    }
  }

  lemma StartKeeps(w: World, a: Action)
    requires Base(w) && (a.StartIssue? || a.StartRevoke?) && Act(w, a).Some?
    ensures Base(Act(w, a).value)
    ensures Recoverable(w) ==> Recoverable(Act(w, a).value)
  {
    hide Act, RunInv, CouldLive, Generated, OneIssuer;
    var w' := Act(w, a).value;
    var r := Started(w, a);
    JoinedIssuers(w, w', r);
    forall op | op in w'.used
      ensures Generated(w'.runs, op)
    {
      JoinedGenerated(w, w', r, op);
    }
    forall q | q in w'.runs
      ensures RunInv(w', q)
    {
      JoinedRun(w, w', r, q);
    }
    forall op | CouldLive(w', op)
      ensures CouldLive(w, op)
    {
      JoinedLive(w, w', r, op);
    }
  }

  lemma WritebackKeeps(w: World)
    requires Base(w)
    ensures Base(w.(disk := w.disk.(platter := {w.disk.metadata})))
    ensures Recoverable(w) ==> Recoverable(w.(disk := w.disk.(platter := {w.disk.metadata})))
  {
    var w' := w.(disk := w.disk.(platter := {w.disk.metadata}));
    forall r | r in w'.runs
      ensures RunInv(w', r)
    {
      assert RunInv(w, r);
    }
    forall op | CouldLive(w', op)
      ensures CouldLive(w, op)
    {
      assert CouldLive(w, op);
    }
  }

  /** A run that ends, and a disk that settles, keep what is known of the run. */
  lemma RunFails(w: World, metadata: Option<Operation>, r: Run)
    requires Base(w) && metadata in w.disk.platter && r in w.runs
    ensures RunInv(Failed(w, metadata), r.(phase := Over))
  {
    hide Truthful, ProvesNoOperation, ProvesRevoked;
    assert RunInv(w, r);
    var w' := Failed(w, metadata);
    if r.op in w'.late && r.op !in w.late {
      var q :| q in w.runs && q.phase.Issuing? && q.op == r.op;
      assert RunInv(w, q);
      if r.issuer {
        SameIssuer(w, q, r);
      }
    }
  }

  lemma SameIssuer(w: World, q: Run, r: Run)
    requires Base(w) && q in w.runs && r in w.runs && q.op == r.op && q.issuer && r.issuer
    ensures q == r
  {
  }

  lemma FailedGenerated(w: World, metadata: Option<Operation>, op: Operation)
    requires Generated(w.runs, op)
    ensures Generated(Failed(w, metadata).runs, op)
  {
    var i :| 0 <= i < |w.runs| && w.runs[i].issuer && w.runs[i].op == op;
    assert AllOver(w.runs)[i].op == op;
  }

  lemma PowerLossKeeps(w: World, metadata: Option<Operation>)
    requires Base(w) && metadata in w.disk.platter
    ensures Base(Failed(w, metadata))
    ensures Recoverable(w) ==> Recoverable(Failed(w, metadata))
  {
    hide RunInv, Generated;
    var w' := Failed(w, metadata);
    forall op | op in w'.used
      ensures Generated(w'.runs, op)
    {
      FailedGenerated(w, metadata, op);
    }
    forall r' | r' in w'.runs
      ensures RunInv(w', r')
    {
      var i :| 0 <= i < |w'.runs| && w'.runs[i] == r';
      RunFails(w, metadata, w.runs[i]);
    }
    forall op | CouldLive(w', op)
      ensures CouldLive(w, op)
    {
      LateIssuers(w, op);
    }
    forall op | op in w'.late || op in w'.lateRevokes
      ensures op in w'.used
    {
      LateIssuers(w, op);
      FlightUsed(w, op);
    }
  }

  lemma LateIssuers(w: World, op: Operation)
    requires Base(w)
    ensures op in (w.late + set r | r in w.runs && r.phase.Issuing? :: r.op) ==> IssueInFlight(w, op) && Pending(w, op)
    ensures op in (w.lateRevokes + set r | r in w.runs && r.phase.Revoking? :: r.op) ==> RevokeInFlight(w, op)
  {
    forall r | r in w.runs && r.phase.Issuing?
      ensures r.issuer
    {
      assert RunInv(w, r);
    }
  }

  lemma StepKeeps(w: World, a: Action)
    requires Base(w) && Act(w, a).Some?
    ensures Base(Act(w, a).value)
    ensures Recoverable(w) && Safe(w, a) ==> Recoverable(Act(w, a).value)
  {
    hide Base, Recoverable, Safe, RunInv, CouldLive, MayBecome, Truthful, Failed, Stopped;
    match a
    case StartIssue(_) => StartKeeps(w, a);
    case StartRevoke => StartKeeps(w, a);
    case Serve(op, to) => ServeKeeps(w, op, to);
    case Writeback => WritebackKeeps(w);
    case PowerLoss(metadata) => PowerLossKeeps(w, metadata);
    case Publish(id) => PublishKeeps(w, id, a);
    case FlushDirectory(id) => PublishKeeps(w, id, a);
    case Unpublish(id) => TakeKeeps(w, id, a);
    case Remove(id, _) => TakeKeeps(w, id, a);
    case StatusAnswered(id, _) => StatusKeeps(w, id, a);
    case Stop(id) => StopKeeps(w, id);
    case ReadBack(id) => TalkKeeps(w, id, a);
    case SignFailed(id) => TalkKeeps(w, id, a);
    case SendIssue(id) => TalkKeeps(w, id, a);
    case IssueAnswered(id, _) => TalkKeeps(w, id, a);
    case RevokeSettled(id) => TalkKeeps(w, id, a);
    case WriteSecret(id, _, _) => TalkKeeps(w, id, a);
  }

  // ----- Once dead, dead for good -----

  /** The pair is not live and never will be. */
  predicate Buried(w: World, op: Operation) {
    op in w.used && !CouldLive(w, op) && (DeadRemote(RemoteOf(w, op)) || forall r | r in w.runs && r.op == op :: !Early(r))
  }

  lemma RunSteps(w: World, id: nat, a: Action)
    requires Base(w) && id < |w.runs| && ActOfRun(w, id, a).Some?
    ensures var w' := ActOfRun(w, id, a).value;
            id < |w'.runs| && RunStep(w, w', id, w'.runs[id]) && (Early(w'.runs[id]) ==> Early(w.runs[id])) &&
            (forall op | Confirms(w, id, w'.runs[id], op) :: w.runs[id].op == op && Early(w.runs[id]))
  {
    hide Truthful, IssuedPair, CouldLive, ProvesNoOperation, ProvesRevoked;
    assert RunInv(w, w.runs[id]);
  }

  lemma BuriedByRun(w: World, id: nat, a: Action, op: Operation)
    requires Base(w) && id < |w.runs| && ActOfRun(w, id, a).Some? && Buried(w, op)
    ensures Buried(ActOfRun(w, id, a).value, op)
  {
    hide ActOfRun, Base, Early;
    RunSteps(w, id, a);
    var w' := ActOfRun(w, id, a).value;
    FlightKept(w, w', id, w'.runs[id], op);
    assert w.runs[id] in w.runs;
    if !DeadRemote(RemoteOf(w, op)) {
      forall r | r in w'.runs && r.op == op
        ensures !Early(r)
      {
        var j :| 0 <= j < |w'.runs| && w'.runs[j] == r;
        if j != id {
          assert w.runs[j] in w.runs;
        }
      }
    }
  }

  lemma BuriedStays(w: World, a: Action, op: Operation)
    requires Base(w) && Act(w, a).Some? && Buried(w, op)
    ensures Buried(Act(w, a).value, op)
  {
    var w' := Act(w, a).value;
    match a
    case StartIssue(_) => NoNewFlight(w, w', op);
    case StartRevoke => NoNewFlight(w, w', op);
    case Serve(o, to) =>
      assert Pending(w', op) == Pending(w, op);
      assert CouldLive(w', op) ==> CouldLive(w, op);
    case Writeback => assert Pending(w', op) == Pending(w, op);
    case PowerLoss(metadata) => BuriedByPowerLoss(w, metadata, op);
    case _ => BuriedByRun(w, a.id, a, op);
  }

  lemma BuriedByPowerLoss(w: World, metadata: Option<Operation>, op: Operation)
    requires Base(w) && metadata in w.disk.platter && Buried(w, op)
    ensures Buried(Failed(w, metadata), op)
  {
    LateIssuers(w, op);
  }

  lemma NoNewFlight(w: World, w': World, op: Operation)
    requires Base(w) && Buried(w, op)
    requires w'.remotes == w.remotes && w'.late == w.late && w.used <= w'.used
    requires |w'.runs| == |w.runs| + 1 && w'.runs[..|w.runs|] == w.runs
    requires var r := w'.runs[|w.runs|]; !Bound(r) && (Early(r) ==> r.op !in w.used)
    ensures Buried(w', op)
  {
    forall r | r in w'.runs
      ensures r in w.runs || r == w'.runs[|w.runs|]
    {
      var j :| 0 <= j < |w'.runs| && w'.runs[j] == r;
      if j < |w.runs| {
        assert w.runs[j] == w'.runs[..|w.runs|][j];
      }
    }
    assert Pending(w', op) ==> Pending(w, op);
  }

  // ----- How often a run asks, and what it knows when it removes -----

  predicate Measured(r: Run) {
    match r.phase
    case Vacant | Linked | Synced => r.issues == 0 && r.revokes == 0
    case Signing => r.issuer && r.issues == 0 && r.revokes == 0
    case Issuing => r.issuer && r.issues == 1 && r.revokes == 0
    case Reconciling => r.issuer && r.issues <= 1 && r.revokes == 0
    case Holding(written) => r.issuer && r.issues == 1 && r.revokes == 0 && written < 2
    case Revoking(second) => r.issues <= 1 && r.revokes == if second then 2 else 1
    case Asking(second) => r.issues <= 1 && r.revokes == if second then 2 else 1
    case Removing(_) =>
      r.issues <= 1 && r.revokes <= 2 && r.status.Some? &&
      if r.revokes == 0 then r.issuer && ProvesNoOperation(r.status.value) else ProvesRevoked(r.status.value)
    case Done => r.issuer && r.issues == 1 && r.revokes == 0
    case Over => r.issues <= 1 && r.revokes <= 2
  }

  predicate Frugal(r: Run) {
    Measured(r) && (!r.issuer ==> r.issues == 0 && !Early(r))
  }

  lemma FrugalByRun(w: World, id: nat, a: Action)
    requires id < |w.runs| && ActOfRun(w, id, a).Some? && Frugal(w.runs[id])
    ensures var w' := ActOfRun(w, id, a).value; id < |w'.runs| && Frugal(w'.runs[id])
  {
    hide Truthful, IssuedPair, ProvesNoOperation, ProvesRevoked;
  }

  ghost predicate AllFrugal(w: World) {
    forall i | 0 <= i < |w.runs| :: Frugal(w.runs[i])
  }

  lemma FrugalKept(w: World, a: Action)
    requires Base(w) && Act(w, a).Some? && AllFrugal(w)
    ensures AllFrugal(Act(w, a).value)
  {
    hide Measured, Truthful, Base;
    if !(a.StartIssue? || a.StartRevoke? || a.Serve? || a.Writeback? || a.PowerLoss?) {
      FrugalByRun(w, a.id, a);
      RunSteps(w, a.id, a);
    } else if a.PowerLoss? {
      forall i | 0 <= i < |w.runs|
        ensures Frugal(AllOver(w.runs)[i])
      {
        Overs(w.runs[i]);
      }
    } else {
      StartsFrugal(w, a);
    }
  }

  lemma Overs(r: Run)
    requires Frugal(r)
    ensures Frugal(r.(phase := Over))
  {
  }

  lemma StartsFrugal(w: World, a: Action)
    requires AllFrugal(w) && Act(w, a).Some? && (a.StartIssue? || a.StartRevoke? || a.Serve? || a.Writeback?)
    ensures AllFrugal(Act(w, a).value)
  {
    hide MayBecome;
  }

  // ----- All histories -----

  ghost predicate History(ws: seq<World>, acts: seq<Action>) {
    |ws| == |acts| + 1 && ws[0] == START && forall i | 0 <= i < |acts| :: Act(ws[i], acts[i]) == Some(ws[i + 1])
  }

  lemma {:induction false} Kept(ws: seq<World>, acts: seq<Action>)
    requires History(ws, acts)
    ensures Base(ws[|acts|]) && AllFrugal(ws[|acts|])
    decreases |acts|
  {
    if |acts| == 0 {
      assert forall op :: !CouldLive(START, op);
    } else {
      hide Base, AllFrugal, Act;
      var m := |acts| - 1;
      Kept(ws[..|ws| - 1], acts[..m]);
      assert Act(ws[m], acts[m]) == Some(ws[m + 1]);
      StepKeeps(ws[m], acts[m]);
      FrugalKept(ws[m], acts[m]);
    }
  }

  lemma KeptAt(ws: seq<World>, acts: seq<Action>, i: nat)
    requires History(ws, acts) && i <= |acts|
    ensures Base(ws[i]) && AllFrugal(ws[i])
  {
    hide Base, AllFrugal, Act;
    Kept(ws[..i + 1], acts[..i]);
  }

  /** A taken entry that could be live leaves its pair without metadata. */
  lemma UnsafeLoses(w: World, a: Action)
    requires Base(w) && Act(w, a).Some? && !Safe(w, a)
    ensures !Recoverable(Act(w, a).value)
  {
    var op := w.disk.metadata.value;
    var w' := Act(w, a).value;
    if Pending(w, op) && op !in w.late {
      var r :| r in w.runs && r.op == op && Bound(r);
      var j :| 0 <= j < |w.runs| && w.runs[j] == r;
      assert w'.runs[j] in w'.runs;
    }
    assert CouldLive(w', op) && !Durable(w', op);
  }

  lemma StepIsExact(w: World, a: Action)
    requires Base(w) && Act(w, a).Some? && Recoverable(w)
    ensures Recoverable(Act(w, a).value) <==> Safe(w, a)
  {
    hide Base, Act, Safe, Recoverable;
    StepKeeps(w, a);
    if !Safe(w, a) {
      UnsafeLoses(w, a);
    }
  }

  /** Exactly when every pair that is or may become live has its metadata durably
      on disk, in every state of a history: when no step removes the metadata of
      such a pair. */
  lemma {:induction false} RecoverableThroughout(ws: seq<World>, acts: seq<Action>)
    requires History(ws, acts)
    ensures (forall i | 0 <= i <= |acts| :: Recoverable(ws[i])) <==> (forall i | 0 <= i < |acts| :: Safe(ws[i], acts[i]))
    decreases |acts|
  {
    hide Base, AllFrugal, Act, Safe, Recoverable;
    if |acts| == 0 {
      StartRecoverable();
    } else {
      var m := |acts| - 1;
      var vs, bs := ws[..|ws| - 1], acts[..m];
      RecoverableThroughout(vs, bs);
      assert forall i | 0 <= i <= m :: vs[i] == ws[i];
      assert forall i | 0 <= i < m :: bs[i] == acts[i];
      KeptAt(ws, acts, m);
      assert Act(ws[m], acts[m]) == Some(ws[m + 1]);
      if Recoverable(ws[m]) {
        StepIsExact(ws[m], acts[m]);
      }
    }
  }

  lemma StartRecoverable()
    ensures Recoverable(START)
  {
  }

  // ----- One run at a time -----

  predicate Finished(r: Run) {
    r.phase.Over? || r.phase.Done?
  }

  /** A run starts only when every earlier one is finished or dead. */
  predicate Alone(w: World, a: Action) {
    a.StartIssue? || a.StartRevoke? ==> forall r | r in w.runs :: Finished(r)
  }

  /** What the one active run knows of the disk. */
  predicate Undisturbed(d: Disk, r: Run) {
    match r.phase
    case Vacant => d.metadata.None? && d.writer.None? && d.evidence.None?
    case Linked | Synced | Signing | Issuing => d.metadata == Some(r.op) && d.writer.None? && d.evidence.None?
    case Holding(written) =>
      d.metadata == Some(r.op) && d.evidence.None? && d.writer == if written == 0 then None else Some(r.op)
    case Reconciling | Revoking(_) | Asking(_) | Removing(_) => d.metadata == Some(r.op)
    case Done | Over => true
  }

  predicate Solo(w: World) {
    && (forall i, j | 0 <= i < |w.runs| && 0 <= j < |w.runs| && i != j :: Finished(w.runs[i]) || Finished(w.runs[j]))
    && (forall r | r in w.runs :: Undisturbed(w.disk, r))
  }

  lemma SoloRun(w: World, id: nat, a: Action)
    requires Solo(w) && AllFrugal(w) && id < |w.runs| && ActOfRun(w, id, a).Some?
    ensures Solo(ActOfRun(w, id, a).value)
  {
    hide Truthful, IssuedPair, ProvesNoOperation, ProvesRevoked;
    var w' := ActOfRun(w, id, a).value;
    assert w.runs[id] in w.runs;
    assert Measured(w.runs[id]);
    SoloRunDisk(w, id, a);
    forall j | 0 <= j < |w.runs| && j != id
      ensures w'.runs[j] == w.runs[j] && (a.Stop? || Finished(w.runs[id]) || Finished(w.runs[j]))
    {
    }
    forall r | r in w'.runs
      ensures Undisturbed(w'.disk, r)
    {
      var j :| 0 <= j < |w'.runs| && w'.runs[j] == r;
      if j != id {
        assert w.runs[j] in w.runs;
      }
    }
  }

  lemma SoloRunDisk(w: World, id: nat, a: Action)
    requires id < |w.runs| && Undisturbed(w.disk, w.runs[id]) && Frugal(w.runs[id]) && ActOfRun(w, id, a).Some?
    ensures var w' := ActOfRun(w, id, a).value;
            |w'.runs| == |w.runs| && Undisturbed(w'.disk, w'.runs[id]) &&
            (Finished(w.runs[id]) ==> w'.disk == w.disk && Finished(w'.runs[id])) &&
            (a.Stop? ==> w'.disk == w.disk && Finished(w'.runs[id]))
  {
    hide Truthful, IssuedPair, ProvesNoOperation, ProvesRevoked;
  }

  lemma SoloKept(w: World, a: Action)
    requires Solo(w) && AllFrugal(w) && Act(w, a).Some? && Alone(w, a)
    ensures Solo(Act(w, a).value)
  {
    hide MayBecome, Truthful;
    if a.StartIssue? || a.StartRevoke? {
      var w' := Act(w, a).value;
      forall r | r in w'.runs
        ensures Undisturbed(w'.disk, r)
      {
        if r in w.runs {
          assert Finished(r);
        }
      }
    } else if a.PowerLoss? {
    } else if !(a.Serve? || a.Writeback?) {
      SoloRun(w, a.id, a);
    }
  }

  lemma {:induction false} SoloThroughout(ws: seq<World>, acts: seq<Action>)
    requires History(ws, acts) && forall i | 0 <= i < |acts| :: Alone(ws[i], acts[i])
    ensures Solo(ws[|acts|])
    decreases |acts|
  {
    if |acts| > 0 {
      hide Base, AllFrugal, Act, Solo;
      var m := |acts| - 1;
      SoloThroughout(ws[..|ws| - 1], acts[..m]);
      KeptAt(ws, acts, m);
      assert Act(ws[m], acts[m]) == Some(ws[m + 1]);
      SoloKept(ws[m], acts[m]);
    }
  }

  lemma OwnIsSafe(w: World, a: Action)
    requires Base(w) && (TakesMetadata(w, a) && w.disk.metadata.Some? ==> w.disk.metadata.value == w.runs[a.id].op)
    ensures Safe(w, a)
  {
    hide Truthful, ProvesNoOperation, ProvesRevoked;
    if TakesMetadata(w, a) && w.disk.metadata.Some? {
      assert RunInv(w, w.runs[a.id]);
      NotLive(w, w.runs[a.id]);
    }
  }

  /** A run that is alone only removes its own metadata. */
  lemma SoloTakesOwn(w: World, a: Action)
    requires Solo(w) && TakesMetadata(w, a)
    ensures w.disk.metadata == Some(w.runs[a.id].op)
  {
    assert w.runs[a.id] in w.runs;
    assert Undisturbed(w.disk, w.runs[a.id]);
  }

  // ----- The main results -----

  /** While runs on one directory never overlap, every pair that is live or may
      become live has its metadata durably on disk; so there is at most one, and
      even after a power failure a revoke run finds exactly that operation. */
  lemma LivePairsAreRecoverable(ws: seq<World>, acts: seq<Action>, op: Operation, left: Option<Operation>)
    requires History(ws, acts) && forall i | 0 <= i < |acts| :: Alone(ws[i], acts[i])
    requires CouldLive(ws[|acts|], op) && left in ws[|acts|].disk.platter
    ensures Durable(ws[|acts|], op)
    ensures forall op' | CouldLive(ws[|acts|], op') :: op' == op
    ensures var failed := Act(ws[|acts|], PowerLoss(left));
            failed.Some? && var restarted := Act(failed.value, StartRevoke);
            restarted.Some? && restarted.value.runs[|ws[|acts|].runs|] == Run(false, op, Phase.Revoking(false), 0, 1, None)
  {
    forall i | 0 <= i < |acts|
      ensures Safe(ws[i], acts[i])
    {
      hide Base, Act, AllFrugal, Solo, Safe, TakesMetadata;
      KeptAt(ws, acts, i);
      SoloThroughout(ws[..i + 1], acts[..i]);
      if TakesMetadata(ws[i], acts[i]) {
        SoloTakesOwn(ws[i], acts[i]);
      }
      OwnIsSafe(ws[i], acts[i]);
    }
    RecoverableThroughout(ws, acts);
    assert Recoverable(ws[|acts|]);
  }

  predicate Lost(before: Disk, after: Disk) {
    || (before.writer.Some? && after.writer.None?)
    || (before.evidence.Some? && after.evidence.None?)
    || (before.metadata.Some? && after.metadata.None?)
  }

  /** In every history, overlapping runs included, a file is only removed by a run
      that has not yet sent anything and withdraws its own publication, or by one
      whose signed status showed no operation or a terminal revoke; and then the
      pair of that run is dead from that step on. */
  lemma FilesGoAfterProof(ws: seq<World>, acts: seq<Action>, i: nat, j: nat)
    requires History(ws, acts) && i < j <= |acts| && !acts[i].PowerLoss? && Lost(ws[i].disk, ws[i + 1].disk)
    ensures (acts[i].Unpublish? || acts[i].Remove?) && acts[i].id < |ws[i].runs|
    ensures var r := ws[i].runs[acts[i].id];
            if acts[i].Unpublish? then r.issues == 0 && r.revokes == 0
            else r.status.Some? && (ProvesNoOperation(r.status.value) || ProvesRevoked(r.status.value)) &&
                 !CouldLive(ws[j], r.op)
  {
    KeptAt(ws, acts, i);
    Removers(ws[i], acts[i], ws[i + 1]);
    var r := ws[i].runs[acts[i].id];
    if acts[i].Remove? {
      RemoverBuried(ws[i], acts[i].id);
      BuriedThroughout(ws, acts, i, j, r.op);
    }
  }

  lemma Removers(w: World, a: Action, w': World)
    requires AllFrugal(w) && Act(w, a) == Some(w') && !a.PowerLoss? && Lost(w.disk, w'.disk)
    ensures (a.Unpublish? || a.Remove?) && a.id < |w.runs|
    ensures var r := w.runs[a.id];
            if a.Unpublish? then r.issues == 0 && r.revokes == 0
            else r.phase.Removing? && r.status.Some? && (ProvesNoOperation(r.status.value) || ProvesRevoked(r.status.value))
  {
    hide Truthful, ProvesNoOperation, ProvesRevoked, MayBecome;
    if a.Unpublish? || a.Remove? {
      assert Measured(w.runs[a.id]);
    }
  }

  lemma RemoverBuried(w: World, id: nat)
    requires Base(w) && id < |w.runs| && w.runs[id].phase.Removing?
    ensures Buried(w, w.runs[id].op)
  {
    var r := w.runs[id];
    assert RunInv(w, r);
    NotLive(w, r);
    if !DeadRemote(RemoteOf(w, r.op)) {
      forall q | q in w.runs && q.op == r.op
        ensures !Early(q)
      {
        assert RunInv(w, q);
      }
    }
  }

  lemma {:induction false} BuriedThroughout(ws: seq<World>, acts: seq<Action>, i: nat, j: nat, op: Operation)
    requires History(ws, acts) && i <= j <= |acts| && Buried(ws[i], op)
    ensures Buried(ws[j], op)
    decreases j - i
  {
    if i < j {
      hide Buried, Base, Act, AllFrugal;
      KeptAt(ws, acts, i);
      assert Act(ws[i], acts[i]) == Some(ws[i + 1]);
      BuriedStays(ws[i], acts[i], op);
      BuriedThroughout(ws, acts, i + 1, j, op);
    }
  }

  /** In every history a run asks for at most one pair and a revoke run for none;
      it sends at most two revokes, the second only when the authority has told
      that this operation is already being revoked. */
  lemma RequestsAreFew(ws: seq<World>, acts: seq<Action>, id: nat)
    requires History(ws, acts) && id < |ws[|acts|].runs|
    ensures var r := ws[|acts|].runs[id];
            r.issues <= 1 && r.revokes <= 2 && (!r.issuer ==> r.issues == 0)
    ensures |acts| > 0 && ws[|acts|].runs[id].revokes == 2 && id < |ws[|acts| - 1].runs| &&
            ws[|acts| - 1].runs[id].revokes < 2 ==>
              var a := acts[|acts| - 1];
              a.StatusAnswered? && a.id == id && a.status.Some? && a.status.value.state == PairState.Revoking &&
              RemoteOf(ws[|acts| - 1], ws[|acts|].runs[id].op).Fenced?
  {
    hide Base, Act, Truthful, ProvesNoOperation, ProvesRevoked;
    Kept(ws, acts);
    assert Frugal(ws[|acts|].runs[id]);
    if |acts| > 0 && id < |ws[|acts| - 1].runs| && ws[|acts| - 1].runs[id].revokes < 2 == ws[|acts|].runs[id].revokes {
      var m := |acts| - 1;
      KeptAt(ws, acts, m);
      SecondRevoke(ws[m], acts[m], ws[m + 1], id);
    }
  }

  lemma SecondRevoke(w: World, a: Action, w': World, id: nat)
    requires AllFrugal(w) && Act(w, a) == Some(w') && id < |w.runs| && id < |w'.runs|
    requires w.runs[id].revokes < 2 == w'.runs[id].revokes
    ensures a.StatusAnswered? && a.id == id && a.status.Some? && a.status.value.state == PairState.Revoking
    ensures RemoteOf(w, w'.runs[id].op).Fenced?
  {
    hide ProvesNoOperation, ProvesRevoked, MayBecome, IssuedPair, Consistent;
    assert Frugal(w.runs[id]);
  }

  // ----- What a pair is handed over with -----

  /** The phases that lead to a hand-over. */
  predicate Straight(p: Phase) {
    p.Vacant? || p.Linked? || p.Synced? || p.Signing? || p.Issuing? || p.Holding? || p.Done?
  }

  predicate SecretTaken(before: Disk, after: Disk, op: Operation) {
    before.writer == Some(op) && after.writer != Some(op)
  }

  predicate MetadataTaken(before: Disk, after: Disk, op: Operation) {
    before.metadata == Some(op) && after.metadata != Some(op)
  }

  /** What a run has written is there unless it was taken. */
  predicate Tracks(d: Disk, r: Run, secretTaken: bool, metadataTaken: bool) {
    && (r.phase.Vacant? ==> d.metadata != Some(r.op) && !metadataTaken)
    && (!r.phase.Vacant? ==> (d.metadata == Some(r.op) <==> !metadataTaken))
    && if r.phase == Holding(1) || r.phase.Done? then d.writer == Some(r.op) <==> !secretTaken
       else d.writer != Some(r.op) && !secretTaken
  }

  lemma OwnTrack(w: World, id: nat, a: Action, secret: bool, metadata: bool)
    requires id < |w.runs| && ActOfRun(w, id, a).Some? && Frugal(w.runs[id]) && w.runs[id].issuer
    requires Straight(w.runs[id].phase) ==> Tracks(w.disk, w.runs[id], secret, metadata)
    ensures var w' := ActOfRun(w, id, a).value;
            var op := w.runs[id].op;
            |w'.runs| == |w.runs| && w'.runs[id].op == op && w'.runs[id].issuer &&
            (Straight(w'.runs[id].phase) ==>
               Tracks(w'.disk, w'.runs[id], secret || SecretTaken(w.disk, w'.disk, op),
                      metadata || MetadataTaken(w.disk, w'.disk, op)))
  {
    hide Truthful, IssuedPair, ProvesNoOperation, ProvesRevoked;
  }

  lemma OtherTrack(w: World, id: nat, a: Action, r: Run, secret: bool, metadata: bool)
    requires id < |w.runs| && ActOfRun(w, id, a).Some? && Frugal(w.runs[id])
    requires w.runs[id].issuer ==> w.runs[id].op != r.op
    requires Tracks(w.disk, r, secret, metadata)
    ensures var w' := ActOfRun(w, id, a).value;
            |w'.runs| == |w.runs| && (forall j | 0 <= j < |w.runs| && j != id :: w'.runs[j] == w.runs[j]) &&
            Tracks(w'.disk, r, secret || SecretTaken(w.disk, w'.disk, r.op), metadata || MetadataTaken(w.disk, w'.disk, r.op))
  {
    hide Truthful, IssuedPair, ProvesNoOperation, ProvesRevoked;
  }

  lemma OtherStays(w: World, id: nat, a: Action, j: nat)
    requires id < |w.runs| && ActOfRun(w, id, a).Some? && j < |w.runs| && j != id
    ensures var w' := ActOfRun(w, id, a).value; |w'.runs| == |w.runs| && w'.runs[j] == w.runs[j]
  {
    hide Truthful, IssuedPair, ProvesNoOperation, ProvesRevoked;
  }

  /** One step, for a run that is there before and after it. */
  lemma TrackStep(w: World, a: Action, w': World, id: nat, secret: bool, metadata: bool)
    requires Base(w) && AllFrugal(w) && Act(w, a) == Some(w') && id < |w.runs| && w.runs[id].issuer
    requires Straight(w.runs[id].phase) ==> Tracks(w.disk, w.runs[id], secret, metadata)
    ensures var op := w.runs[id].op;
            id < |w'.runs| && w'.runs[id].op == op && w'.runs[id].issuer &&
            (Straight(w'.runs[id].phase) ==>
               Tracks(w'.disk, w'.runs[id], secret || SecretTaken(w.disk, w'.disk, op),
                      metadata || MetadataTaken(w.disk, w'.disk, op)))
  {
    hide ActOfRun, MayBecome, Tracks, Frugal;
    if a.StartIssue? || a.StartRevoke? || a.Serve? || a.Writeback? {
      SameTrack(w.disk, w'.disk, w.runs[id], secret, metadata);
    } else if a.PowerLoss? {
    } else if a.id == id {
      OwnTrack(w, id, a, secret, metadata);
    } else {
      OtherStays(w, a.id, a, id);
      if Straight(w.runs[id].phase) {
        OtherTrack(w, a.id, a, w.runs[id], secret, metadata);
      }
    }
  }

  lemma SameTrack(d: Disk, d': Disk, r: Run, secret: bool, metadata: bool)
    requires d'.writer == d.writer && d'.metadata == d.metadata
    ensures Tracks(d, r, secret, metadata) ==>
              Tracks(d', r, secret || SecretTaken(d, d', r.op), metadata || MetadataTaken(d, d', r.op))
  {
  }

  /** A step since the run began, before state `m`, took the secret of its operation. */
  ghost predicate LostSecret(ws: seq<World>, id: nat, op: Operation, m: nat)
    requires m < |ws|
  {
    exists i | 0 <= i < m && id < |ws[i].runs| :: SecretTaken(ws[i].disk, ws[i + 1].disk, op)
  }

  ghost predicate LostMetadata(ws: seq<World>, id: nat, op: Operation, m: nat)
    requires m < |ws|
  {
    exists i | 0 <= i < m && id < |ws[i].runs| :: MetadataTaken(ws[i].disk, ws[i + 1].disk, op)
  }

  lemma {:induction false} Tracked(ws: seq<World>, acts: seq<Action>, id: nat, m: nat)
    requires History(ws, acts) && m <= |acts| && id < |ws[m].runs| && ws[m].runs[id].issuer
    ensures var r := ws[m].runs[id];
            Straight(r.phase) ==> Tracks(ws[m].disk, r, LostSecret(ws, id, r.op, m), LostMetadata(ws, id, r.op, m))
    decreases m
  {
    hide Base, AllFrugal, Act, Tracks;
    assert m > 0;
    assert Act(ws[m - 1], acts[m - 1]) == Some(ws[m]);
    KeptAt(ws, acts, m - 1);
    if id < |ws[m - 1].runs| {
      SameIssuers(ws[m - 1], acts[m - 1], ws[m], id);
      Tracked(ws, acts, id, m - 1);
      var op := ws[m - 1].runs[id].op;
      TrackStep(ws[m - 1], acts[m - 1], ws[m], id, LostSecret(ws, id, op, m - 1), LostMetadata(ws, id, op, m - 1));
      LostLater(ws, id, op, m - 1);
    } else {
      Begun(ws[m - 1], acts[m - 1], ws[m], id);
      NotYet(ws, acts, id, m - 1);
    }
  }

  lemma LostLater(ws: seq<World>, id: nat, op: Operation, m: nat)
    requires m + 1 < |ws| && id < |ws[m].runs|
    ensures LostSecret(ws, id, op, m + 1) <==> LostSecret(ws, id, op, m) || SecretTaken(ws[m].disk, ws[m + 1].disk, op)
    ensures LostMetadata(ws, id, op, m + 1) <==> LostMetadata(ws, id, op, m) || MetadataTaken(ws[m].disk, ws[m + 1].disk, op)
  {
  }

  /** Runs are never forgotten and never change sides. */
  lemma SameIssuers(w: World, a: Action, w': World, id: nat)
    requires Base(w) && Act(w, a) == Some(w') && id < |w.runs|
    ensures id < |w'.runs| && w'.runs[id].issuer == w.runs[id].issuer
  {
    hide ActOfRun, MayBecome, Base;
    if !(a.StartIssue? || a.StartRevoke? || a.Serve? || a.Writeback? || a.PowerLoss?) {
      RunSteps(w, a.id, a);
    }
  }

  /** A run begins with nothing of its own on disk. */
  lemma Begun(w: World, a: Action, w': World, id: nat)
    requires Base(w) && Act(w, a) == Some(w') && |w.runs| <= id < |w'.runs| && w'.runs[id].issuer
    ensures Tracks(w'.disk, w'.runs[id], false, false)
  {
    hide ActOfRun, MayBecome, Base;
    if !(a.StartIssue? || a.StartRevoke? || a.Serve? || a.Writeback? || a.PowerLoss?) {
      RunSteps(w, a.id, a);
    }
  }

  lemma {:induction false} NotYet(ws: seq<World>, acts: seq<Action>, id: nat, m: nat)
    requires History(ws, acts) && m <= |acts| && |ws[m].runs| <= id
    ensures forall i | 0 <= i <= m :: |ws[i].runs| <= id
    decreases m
  {
    hide Base, AllFrugal, Act;
    if m > 0 {
      assert Act(ws[m - 1], acts[m - 1]) == Some(ws[m]);
      KeptAt(ws, acts, m - 1);
      if id < |ws[m - 1].runs| {
        SameIssuers(ws[m - 1], acts[m - 1], ws[m], id);
      }
      NotYet(ws, acts, id, m - 1);
    }
  }

  /** In every history a run that hands a pair over leaves its own second secret and
      a flushed directory; its first secret and its metadata are there exactly
      when no step has taken them from the disk since it began. */
  lemma HandedOverExactly(ws: seq<World>, acts: seq<Action>, id: nat)
    requires History(ws, acts) && |acts| > 0 && id < |ws[|acts| - 1].runs| && id < |ws[|acts|].runs|
    requires ws[|acts|].runs[id].phase.Done? && !ws[|acts| - 1].runs[id].phase.Done?
    ensures var d := ws[|acts|].disk;
            var op := ws[|acts|].runs[id].op;
            d.evidence == Some(op) && d.platter == {d.metadata} &&
            (d.writer == Some(op) <==> !LostSecret(ws, id, op, |acts|)) &&
            (d.metadata == Some(op) <==> !LostMetadata(ws, id, op, |acts|))
  {
    hide Base, AllFrugal, Act;
    var m := |acts| - 1;
    KeptAt(ws, acts, m);
    KeptAt(ws, acts, m + 1);
    assert Act(ws[m], acts[m]) == Some(ws[m + 1]);
    HandOver(ws[m], acts[m], ws[m + 1], id);
    Tracked(ws, acts, id, m + 1);
  }

  /** While runs on one directory never overlap, all three files are there. */
  lemma HandedOverComplete(ws: seq<World>, acts: seq<Action>, id: nat)
    requires History(ws, acts) && forall i | 0 <= i < |acts| :: Alone(ws[i], acts[i])
    requires |acts| > 0 && id < |ws[|acts| - 1].runs| && id < |ws[|acts|].runs|
    requires ws[|acts|].runs[id].phase.Done? && !ws[|acts| - 1].runs[id].phase.Done?
    ensures var d := ws[|acts|].disk;
            var op := ws[|acts|].runs[id].op;
            d.writer == Some(op) && d.evidence == Some(op) && d.metadata == Some(op) && d.platter == {Some(op)}
  {
    hide Act, Solo;
    var m := |acts| - 1;
    SoloThroughout(ws[..m + 1], acts[..m]);
    assert Act(ws[m], acts[m]) == Some(ws[m + 1]);
    KeptAt(ws, acts, m);
    HandOver(ws[m], acts[m], ws[m + 1], id);
    SoloHandOver(ws[m], id);
  }

  lemma HandOver(w: World, a: Action, w': World, id: nat)
    requires AllFrugal(w) && Act(w, a) == Some(w') && id < |w.runs| && id < |w'.runs|
    requires w'.runs[id].phase.Done? && !w.runs[id].phase.Done?
    ensures a.WriteSecret? && a.id == id && w.runs[id].phase == Holding(1) && w'.runs[id].issuer
    ensures w'.runs[id].op == w.runs[id].op && w'.disk.evidence == Some(w.runs[id].op)
    ensures w'.disk == w.disk.(evidence := w'.disk.evidence, platter := {w.disk.metadata})
  {
    hide Truthful, ProvesNoOperation, ProvesRevoked, MayBecome, IssuedPair;
    assert a.WriteSecret? && a.id == id;
    assert Frugal(w.runs[id]);
  }

  lemma SoloHandOver(w: World, id: nat)
    requires Solo(w) && id < |w.runs| && w.runs[id].phase == Holding(1)
    ensures w.disk.writer == Some(w.runs[id].op) && w.disk.metadata == Some(w.runs[id].op)
  {
    assert Undisturbed(w.disk, w.runs[id]);
  }

  // ----- Two runs at a time -----

  predicate SameWorld(v: World, w: World) {
    && v.remotes == w.remotes && v.runs == w.runs && v.used == w.used && v.late == w.late
    && v.lateRevokes == w.lateRevokes && v.readings == w.readings && v.disk.writer == w.disk.writer && v.disk.evidence == w.disk.evidence
    && v.disk.metadata == w.disk.metadata && v.disk.platter == w.disk.platter
  }

  /** One more step of a history. */
  lemma Then(ws: seq<World>, acts: seq<Action>, a: Action, w: World) returns (ws': seq<World>, acts': seq<Action>)
    requires History(ws, acts) && Act(ws[|acts|], a).Some? && SameWorld(Act(ws[|acts|], a).value, w)
    ensures History(ws', acts') && ws'[|acts'|] == w && acts' == acts + [a] && ws' == ws + [w]
  {
    hide Act;
    ws', acts' := ws + [w], acts + [a];
  }

  const NO_ROLE := RoleStatus(false, false, false, None)
  const NOTHING := PairStatus(Unregistered, None, Absent, false, false, false, NO_ROLE, NO_ROLE)
  const TOMBSTONE := PairStatus(Revoked, Some(1), Absent, true, false, true, NO_ROLE, NO_ROLE)
  const PUBLISHED := Disk(None, None, Some(0), {Some(0)})

  function Issuer(op: Operation, phase: Phase, issues: nat): Run {
    Run(true, op, phase, issues, 0, None)
  }

  /** An issue run that lost its answer. */
  const LOST := World(map[], PUBLISHED, [Issuer(0, Reconciling, 1)], {0}, {}, {}, {})

  lemma AnswerLost() returns (ws: seq<World>, acts: seq<Action>)
    ensures History(ws, acts) && ws[|acts|] == LOST
  {
    var started := START.(runs := [Issuer(0, Vacant, 0)], used := {0});
    var linked := started.(runs := [Issuer(0, Linked, 0)], disk := Disk(None, None, Some(0), {None, Some(0)}));
    var synced := started.(runs := [Issuer(0, Synced, 0)], disk := PUBLISHED);
    var confirmed := synced.(runs := [Issuer(0, Signing, 0)]);
    var sent := synced.(runs := [Issuer(0, Phase.Issuing, 1)]);
    ws, acts := Then([START], [], StartIssue(0), started);
    ws, acts := Then(ws, acts, Publish(0), linked);
    ws, acts := Then(ws, acts, FlushDirectory(0), synced);
    ws, acts := Then(ws, acts, ReadBack(0), confirmed);
    ws, acts := Then(ws, acts, SendIssue(0), sent);
    ws, acts := Then(ws, acts, IssueAnswered(0, None), LOST);
  }

  const CLEARED := Run(true, 0, Removing(0), 1, 0, Some(NOTHING))
  const REVOKED := Run(false, 0, Removing(0), 0, 1, Some(TOMBSTONE))

  const READ_FIRST := {Reading(0, NOTHING, true)}
  const READ := READ_FIRST + {Reading(0, TOMBSTONE, true)}

  /** A second run revokes the same operation meanwhile: both prove its absence. */
  const BOTH := World(map[0 := Fenced(false, false)], PUBLISHED, [CLEARED, REVOKED], {0}, {}, {}, READ)

  const ASKING := Run(false, 0, Phase.Revoking(false), 0, 1, None)
  const FIRST_CLEARED := LOST.(runs := [CLEARED, ASKING], readings := READ_FIRST)

  lemma FirstRemoving() returns (ws: seq<World>, acts: seq<Action>)
    ensures History(ws, acts) && ws[|acts|] == FIRST_CLEARED
  {
    ws, acts := AnswerLost();
    var started := LOST.(runs := [Issuer(0, Reconciling, 1), ASKING]);
    ws, acts := Then(ws, acts, StartRevoke, started);
    assert started.runs[0] in started.runs && EndedRun(started.runs[0], 0);
    ws, acts := Then(ws, acts, StatusAnswered(0, Some(NOTHING)), FIRST_CLEARED);
  }

  lemma BothRemoving() returns (ws: seq<World>, acts: seq<Action>)
    ensures History(ws, acts) && ws[|acts|] == BOTH
  {
    ws, acts := FirstRemoving();
    var fenced := FIRST_CLEARED.(remotes := map[0 := Fenced(false, false)]);
    var settled := fenced.(runs := [CLEARED, ASKING.(phase := Asking(false))]);
    assert ASKING in FIRST_CLEARED.runs;
    ws, acts := Then(ws, acts, Serve(0, Fenced(false, false)), fenced);
    ws, acts := Then(ws, acts, RevokeSettled(1), settled);
    assert settled.runs[0] in settled.runs && EndedRun(settled.runs[0], 0);
    ws, acts := Then(ws, acts, StatusAnswered(1, Some(TOMBSTONE)), BOTH);
  }

  const LOSER := Issuer(1, Signing, 0)

  /** The second run has removed the files, and a third one has published the
      metadata of another pair and read it back. */
  const CONFIRMED := World(
    map[0 := Fenced(false, false)], Disk(None, None, Some(1), {Some(1)}),
    [CLEARED.(phase := Removing(2)), REVOKED.(phase := Over), LOSER], {0, 1}, {}, {}, READ)

  const REMOVED := World(
    map[0 := Fenced(false, false)], Disk(None, None, None, {Some(0), None}),
    [CLEARED.(phase := Removing(2)), REVOKED.(phase := Over)], {0}, {}, {}, READ)

  lemma FilesRemoved() returns (ws: seq<World>, acts: seq<Action>)
    ensures History(ws, acts) && ws[|acts|] == REMOVED
  {
    ws, acts := BothRemoving();
    var first := CLEARED.(phase := Removing(2));
    ws, acts := Then(ws, acts, Remove(0, true), BOTH.(runs := [CLEARED.(phase := Removing(1)), REVOKED]));
    ws, acts := Then(ws, acts, Remove(0, true), BOTH.(runs := [first, REVOKED]));
    ws, acts := Then(ws, acts, Remove(1, true), BOTH.(runs := [first, REVOKED.(phase := Removing(1))]));
    ws, acts := Then(ws, acts, Remove(1, true), BOTH.(runs := [first, REVOKED.(phase := Removing(2))]));
    ws, acts := Then(ws, acts, Remove(1, true), REMOVED);
  }

  lemma NextConfirmed() returns (ws: seq<World>, acts: seq<Action>)
    ensures History(ws, acts) && ws[|acts|] == CONFIRMED
  {
    ws, acts := FilesRemoved();
    var started := REMOVED.(runs := REMOVED.runs + [Issuer(1, Vacant, 0)], used := {0, 1});
    var linked := started.(runs := REMOVED.runs + [Issuer(1, Linked, 0)],
                           disk := Disk(None, None, Some(1), {Some(0), None, Some(1)}));
    var synced := started.(runs := REMOVED.runs + [Issuer(1, Synced, 0)], disk := CONFIRMED.disk);
    ws, acts := Then(ws, acts, StartIssue(1), started);
    ws, acts := Then(ws, acts, Publish(2), linked);
    ws, acts := Then(ws, acts, FlushDirectory(2), synced);
    ws, acts := Then(ws, acts, ReadBack(2), CONFIRMED);
  }

  /** Overlapping runs can lose a live pair: the removal goes by path, so the first
      run takes the metadata the third has published since, after its pair went
      live or before its request was even sent. */
  lemma OverlapLosesMetadata(sent: bool) returns (ws: seq<World>, acts: seq<Action>, op: Operation, i: nat)
    ensures History(ws, acts) && Live(RemoteOf(ws[|acts|], op)) && ws[|acts|].disk.metadata.None?
    ensures i < |acts| && TakesMetadata(ws[i], acts[i]) && ws[i].disk.metadata == Some(op)
    ensures if sent then Live(RemoteOf(ws[i], op)) else RemoteOf(ws[i], op).Fresh? && !IssueInFlight(ws[i], op)
  {
    ws, acts := NextConfirmed();
    op := 1;
    var issuing := CONFIRMED.(runs := CONFIRMED.runs[2 := Issuer(1, Phase.Issuing, 1)]);
    var open := issuing.(remotes := map[0 := Fenced(false, false), 1 := Open(true, true)]);
    var gone, over := WithMetadata(CONFIRMED.disk, None), CLEARED.(phase := Over);
    if sent {
      ws, acts := Then(ws, acts, SendIssue(2), issuing);
      assert issuing.runs[2] in issuing.runs;
      ws, acts := Then(ws, acts, Serve(1, Open(true, true)), open);
      i := |acts|;
      ws, acts := Then(ws, acts, Remove(0, true), open.(runs := open.runs[0 := over], disk := gone));
    } else {
      i := |acts|;
      ws, acts := Then(ws, acts, Remove(0, true), CONFIRMED.(runs := CONFIRMED.runs[0 := over], disk := gone));
      var sending := issuing.(runs := issuing.runs[0 := over], disk := gone);
      ws, acts := Then(ws, acts, SendIssue(2), sending);
      assert sending.runs[2] in sending.runs;
      ws, acts := Then(ws, acts, Serve(1, Open(true, true)), open.(runs := open.runs[0 := over], disk := gone));
    }
  }
}
