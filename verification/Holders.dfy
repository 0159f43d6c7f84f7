/** The scan for processes that keep a data root open, over a process table that
    changes while it is read. */
module Holders {
  import opened Values
  import Text

  /** One look at a process: its descriptor table (a target is unknown when its
      link vanished), or why there is none. */
  datatype Look =
    | Vanished
    | Table(targets: seq<Option<string>>)
    | Denied(owner: Option<nat>, exited: bool)

  datatype Verdict = Clear | Unreadable | Holds(path: string)

  datatype Input = Input(dataRoot: string, files: seq<string>, selfPid: nat, selfUid: Option<nat>)

  const DELETED := " (deleted)"

  function WithoutDeleted(target: string): string {
    var cut := |target| - |DELETED|;
    if cut >= 0 && target[cut..] == DELETED then target[..cut] else target
  }

  function Prefix(dataRoot: string): string {
    if dataRoot != "" && dataRoot[|dataRoot| - 1] == '/' then dataRoot else dataRoot + "/"
  }

  predicate Matches(input: Input, path: string) {
    path == input.dataRoot || Prefix(input.dataRoot) <= path || path in input.files
  }

  predicate Open(input: Input, target: Option<string>) {
    target.Some? && Matches(input, WithoutDeleted(target.value))
  }

  /** What a look says, whichever descriptor said it first. */
  predicate Says(input: Input, look: Look, v: Verdict) {
    match look
    case Vanished => v == Clear
    case Denied(owner, exited) =>
      v == if owner.Some? && owner == input.selfUid && !exited then Unreadable else Clear
    case Table(targets) =>
      if exists t | t in targets :: Open(input, t)
      then v.Holds? && exists k | 0 <= k < |targets| ::
             Open(input, targets[k]) && v.path == WithoutDeleted(targets[k].value) &&
             forall j | 0 <= j < k :: !Open(input, targets[j])
      else v == Clear
  }

  /** `examineProcess` */
  method ExamineProcess(input: Input, look: Look) returns (v: Verdict)
    ensures Says(input, look, v)
  {
    match look
    case Vanished => return Clear;
    case Denied(owner, exited) =>
      return if owner.Some? && owner == input.selfUid && !exited then Unreadable else Clear;
    case Table(targets) =>
      for k := 0 to |targets|
        invariant forall j | 0 <= j < k :: !Open(input, targets[j])
      {
        if targets[k].Some? {
          var path := WithoutDeleted(targets[k].value);
          if Matches(input, path) {
            return Holds(path);
          }
        }
      }
      return Clear;
  }

  /** A link that points at `path`, or did until the file was deleted. */
  predicate Points(target: string, path: string) {
    target == path + " (deleted)" || (target == path && !EndsDeleted(target))
  }

  predicate EndsDeleted(target: string) {
    |target| >= 10 && target[|target| - 10..] == " (deleted)"
  }

  /** The root itself, something below it, or one of the files. */
  ghost predicate Belongs(input: Input, path: string) {
    var root := input.dataRoot;
    || path == root || path in input.files
    || (exists rest :: path == root + "/" + rest)
    || (root != "" && root[|root| - 1] == '/' && exists rest :: path == root + rest)
  }

  ghost predicate Touches(input: Input, target: Option<string>) {
    target.Some? && exists path :: Points(target.value, path) && Belongs(input, path)
  }

  lemma PointsExactly(target: string, path: string)
    ensures WithoutDeleted(target) == path <==> Points(target, path)
  {
    if target == path + " (deleted)" {
      assert target[|path|..] == " (deleted)";
    }
    if EndsDeleted(target) {
      assert target == target[..|target| - 10] + " (deleted)";
    }
  }

  lemma BelongsExactly(input: Input, path: string)
    ensures Matches(input, path) <==> Belongs(input, path)
  {
    var root := input.dataRoot;
    if Prefix(root) <= path {
      assert path == Prefix(root) + path[|Prefix(root)|..];
    }
  }

  /** A process holds the root exactly when some link of its table points there,
      and is reported with such a path. */
  lemma HeldExactly(input: Input, targets: seq<Option<string>>, v: Verdict)
    requires Says(input, Table(targets), v)
    ensures v.Holds? <==> exists t | t in targets :: Touches(input, t)
    ensures v.Holds? ==> Belongs(input, v.path) && exists t | t in targets && t.Some? :: Points(t.value, v.path)
    ensures v.Holds? || v.Clear?
  {
    hide WithoutDeleted, Matches, Belongs, Points;
    forall t | t in targets
      ensures Open(input, t) <==> Touches(input, t)
    {
      OpenExactly(input, t);
    }
    if v.Holds? {
      var k :| 0 <= k < |targets| && Open(input, targets[k]) && v.path == WithoutDeleted(targets[k].value);
      PointsExactly(targets[k].value, v.path);
      BelongsExactly(input, v.path);
      assert targets[k] in targets;
    }
  }

  lemma OpenExactly(input: Input, t: Option<string>)
    ensures Open(input, t) <==> Touches(input, t)
  {
    hide WithoutDeleted, Matches, Belongs, Points;
    if t.Some? {
      forall path
        ensures WithoutDeleted(t.value) == path <==> Points(t.value, path)
      {
        PointsExactly(t.value, path);
      }
      BelongsExactly(input, WithoutDeleted(t.value));
      assert Points(t.value, WithoutDeleted(t.value));
    }
  }

  lemma SaysOnce(input: Input, look: Look, v: Verdict, v': Verdict)
    requires Says(input, look, v) && Says(input, look, v')
    ensures v == v'
  {
  }

  /** The verdict on process `p` in a round of looks, whatever the table was then. */
  type Evolution = (nat, string) -> Look

  predicate Hidden(input: Input, table: Evolution, round: nat, p: string) {
    Says(input, table(round, p), Unreadable)
  }

  /** Unreadable in every round up to this one. */
  predicate HiddenThrough(input: Input, table: Evolution, round: nat, p: string) {
    forall q: nat | q <= round :: Hidden(input, table, q, p)
  }

  /** Looked at in this round, after being unreadable in all earlier ones. */
  predicate FoundAt(input: Input, table: Evolution, round: nat, p: string, v: Verdict) {
    Says(input, table(round, p), v) && forall q: nat | q < round :: Hidden(input, table, q, p)
  }

  /** The last look at `p`: the first that could read it, or the last of all. */
  predicate LastLook(input: Input, table: Evolution, attempts: nat, p: string, round: nat, v: Verdict) {
    round <= attempts && FoundAt(input, table, round, p, v) && (v == Unreadable ==> round == attempts)
  }

  predicate IsCandidate(input: Input, entry: string) {
    entry != "" && Text.AllDigits(entry) && Text.Decimal(entry) != input.selfPid
  }

  datatype Scan = Scan(holders: seq<(string, string)>, unreadable: seq<string>)

  predicate Distinct<T(==)>(s: seq<T>) {
    forall i, j | 0 <= i < j < |s| :: s[i] != s[j]
  }

  /** The scan so far: who is still pending, who holds, who was looked at when. */
  ghost predicate Sorted(input: Input, table: Evolution, candidates: seq<string>, round: nat,
                         holders: seq<(string, string)>, pending: seq<string>, looks: seq<(nat, string)>) {
    && Distinct(pending) && Distinct(looks)
    && (forall p :: p in pending <==> p in candidates && HiddenThrough(input, table, round, p))
    && (forall p, path :: (p, path) in holders <==>
          p in candidates && exists r: nat | r <= round :: FoundAt(input, table, r, p, Holds(path)))
    && (forall r: nat, p :: (r, p) in looks <==>
          p in candidates && r <= round && forall q: nat | q < r :: Hidden(input, table, q, p))
  }

  /** One round over the pending processes. */
  method Round(input: Input, table: Evolution, round: nat, again: seq<string>, found: seq<(string, string)>)
    returns (holders: seq<(string, string)>, pending: seq<string>)
    requires Distinct(again)
    ensures Distinct(pending)
    ensures forall p :: p in pending <==> p in again && Hidden(input, table, round, p)
    ensures forall p, path :: (p, path) in holders <==>
              (p, path) in found || (p in again && Says(input, table(round, p), Holds(path)))
  {
    hide Says;
    holders, pending := found, [];
    for n := 0 to |again|
      invariant Distinct(pending)
      invariant forall p :: p in pending <==> p in again[..n] && Hidden(input, table, round, p)
      invariant forall p, path :: (p, path) in holders <==>
                  (p, path) in found || (p in again[..n] && Says(input, table(round, p), Holds(path)))
    {
      var p := again[n];
      var v := ExamineProcess(input, table(round, p));
      assert again[..n + 1] == again[..n] + [p];
      assert p !in pending;
      OneVerdict(input, table(round, p), v);
      match v
      case Unreadable => pending := pending + [p];
      case Holds(path) => holders := holders + [(p, path)];
      case Clear =>
    }
    assert again[..|again|] == again;
  }

  lemma OneVerdict(input: Input, look: Look, v: Verdict)
    requires Says(input, look, v)
    ensures forall v' :: Says(input, look, v') <==> v' == v
  {
    forall v' | Says(input, look, v')
      ensures v' == v
    {
      SaysOnce(input, look, v, v');
    }
  }

  /** The looks of one round. */
  function LooksOf(round: nat, ps: seq<string>): seq<(nat, string)> {
    seq(|ps|, i requires 0 <= i < |ps| => (round, ps[i]))
  }

  lemma NextRound(input: Input, table: Evolution, candidates: seq<string>, round: nat,
                  found: seq<(string, string)>, again: seq<string>, looks: seq<(nat, string)>,
                  holders: seq<(string, string)>, pending: seq<string>)
    requires Sorted(input, table, candidates, round, found, again, looks) && Distinct(pending)
    requires forall p :: p in pending <==> p in again && Hidden(input, table, round + 1, p)
    requires forall p, path :: (p, path) in holders <==>
               (p, path) in found || (p in again && Says(input, table(round + 1, p), Holds(path)))
    ensures Sorted(input, table, candidates, round + 1, holders, pending, looks + LooksOf(round + 1, again))
  {
    hide Says;
    var all := looks + LooksOf(round + 1, again);
    forall p: string
      ensures HiddenThrough(input, table, round + 1, p) <==>
                HiddenThrough(input, table, round, p) && Hidden(input, table, round + 1, p)
    {
      if HiddenThrough(input, table, round + 1, p) {
        assert Hidden(input, table, round + 1, p);
      }
    }
    forall r: nat, p | (r, p) in all
      ensures (r, p) in looks || (r == round + 1 && p in again)
    {
    }
    forall p | p in again
      ensures (round + 1, p) in all
    {
      var i :| 0 <= i < |again| && again[i] == p;
      assert all[|looks| + i] == (round + 1, p);
    }
    forall i, j | 0 <= i < j < |all|
      ensures all[i] != all[j]
    {
      if i < |looks| <= j {
        assert all[i] in looks;
      }
    }
    NextHolders(input, table, candidates, round, found, again, looks, holders);
  }

  lemma NextHolders(input: Input, table: Evolution, candidates: seq<string>, round: nat,
                    found: seq<(string, string)>, again: seq<string>, looks: seq<(nat, string)>,
                    holders: seq<(string, string)>)
    requires Sorted(input, table, candidates, round, found, again, looks)
    requires forall p, path :: (p, path) in holders <==>
               (p, path) in found || (p in again && Says(input, table(round + 1, p), Holds(path)))
    ensures forall p, path :: (p, path) in holders <==>
              p in candidates && exists r: nat | r <= round + 1 :: FoundAt(input, table, r, p, Holds(path))
  {
    hide Says;
    forall p, path
      ensures (p, path) in holders <==>
                p in candidates && exists r: nat | r <= round + 1 :: FoundAt(input, table, r, p, Holds(path))
    {
      if p in again && Says(input, table(round + 1, p), Holds(path)) {
        assert FoundAt(input, table, round + 1, p, Holds(path));
      }
      if p in candidates && FoundAt(input, table, round + 1, p, Holds(path)) {
        assert HiddenThrough(input, table, round, p);
      }
    }
  }

  /** `dataRootHolders`: round 0 looks at every other numbered process, later
      rounds at those that could not be read. The looks are returned for the
      statement only. */
  method DataRootHolders(input: Input, processes: Option<seq<string>>, attempts: nat, table: Evolution)
    returns (scan: Option<Scan>, ghost candidates: seq<string>, ghost looks: seq<(nat, string)>)
    requires processes.Some? ==> Distinct(processes.value)
    ensures scan.None? <==> processes.None?
    ensures scan.Some? ==> forall p :: p in candidates <==>
              p in processes.value && p != "" && Text.AllDigits(p) && Text.Decimal(p) != input.selfPid
    ensures scan.Some? ==> Sorted(input, table, candidates, attempts, scan.value.holders, scan.value.unreadable, looks)
  {
    hide Says;
    candidates, looks := [], [];
    if processes.None? {
      return None, [], [];
    }
    var first := Candidates(input, processes.value);
    candidates := first;
    var holders, pending := Round(input, table, 0, first, []);
    looks := LooksOf(0, first);
    FirstRound(input, table, candidates, holders, pending);
    var attempt := 0;
    while attempt < attempts && pending != []
      invariant attempt <= attempts && Distinct(pending)
      invariant Sorted(input, table, candidates, attempt, holders, pending, looks)
    {
      var again := pending;
      ghost var before := holders;
      holders, pending := Round(input, table, attempt + 1, again, holders);
      NextRound(input, table, candidates, attempt, before, again, looks, holders, pending);
      looks := looks + LooksOf(attempt + 1, again);
      attempt := attempt + 1;
    }
    if pending == [] {
      NothingPending(input, table, candidates, attempt, attempts, holders, looks);
    }
    scan := Some(Scan(holders, pending));
  }

  method Candidates(input: Input, processes: seq<string>) returns (candidates: seq<string>)
    requires Distinct(processes)
    ensures Distinct(candidates)
    ensures forall p :: p in candidates <==> p in processes && IsCandidate(input, p)
  {
    hide IsCandidate;
    candidates := [];
    for n := 0 to |processes|
      invariant Distinct(candidates)
      invariant forall p :: p in candidates <==> p in processes[..n] && IsCandidate(input, p)
    {
      assert processes[..n + 1] == processes[..n] + [processes[n]];
      if IsCandidate(input, processes[n]) {
        candidates := candidates + [processes[n]];
      }
    }
    assert processes[..|processes|] == processes;
  }

  lemma FirstRound(input: Input, table: Evolution, candidates: seq<string>, holders: seq<(string, string)>,
                   pending: seq<string>)
    requires Distinct(candidates) && Distinct(pending)
    requires forall p :: p in pending <==> p in candidates && Hidden(input, table, 0, p)
    requires forall p, path :: (p, path) in holders <==> p in candidates && Says(input, table(0, p), Holds(path))
    ensures Sorted(input, table, candidates, 0, holders, pending, LooksOf(0, candidates))
  {
    hide Says;
    var looks := LooksOf(0, candidates);
    forall p | p in candidates
      ensures (0, p) in looks
    {
      var i :| 0 <= i < |candidates| && candidates[i] == p;
      assert looks[i] == (0, p);
    }
    forall p, path
      ensures (p, path) in holders <==>
                p in candidates && exists r: nat | r <= 0 :: FoundAt(input, table, r, p, Holds(path))
    {
      assert FoundAt(input, table, 0, p, Holds(path)) <==> Says(input, table(0, p), Holds(path));
    }
  }

  /** Once nothing is pending, later rounds would find nothing more. */
  lemma NothingPending(input: Input, table: Evolution, candidates: seq<string>, round: nat, attempts: nat,
                       holders: seq<(string, string)>, looks: seq<(nat, string)>)
    requires round <= attempts && Sorted(input, table, candidates, round, holders, [], looks)
    ensures Sorted(input, table, candidates, attempts, holders, [], looks)
  {
    hide Says;
    forall p | p in candidates
      ensures exists q: nat | q <= round :: !Hidden(input, table, q, p)
    {
      assert !HiddenThrough(input, table, round, p);
    }
  }

  /** Every other process ends in exactly one class, by its last look: it holds the
      root open, hides its files (it did at every look), or is cleared. It is
      looked at once a round at most, so at most one time more than the rechecks. */
  lemma EveryProcessSettled(input: Input, table: Evolution, candidates: seq<string>, attempts: nat, scan: Scan,
                            looks: seq<(nat, string)>, p: string)
    requires Sorted(input, table, candidates, attempts, scan.holders, scan.unreadable, looks) && p in candidates
    ensures exists round: nat, v ::
              LastLook(input, table, attempts, p, round, v) &&
              (v.Unreadable? <==> p in scan.unreadable) &&
              (forall path :: (p, path) in scan.holders <==> v == Holds(path)) &&
              (forall r: nat :: (r, p) in looks <==> r <= round)
  {
    var round, v := Settle(input, table, attempts, p);
    hide Says;
    forall path
      ensures (p, path) in scan.holders <==> v == Holds(path)
    {
      if r: nat :| r <= attempts && FoundAt(input, table, r, p, Holds(path)) {
        SameRound(input, table, attempts, p, round, v, r, Holds(path));
      }
    }
    if p in scan.unreadable {
      assert Hidden(input, table, round, p);
      Unhidden(input, table(round, p), v);
    }
    forall r: nat
      ensures (r, p) in looks <==> r <= round
    {
      if r > round && (r, p) in looks {
        assert Hidden(input, table, round, p);
        Unhidden(input, table(round, p), v);
      }
    }
  }

  lemma Unhidden(input: Input, look: Look, v: Verdict)
    requires Says(input, look, v) && Says(input, look, Unreadable)
    ensures v == Unreadable
  {
  }

  lemma Verdicts(input: Input, look: Look) returns (v: Verdict)
    ensures Says(input, look, v)
  {
    match look
    case Vanished => v := Clear;
    case Denied(owner, exited) => v := if owner.Some? && owner == input.selfUid && !exited then Unreadable else Clear;
    case Table(targets) =>
      var k := FirstOpen(input, targets);
      v := if k == |targets| then Clear else Holds(WithoutDeleted(targets[k].value));
  }

  function FirstOpen(input: Input, targets: seq<Option<string>>): (k: nat)
    ensures k <= |targets| && (k < |targets| ==> Open(input, targets[k]))
    ensures forall j | 0 <= j < k :: !Open(input, targets[j])
  {
    if targets == [] || Open(input, targets[0]) then 0 else 1 + FirstOpen(input, targets[1..])
  }

  lemma {:induction false} Settle(input: Input, table: Evolution, attempts: nat, p: string)
    returns (round: nat, v: Verdict)
    ensures LastLook(input, table, attempts, p, round, v)
    decreases attempts
  {
    hide Says;
    if attempts == 0 {
      round := 0;
      v := Verdicts(input, table(0, p));
    } else {
      round, v := Settle(input, table, attempts - 1, p);
      if v == Unreadable {
        round := attempts;
        v := Verdicts(input, table(attempts, p));
        assert forall q: nat | q < attempts - 1 :: Hidden(input, table, q, p);
        assert Hidden(input, table, attempts - 1, p);
      }
    }
  }

  lemma SameRound(input: Input, table: Evolution, attempts: nat, p: string, round: nat, v: Verdict, r: nat, u: Verdict)
    requires LastLook(input, table, attempts, p, round, v) && r <= attempts && FoundAt(input, table, r, p, u)
    requires u != Unreadable
    ensures r == round && u == v
  {
    hide Says;
    if r < round {
      assert Hidden(input, table, r, p);
      Unhidden(input, table(r, p), u);
    } else if round < r {
      assert Hidden(input, table, round, p);
      Unhidden(input, table(round, p), v);
    } else {
      SaysOnce(input, table(r, p), u, v);
    }
  }
}
