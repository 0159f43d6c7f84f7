/** Seeds of held artifacts, interleaved step by step and killed at any step. */
module SeedRuns {
  import opened Values
  import opened ConfigMerge

  type Bytes = seq<bv8>
  type Hash = Bytes -> string

  /** The configuration's blocks, one per Form. */
  datatype Section = Section(targetKey: string, held: seq<Entry>)
  type Config = map<string, Section>

  /** A canonical path, part by part. */
  type Path = seq<string>

  predicate Inside(root: Path, file: Path) {
    root <= file && root != file
  }

  lemma InsideExactly(root: Path, file: Path)
    ensures Inside(root, file) <==> exists part: string, rest: Path :: file == root + [part] + rest
  {
    if Inside(root, file) {
      assert file == root + [file[|root|]] + file[|root| + 1..];
    }
  }

  /** What one seed was asked for, after its files were read and hashed. */
  datatype Job = Job(root: Path, database: Path, block: string, entries: seq<Entry>, contents: map<string, Bytes>,
                     target: Option<string>, defaultTarget: string, addGrants: bool, withConfig: bool)

  function HeldObjectKey(sha256: string): string {
    "operator-held/sha256/" + sha256
  }

  predicate ValidJob(h: Hash, j: Job) {
    && (forall e | e in j.entries :: e.objectKey == HeldObjectKey(e.sha256) && e.sha256 in j.contents)
    && (forall d | d in j.contents :: h(j.contents[d]) == d)
  }

  datatype Phase =
    | Opened                        // control database open and its write lock held
    | Scanning(pending: set<nat>)   // processes listed, these not yet looked at
    | Storing(text: Option<Config>, next: Option<Config>, done: set<string>)
    | Verified(text: Option<Config>, next: Option<Config>)
    | Compared(published: Config)
    | Written
    | Over

  datatype Seed = Seed(job: Job, phase: Phase, completed: bool)

  /** `locks` maps a control database to the seed that holds its write lock. */
  datatype World = World(locks: map<Path, nat>, objects: map<(Path, string), Bytes>, config: Config, seeds: seq<Seed>)

  datatype Action =
    | Start(job: Job)
    | List(id: nat)
    | Look(id: nat, other: nat)
    | Prepare(id: nat)
    | Store(id: nat, digest: string)
    | ReadBack(id: nat)
    | Compare(id: nat)
    | Rename(id: nat)
    | Stop(id: nat)

  // ----- The steps -----

  function HeldOf(c: Config, block: string): seq<Entry> {
    if block in c then c[block].held else []
  }

  /** `prepareConfigMerge` */
  function Prepared(c: Config, j: Job): Option<Config> {
    if j.block in c && j.target.Some? && j.target.value != c[j.block].targetKey then None
    else
      var targetKey :=
        if j.block in c then c[j.block].targetKey else if j.target.Some? then j.target.value else j.defaultTarget;
      var held := Merged(HeldOf(c, j.block), j.entries, j.addGrants);
      if held.None? then None else Some(c[j.block := Section(targetKey, held.value)])
  }

  function WithPhase(w: World, id: nat, phase: Phase): World
    requires id < |w.seeds|
  {
    w.(seeds := w.seeds[id := w.seeds[id].(phase := phase)])
  }

  /** A seed that ends, in whatever way, lets its lock go. */
  function Stopped(w: World, id: nat): World
    requires id < |w.seeds|
  {
    var db := w.seeds[id].job.database;
    WithPhase(w, id, Over).(locks := if db in w.locks && w.locks[db] == id then w.locks - {db} else w.locks)
  }

  /** The object an entry names is there and holds what its name promises. */
  predicate Held(h: Hash, objects: map<(Path, string), Bytes>, root: Path, digest: string) {
    (root, digest) in objects && h(objects[(root, digest)]) == digest
  }

  /** `storeHeldObject`: created, or already there with the right bytes. */
  function DoStore(h: Hash, w: World, id: nat, digest: string): World
    requires id < |w.seeds| && w.seeds[id].phase.Storing? && digest in w.seeds[id].job.contents
  {
    var s := w.seeds[id];
    var key := (s.job.root, digest);
    var stored := WithPhase(w, id, s.phase.(done := s.phase.done + {digest}));
    if key !in w.objects then stored.(objects := w.objects[key := s.job.contents[digest]])
    else if h(w.objects[key]) == digest then stored
    else Stopped(w, id)
  }

  /** The seed's process is there, with its database open. */
  predicate Active(s: Seed) {
    !s.phase.Over?
  }

  function Others(seeds: seq<Seed>, id: nat): set<nat> {
    set i | 0 <= i < |seeds| && i != id && Active(seeds[i])
  }

  function ActOfSeed(h: Hash, w: World, id: nat, a: Action): Option<World>
    requires id < |w.seeds|
  {
    var s := w.seeds[id];
    match a
    case List(_) =>
      if s.phase.Opened?
      then Some(WithPhase(w, id, Scanning(Others(w.seeds, id)))) else None
    case Look(_, other) =>
      if !s.phase.Scanning? || other !in s.phase.pending || other >= |w.seeds| then None
      else if Active(w.seeds[other]) && Inside(s.job.root, w.seeds[other].job.database) then Some(Stopped(w, id))
      else Some(WithPhase(w, id, Scanning(s.phase.pending - {other})))
    case Prepare(_) =>
      if s.phase != Scanning({}) then None
      else if !s.job.withConfig then Some(WithPhase(w, id, Storing(None, None, {})))
      else
        var next := Prepared(w.config, s.job);
        Some(if next.None? then Stopped(w, id) else WithPhase(w, id, Storing(Some(w.config), next, {})))
    case Store(_, digest) =>
      if s.phase.Storing? && digest in s.job.contents then Some(DoStore(h, w, id, digest)) else None
    case ReadBack(_) =>
      if !s.phase.Storing? || s.phase.done != s.job.contents.Keys then None
      else if forall e | e in s.job.entries :: Held(h, w.objects, s.job.root, e.sha256)
      then Some(WithPhase(w, id, Verified(s.phase.text, s.phase.next))) else Some(Stopped(w, id))
    case Compare(_) =>
      if s.phase.Verified? && s.phase.text.Some? && s.phase.next.Some? then
        Some(if s.phase.text.value == w.config then WithPhase(w, id, Compared(s.phase.next.value)) else Stopped(w, id))
      else None
    case Rename(_) =>
      if s.phase.Compared? then
        Some(w.(config := s.phase.published, seeds := w.seeds[id := s.(phase := Written, completed := true)]))
      else None
    case Stop(_) => Some(Stopped(w, id))
    case _ => None
  }

  function Act(h: Hash, w: World, a: Action): Option<World> {
    match a
    case Start(job) =>
      if ValidJob(h, job) && job.database !in w.locks
      then Some(w.(locks := w.locks[job.database := |w.seeds|], seeds := w.seeds + [Seed(job, Opened, false)])) else None
    case _ => if a.id < |w.seeds| then ActOfSeed(h, w, a.id, a) else None
  }

  // ----- What every step keeps -----

  predicate SameArtifact(f: Entry, e: Entry) {
    KeyOf(f) == KeyOf(e) && f.objectKey == e.objectKey
  }

  predicate Requested(j: Job, block: string, e: Entry) {
    j.block == block && exists f | f in j.entries :: SameArtifact(f, e)
  }

  /** Every entry of the configuration was there from the start, as the same
      object, or its object is held under the data root of a seed that asked for it. */
  predicate Backed(h: Hash, w: World, first: World, block: string, e: Entry) {
    || (exists f | f in HeldOf(first.config, block) :: SameArtifact(f, e))
    || (e.objectKey == HeldObjectKey(e.sha256) &&
        exists s | s in w.seeds :: Requested(s.job, block, e) && Held(h, w.objects, s.job.root, e.sha256))
  }

  predicate AllBacked(h: Hash, w: World, first: World, c: Config) {
    forall block, e | block in c && e in c[block].held :: Backed(h, w, first, block, e)
  }

  /** No object changed, and a new one holds what its name promises. */
  predicate ObjectsKept(h: Hash, before: map<(Path, string), Bytes>, after: map<(Path, string), Bytes>) {
    && (forall k | k in before :: k in after && after[k] == before[k])
    && (forall k | k in after && k !in before :: h(after[k]) == k.1)
  }

  predicate AllStored(h: Hash, w: World, s: Seed) {
    && (forall e | e in s.job.entries :: Held(h, w.objects, s.job.root, e.sha256))
    && (forall d | d in s.job.contents :: Held(h, w.objects, s.job.root, d))
  }

  ghost predicate SeedInv(h: Hash, w: World, first: World, s: Seed) {
    && ValidJob(h, s.job) && (s.completed ==> AllStored(h, w, s))
    && match s.phase
       case Storing(text, next, done) =>
         (forall d | d in done :: d in s.job.contents && Held(h, w.objects, s.job.root, d)) &&
         (next.Some? ==> text.Some? && next == Prepared(text.value, s.job) && AllBacked(h, w, first, text.value))
       case Verified(text, next) =>
         AllStored(h, w, s) &&
         (next.Some? ==> text.Some? && next == Prepared(text.value, s.job) && AllBacked(h, w, first, text.value))
       case Compared(published) =>
         AllStored(h, w, s) &&
         exists text :: Some(published) == Prepared(text, s.job) && AllBacked(h, w, first, text)
       case _ => true
  }

  /** The seeds at work are exactly the holders of the locks, each of its own database. */
  predicate Turns(w: World) {
    && (forall i | 0 <= i < |w.seeds| && Active(w.seeds[i]) ::
          w.seeds[i].job.database in w.locks && w.locks[w.seeds[i].job.database] == i)
    && (forall db | db in w.locks ::
          w.locks[db] < |w.seeds| && Active(w.seeds[w.locks[db]]) && w.seeds[w.locks[db]].job.database == db)
  }

  ghost predicate Inv(h: Hash, w: World, first: World) {
    && Turns(w)
    && ObjectsKept(h, first.objects, w.objects)
    && AllBacked(h, w, first, w.config)
    && forall s | s in w.seeds :: SeedInv(h, w, first, s)
  }

  /** Objects stay and seeds keep their jobs. */
  predicate Grows(w: World, w': World) {
    && (forall k | k in w.objects :: k in w'.objects && w'.objects[k] == w.objects[k])
    && |w.seeds| <= |w'.seeds| && (forall i | 0 <= i < |w.seeds| :: w'.seeds[i].job == w.seeds[i].job)
  }

  lemma BackedGrows(h: Hash, w: World, w': World, first: World, block: string, e: Entry)
    requires Grows(w, w') && Backed(h, w, first, block, e)
    ensures Backed(h, w', first, block, e)
  {
    if s :| s in w.seeds && Requested(s.job, block, e) && Held(h, w.objects, s.job.root, e.sha256) {
      var i :| 0 <= i < |w.seeds| && w.seeds[i] == s;
      assert w'.seeds[i] in w'.seeds && Held(h, w'.objects, w'.seeds[i].job.root, e.sha256);
    }
  }

  lemma AllBackedGrows(h: Hash, w: World, w': World, first: World, c: Config)
    requires Grows(w, w') && AllBacked(h, w, first, c)
    ensures AllBacked(h, w', first, c)
  {
    hide Backed, Grows;
    forall block, e | block in c && e in c[block].held
      ensures Backed(h, w', first, block, e)
    {
      assert Backed(h, w, first, block, e);
      BackedGrows(h, w, w', first, block, e);
    }
  }

  lemma SeedGrows(h: Hash, w: World, w': World, first: World, s: Seed)
    requires Grows(w, w') && SeedInv(h, w, first, s)
    ensures SeedInv(h, w', first, s)
  {
    hide AllBacked, Prepared;
    forall c | AllBacked(h, w, first, c)
      ensures AllBacked(h, w', first, c)
    {
      AllBackedGrows(h, w, w', first, c);
    }
  }

  /** What the merged configuration adds is held. */
  lemma PreparedBacked(h: Hash, w: World, first: World, text: Config, s: Seed)
    requires s in w.seeds && ValidJob(h, s.job) && AllStored(h, w, s)
    requires AllBacked(h, w, first, text) && Prepared(text, s.job).Some?
    ensures AllBacked(h, w, first, Prepared(text, s.job).value)
  {
    hide Merged, Backed, AllStored, ValidJob;
    var j := s.job;
    var next := Prepared(text, j).value;
    forall block, e | block in next && e in next[block].held
      ensures Backed(h, w, first, block, e)
    {
      if block != j.block {
        assert block in text && e in text[block].held;
      } else {
        MergedBacked(h, w, first, HeldOf(text, block), s, e);
      }
    }
  }

  lemma MergedBacked(h: Hash, w: World, first: World, existing: seq<Entry>, s: Seed, e: Entry)
    requires s in w.seeds && ValidJob(h, s.job) && AllStored(h, w, s)
    requires forall f | f in existing :: Backed(h, w, first, s.job.block, f)
    requires Merged(existing, s.job.entries, s.job.addGrants).Some?
    requires e in Merged(existing, s.job.entries, s.job.addGrants).value
    ensures Backed(h, w, first, s.job.block, e)
  {
    hide Merged;
    FromMerge(existing, s.job.entries, s.job.addGrants, e);
    var f :| f in existing + s.job.entries && SameArtifact(f, e);
    if f in existing {
      assert Backed(h, w, first, s.job.block, f);
    } else {
      assert f in s.job.entries && Held(h, w.objects, s.job.root, f.sha256);
    }
  }

  lemma FromMerge(existing: seq<Entry>, entries: seq<Entry>, addGrants: bool, e: Entry)
    requires Merged(existing, entries, addGrants).Some? && e in Merged(existing, entries, addGrants).value
    ensures exists f :: f in existing + entries && SameArtifact(f, e)
  {
    MergeAddsNothingElse(existing, entries);
  }

  /** Only the seed that moves may let a lock go, its own. */
  lemma LockStep(h: Hash, w: World, id: nat, a: Action)
    requires id < |w.seeds| && ActOfSeed(h, w, id, a).Some?
    ensures var w' := ActOfSeed(h, w, id, a).value;
            w'.seeds == w.seeds[id := w'.seeds[id]] && w'.seeds[id].job == w.seeds[id].job &&
            if Active(w'.seeds[id]) then Active(w.seeds[id]) && w'.locks == w.locks else w'.locks == Stopped(w, id).locks
  {
    hide Prepared, Held, ValidJob, DoStore, Inside, Others;
    if a.Store? {
      StoreLocks(h, w, id, a.digest);
    }
  }

  lemma StoreLocks(h: Hash, w: World, id: nat, digest: string)
    requires id < |w.seeds| && w.seeds[id].phase.Storing? && digest in w.seeds[id].job.contents
    ensures var w' := DoStore(h, w, id, digest);
            w'.seeds == w.seeds[id := w'.seeds[id]] && w'.seeds[id].job == w.seeds[id].job &&
            if Active(w'.seeds[id]) then w'.locks == w.locks else w'.locks == Stopped(w, id).locks
  {
  }

  lemma TurnsKept(h: Hash, w: World, a: Action)
    requires Turns(w) && Act(h, w, a).Some?
    ensures Turns(Act(h, w, a).value)
  {
    hide Prepared, Held, ValidJob, ActOfSeed;
    if !a.Start? {
      LockStep(h, w, a.id, a);
    }
  }

  /** One seed moved, objects grew: everything is kept if the seed's own facts are. */
  lemma MoveKeeps(h: Hash, w: World, w': World, first: World, id: nat)
    requires Inv(h, w, first) && id < |w.seeds| == |w'.seeds| && w'.seeds == w.seeds[id := w'.seeds[id]]
    requires w'.seeds[id].job == w.seeds[id].job && Grows(w, w') && ObjectsKept(h, w.objects, w'.objects)
    requires SeedInv(h, w', first, w'.seeds[id]) && AllBacked(h, w', first, w'.config) && Turns(w')
    ensures Inv(h, w', first)
  {
    hide SeedInv, AllBacked, Grows, Turns;
    forall s | s in w'.seeds
      ensures SeedInv(h, w', first, s)
    {
      if s != w'.seeds[id] {
        var i :| 0 <= i < |w'.seeds| && w'.seeds[i] == s;
        assert w.seeds[i] == s;
        SeedGrows(h, w, w', first, s);
      }
    }
  }

  lemma StopKeeps(h: Hash, w: World, first: World, id: nat)
    requires Inv(h, w, first) && id < |w.seeds|
    ensures Inv(h, Stopped(w, id), first)
  {
    hide AllBacked;
    var w' := Stopped(w, id);
    assert SeedInv(h, w, first, w.seeds[id]);
    AllBackedGrows(h, w, w', first, w.config);
    MoveKeeps(h, w, w', first, id);
  }

  lemma StoreKeeps(h: Hash, w: World, first: World, id: nat, digest: string)
    requires Inv(h, w, first) && id < |w.seeds| && w.seeds[id].phase.Storing? && digest in w.seeds[id].job.contents
    ensures Inv(h, DoStore(h, w, id, digest), first)
  {
    var w' := DoStore(h, w, id, digest);
    assert SeedInv(h, w, first, w.seeds[id]);
    if w'.seeds[id].phase.Over? {
      StopKeeps(h, w, first, id);
    } else {
      hide AllBacked, SeedInv, Turns, Held, ValidJob, Grows;
      StoreGrows(h, w, id, digest);
      StoreOwn(h, w, first, id, digest);
      AllBackedGrows(h, w, w', first, w.config);
      assert Turns(w') by {
        TurnsKept(h, w, Store(id, digest));
      }
      MoveKeeps(h, w, w', first, id);
    }
  }

  /** The seed's own facts after it stored an object. */
  lemma StoreOwn(h: Hash, w: World, first: World, id: nat, digest: string)
    requires id < |w.seeds| && w.seeds[id].phase.Storing? && digest in w.seeds[id].job.contents
    requires SeedInv(h, w, first, w.seeds[id]) && !DoStore(h, w, id, digest).seeds[id].phase.Over?
    ensures SeedInv(h, DoStore(h, w, id, digest), first, DoStore(h, w, id, digest).seeds[id])
  {
    hide AllBacked, Prepared;
    var w' := DoStore(h, w, id, digest);
    var s := w.seeds[id];
    if s.phase.next.Some? {
      AllBackedGrows(h, w, w', first, s.phase.text.value);
    }
  }

  /** The seed's own facts after it prepared, read back or compared. */
  lemma OtherOwn(h: Hash, w: World, first: World, id: nat, a: Action)
    requires id < |w.seeds| && ActOfSeed(h, w, id, a).Some? && (a.List? || a.Look? || a.Prepare? || a.ReadBack? || a.Compare?)
    requires !ActOfSeed(h, w, id, a).value.seeds[id].phase.Over?
    requires SeedInv(h, w, first, w.seeds[id]) && AllBacked(h, w, first, w.config)
    ensures var w' := ActOfSeed(h, w, id, a).value;
            w' == w.(seeds := w.seeds[id := w'.seeds[id]]) && w'.seeds[id].job == w.seeds[id].job &&
            SeedInv(h, w, first, w'.seeds[id])
  {
    hide AllBacked, Prepared, Held, ValidJob;
    var s := w.seeds[id];
    if a.Compare? {
      assert s.phase.next == Prepared(s.phase.text.value, s.job);
    }
  }

  lemma OtherKeeps(h: Hash, w: World, first: World, id: nat, a: Action)
    requires Inv(h, w, first) && id < |w.seeds| && ActOfSeed(h, w, id, a).Some? && (a.List? || a.Look? || a.Prepare? || a.ReadBack? || a.Compare?)
    requires !ActOfSeed(h, w, id, a).value.seeds[id].phase.Over?
    ensures Inv(h, ActOfSeed(h, w, id, a).value, first)
  {
    assert SeedInv(h, w, first, w.seeds[id]);
    hide AllBacked, ActOfSeed, SeedInv;
    var w' := ActOfSeed(h, w, id, a).value;
    OtherOwn(h, w, first, id, a);
    AllBackedGrows(h, w, w', first, w.config);
    SeedGrows(h, w, w', first, w'.seeds[id]);
    MoveKeeps(h, w, w', first, id);
  }

  lemma RenameKeeps(h: Hash, w: World, first: World, id: nat)
    requires Inv(h, w, first) && id < |w.seeds| && w.seeds[id].phase.Compared?
    ensures Inv(h, ActOfSeed(h, w, id, Rename(id)).value, first)
  {
    hide AllBacked, Prepared;
    var w' := ActOfSeed(h, w, id, Rename(id)).value;
    var s := w.seeds[id];
    assert SeedInv(h, w, first, s);
    var text :| Some(s.phase.published) == Prepared(text, s.job) && AllBacked(h, w, first, text);
    PreparedBacked(h, w, first, text, s);
    AllBackedGrows(h, w, w', first, s.phase.published);
    MoveKeeps(h, w, w', first, id);
  }

  lemma StartKeeps(h: Hash, w: World, first: World, job: Job)
    requires Inv(h, w, first) && Act(h, w, Start(job)).Some?
    ensures Inv(h, Act(h, w, Start(job)).value, first)
  {
    TurnsKept(h, w, Start(job));
    hide AllBacked, Turns;
    var w' := Act(h, w, Start(job)).value;
    AllBackedGrows(h, w, w', first, w.config);
    forall s | s in w'.seeds
      ensures SeedInv(h, w', first, s)
    {
      if s in w.seeds {
        SeedGrows(h, w, w', first, s);
      }
    }
  }

  lemma StepKeeps(h: Hash, w: World, a: Action, first: World)
    requires Inv(h, w, first) && Act(h, w, a).Some?
    ensures Inv(h, Act(h, w, a).value, first) && Grows(w, Act(h, w, a).value)
  {
    hide Inv, Prepared, Held, DoStore, Grows;
    StepGrows(h, w, a);
    match a
    case Start(job) => StartKeeps(h, w, first, job);
    case Store(id, digest) => StoreKeeps(h, w, first, id, digest);
    case Rename(id) => RenameKeeps(h, w, first, id);
    case Stop(id) => StopKeeps(h, w, first, id);
    case List(id) => OtherKeepsOrStops(h, w, first, id, a);
    case Look(id, _) => OtherKeepsOrStops(h, w, first, id, a);
    case Prepare(id) => OtherKeepsOrStops(h, w, first, id, a);
    case ReadBack(id) => OtherKeepsOrStops(h, w, first, id, a);
    case Compare(id) => OtherKeepsOrStops(h, w, first, id, a);
  }

  lemma OtherKeepsOrStops(h: Hash, w: World, first: World, id: nat, a: Action)
    requires Inv(h, w, first) && id < |w.seeds| && ActOfSeed(h, w, id, a).Some?
    requires a.List? || a.Look? || a.Prepare? || a.ReadBack? || a.Compare?
    ensures Inv(h, ActOfSeed(h, w, id, a).value, first)
  {
    hide Inv, Prepared, Held;
    if ActOfSeed(h, w, id, a).value.seeds[id].phase.Over? {
      StopKeeps(h, w, first, id);
    } else {
      OtherKeeps(h, w, first, id, a);
    }
  }

  lemma StepGrows(h: Hash, w: World, a: Action)
    requires Act(h, w, a).Some?
    ensures Grows(w, Act(h, w, a).value)
  {
    hide Prepared, Held, DoStore, ValidJob;
    if a.Store? {
      StoreGrows(h, w, a.id, a.digest);
    }
  }

  lemma StoreGrows(h: Hash, w: World, id: nat, digest: string)
    requires id < |w.seeds| && w.seeds[id].phase.Storing? && digest in w.seeds[id].job.contents
    ensures Grows(w, DoStore(h, w, id, digest))
  {
  }

  // ----- Seeds that exclude each other -----

  /** Each has its database where the other's scan looks. */
  predicate SeesEachOther(j: Job, k: Job) {
    Inside(k.root, j.database) && Inside(j.root, k.database)
  }

  /** Two seeds with one control database, or each with its database inside the
      other's data root, are never at work together. */
  predicate Excludes(j: Job, k: Job) {
    j.database == k.database || SeesEachOther(j, k)
  }

  predicate Exclusive(w: World) {
    forall s, t | s in w.seeds && t in w.seeds :: Excludes(s.job, t.job)
  }

  /** The scan is over. */
  predicate Working(s: Seed) {
    Active(s) && !s.phase.Opened? && !s.phase.Scanning?
  }

  /** The scan does not, or not any more, look at seed `other`. */
  predicate Passed(s: Seed, other: nat) {
    Active(s) && !s.phase.Opened? && (s.phase.Scanning? ==> other !in s.phase.pending)
  }

  /** Of two seeds that can see each other, at most one has passed the other. */
  predicate Apart(w: World) {
    forall i, j | 0 <= i < |w.seeds| && 0 <= j < |w.seeds| && i != j && SeesEachOther(w.seeds[i].job, w.seeds[j].job) ::
      !Passed(w.seeds[i], j) || !Passed(w.seeds[j], i)
  }

  predicate OneAtWork(w: World) {
    forall i, j | 0 <= i < |w.seeds| && 0 <= j < |w.seeds| && i != j :: !Working(w.seeds[i]) || !Working(w.seeds[j])
  }

  lemma ApartWorksAlone(w: World)
    requires Turns(w) && Exclusive(w) && Apart(w)
    ensures OneAtWork(w)
  {
    forall i, j | 0 <= i < |w.seeds| && 0 <= j < |w.seeds| && i != j
      ensures !Working(w.seeds[i]) || !Working(w.seeds[j])
    {
      assert w.seeds[i] in w.seeds && w.seeds[j] in w.seeds;
      assert Excludes(w.seeds[i].job, w.seeds[j].job);
    }
  }

  /** A seed passes another that is there only after it has looked and not found its database. */
  lemma ScanStep(h: Hash, w: World, id: nat, a: Action, j: nat)
    requires id < |w.seeds| && ActOfSeed(h, w, id, a).Some? && j < |w.seeds| && j != id
    ensures var s, s' := w.seeds[id], ActOfSeed(h, w, id, a).value.seeds[id];
            (Active(s') ==> Active(s)) && s'.job == s.job &&
            (Passed(s', j) && Active(w.seeds[j]) ==> Passed(s, j) || !Inside(s.job.root, w.seeds[j].job.database))
  {
    hide Prepared, Held, ValidJob;
  }

  lemma ApartKept(h: Hash, w: World, a: Action)
    requires Apart(w) && Act(h, w, a).Some?
    ensures Apart(Act(h, w, a).value)
  {
    hide Prepared, Held, ValidJob, ActOfSeed, Inside, Passed;
    var w' := Act(h, w, a).value;
    forall i, j | 0 <= i < |w'.seeds| && 0 <= j < |w'.seeds| && i != j && SeesEachOther(w'.seeds[i].job, w'.seeds[j].job)
      ensures !Passed(w'.seeds[i], j) || !Passed(w'.seeds[j], i)
    {
      if a.Start? {
        NewcomerHasNotPassed(a.job, i);
        NewcomerHasNotPassed(a.job, j);
      } else {
        LockStep(h, w, a.id, a);
        if a.id == i {
          ScanStep(h, w, i, a, j);
          PassedIsActive(w.seeds[j], i);
        } else if a.id == j {
          ScanStep(h, w, j, a, i);
          PassedIsActive(w.seeds[i], j);
        }
      }
    }
  }

  lemma NewcomerHasNotPassed(job: Job, other: nat)
    ensures !Passed(Seed(job, Opened, false), other)
  {
  }

  lemma PassedIsActive(s: Seed, other: nat)
    ensures Passed(s, other) ==> Active(s)
  {
  }

  /** What a seed at work has read is still there. */
  predicate UpToDate(w: World, s: Seed) {
    match s.phase
    case Storing(text, next, _) => next.Some? ==> text == Some(w.config) && next == Prepared(w.config, s.job)
    case Verified(text, next) => next.Some? ==> text == Some(w.config) && next == Prepared(w.config, s.job)
    case Compared(published) => Some(published) == Prepared(w.config, s.job)
    case _ => true
  }

  /** The configuration serves everything the job asked for. */
  predicate ServesJob(c: Config, j: Job) {
    j.entries != [] ==> j.block in c && forall e | e in j.entries :: Serves(c[j.block].held, e)
  }

  predicate Orderly(w: World) {
    && Turns(w) && Apart(w) && Exclusive(w)
    && (forall s | s in w.seeds :: UpToDate(w, s))
    && (forall s | s in w.seeds && s.completed :: ServesJob(w.config, s.job))
  }

  lemma PreparedServes(c: Config, j: Job)
    requires Prepared(c, j).Some?
    ensures ServesJob(Prepared(c, j).value, j)
  {
    MergeKeeps(HeldOf(c, j.block), j.entries);
  }

  lemma PreparedKeeps(c: Config, j: Job, other: Job)
    requires Prepared(c, j).Some? && ServesJob(c, other)
    ensures ServesJob(Prepared(c, j).value, other)
  {
    var next := Prepared(c, j).value;
    if other.entries != [] && other.block == j.block {
      MergeKeeps(c[j.block].held, j.entries);
      hide Serves, KeepsAll, Merged;
      forall e | e in other.entries
        ensures Serves(next[other.block].held, e)
      {
        MergedKeepsServing(c[j.block].held, j.entries, j.addGrants, e);
      }
    }
  }

  lemma MergedKeepsServing(held: seq<Entry>, entries: seq<Entry>, addGrants: bool, e: Entry)
    requires Merged(held, entries, addGrants).Some? && Serves(held, e)
    ensures Serves(Merged(held, entries, addGrants).value, e)
  {
    MergeKeeps(held, entries);
    KeepsServing(held, MergeAll(held, entries).value.held, e);
  }

  lemma ExclusiveKept(h: Hash, w: World, a: Action)
    requires Exclusive(w) && Act(h, w, a).Some?
    requires a.Start? ==> forall s | s in w.seeds :: Excludes(s.job, a.job) && Excludes(a.job, s.job)
    ensures Exclusive(Act(h, w, a).value)
  {
    hide Prepared, Held, ValidJob, ActOfSeed;
    var w' := Act(h, w, a).value;
    if !a.Start? {
      LockStep(h, w, a.id, a);
      forall s | s in w'.seeds
        ensures exists t | t in w.seeds :: t.job == s.job
      {
        var i :| 0 <= i < |w'.seeds| && w'.seeds[i] == s;
        assert w.seeds[i] in w.seeds;
      }
    }
  }

  lemma OrderlyRename(h: Hash, w: World, id: nat)
    requires Orderly(w) && id < |w.seeds| && w.seeds[id].phase.Compared?
    ensures var w' := ActOfSeed(h, w, id, Rename(id)).value;
            forall s | s in w'.seeds :: UpToDate(w', s) && (s.completed ==> ServesJob(w'.config, s.job))
  {
    var w' := ActOfSeed(h, w, id, Rename(id)).value;
    var j := w.seeds[id].job;
    ApartWorksAlone(w);
    assert UpToDate(w, w.seeds[id]);
    PreparedServes(w.config, j);
    hide Prepared, ServesJob, Turns, Apart, Exclusive, Held;
    forall s | s in w'.seeds
      ensures UpToDate(w', s) && (s.completed ==> ServesJob(w'.config, s.job))
    {
      var i :| 0 <= i < |w'.seeds| && w'.seeds[i] == s;
      if i != id {
        assert w.seeds[i] in w.seeds && w.seeds[id] in w.seeds;
        assert !Working(s);
        if s.completed {
          PreparedKeeps(w.config, j, s.job);
        }
      }
    }
  }

  lemma OrderlyStep(h: Hash, w: World, a: Action)
    requires Orderly(w) && Act(h, w, a).Some?
    requires a.Start? ==> forall s | s in w.seeds :: Excludes(s.job, a.job) && Excludes(a.job, s.job)
    ensures Orderly(Act(h, w, a).value)
  {
    var w' := Act(h, w, a).value;
    hide Act, UpToDate, ServesJob, Turns, Apart, Exclusive;
    TurnsKept(h, w, a);
    ApartKept(h, w, a);
    ExclusiveKept(h, w, a);
    if a.Rename? {
      RenameStep(h, w, a.id);
      OrderlyRename(h, w, a.id);
    } else {
      forall s | s in w'.seeds
        ensures UpToDate(w', s) && (s.completed ==> ServesJob(w'.config, s.job))
      {
        var i :| 0 <= i < |w'.seeds| && w'.seeds[i] == s;
        if i < |w.seeds| {
          assert w.seeds[i] in w.seeds && UpToDate(w, w.seeds[i]);
        }
        SeedStep(h, w, a, i);
      }
    }
  }

  lemma RenameStep(h: Hash, w: World, id: nat)
    requires Act(h, w, Rename(id)).Some?
    ensures id < |w.seeds| && w.seeds[id].phase.Compared? && Act(h, w, Rename(id)) == ActOfSeed(h, w, id, Rename(id))
  {
  }

  /** Any other step leaves the configuration, every job and every completion as they were. */
  lemma SeedStep(h: Hash, w: World, a: Action, i: nat)
    requires Act(h, w, a).Some? && !a.Rename? && i < |Act(h, w, a).value.seeds|
    ensures var w' := Act(h, w, a).value;
            w'.config == w.config && |w.seeds| <= |w'.seeds| &&
            (if i < |w.seeds|
             then w'.seeds[i].job == w.seeds[i].job && w'.seeds[i].completed == w.seeds[i].completed &&
                  (UpToDate(w, w.seeds[i]) ==> UpToDate(w', w'.seeds[i]))
             else a.Start? && w'.seeds[i] == Seed(a.job, Opened, false) && UpToDate(w', w'.seeds[i]))
  {
    hide Prepared, Held, ValidJob, ActOfSeed;
    if !a.Start? {
      OwnStep(h, w, a.id, a);
    }
  }

  lemma OwnStep(h: Hash, w: World, id: nat, a: Action)
    requires id < |w.seeds| && ActOfSeed(h, w, id, a).Some? && !a.Rename?
    ensures var w' := ActOfSeed(h, w, id, a).value;
            w'.config == w.config && |w'.seeds| == |w.seeds| && w'.seeds == w.seeds[id := w'.seeds[id]] &&
            w'.seeds[id].job == w.seeds[id].job && w'.seeds[id].completed == w.seeds[id].completed &&
            (UpToDate(w, w.seeds[id]) ==> UpToDate(w', w'.seeds[id]))
  {
    hide Prepared, Held, ValidJob;
  }

  // ----- All histories -----

  predicate Fresh(w: World) {
    w.locks == map[] && w.seeds == []
  }

  ghost predicate History(h: Hash, ws: seq<World>, acts: seq<Action>) {
    && |ws| == |acts| + 1 && Fresh(ws[0])
    && forall i | 0 <= i < |acts| :: Act(h, ws[i], acts[i]) == Some(ws[i + 1])
  }

  lemma {:induction false} Kept(h: Hash, ws: seq<World>, acts: seq<Action>)
    requires History(h, ws, acts)
    ensures Inv(h, ws[|acts|], ws[0])
    decreases |acts|
  {
    if |acts| > 0 {
      hide Inv, Act;
      var m := |acts| - 1;
      Kept(h, ws[..|ws| - 1], acts[..m]);
      assert Act(h, ws[m], acts[m]) == Some(ws[m + 1]);
      StepKeeps(h, ws[m], acts[m], ws[0]);
    } else {
      forall block, e | block in ws[0].config && e in ws[0].config[block].held
        ensures Backed(h, ws[0], ws[0], block, e)
      {
        assert e in HeldOf(ws[0].config, block) && SameArtifact(e, e);
      }
    }
  }

  /** In every history, on any number of roots, no object is ever changed or
      removed, every one stored since the start has the digest it is named by, and
      the configuration has gained no entry but those whose object is held under
      the data root of a seed that asked for it; a completed seed's files are all held. */
  lemma HeldBeforeNamed(h: Hash, ws: seq<World>, acts: seq<Action>, i: nat, block: string, e: Entry)
    requires History(h, ws, acts) && i <= |acts|
    ensures forall k | k in ws[i].objects :: k in ws[|acts|].objects && ws[|acts|].objects[k] == ws[i].objects[k]
    ensures forall k | k in ws[|acts|].objects && k !in ws[0].objects :: h(ws[|acts|].objects[k]) == k.1
    ensures block in ws[|acts|].config && e in ws[|acts|].config[block].held &&
            !(exists f | f in HeldOf(ws[0].config, block) :: SameArtifact(f, e)) ==>
              e.objectKey == "operator-held/sha256/" + e.sha256 &&
              exists s | s in ws[|acts|].seeds ::
                Requested(s.job, block, e) && Held(h, ws[|acts|].objects, s.job.root, e.sha256)
    ensures forall s, d | s in ws[|acts|].seeds && s.completed && d in s.job.contents ::
              Held(h, ws[|acts|].objects, s.job.root, d)
  {
    Kept(h, ws, acts);
    ObjectsStay(h, ws, acts, i);
    if block in ws[|acts|].config && e in ws[|acts|].config[block].held {
      assert Backed(h, ws[|acts|], ws[0], block, e);
    }
  }

  lemma {:induction false} ObjectsStay(h: Hash, ws: seq<World>, acts: seq<Action>, i: nat)
    requires History(h, ws, acts) && i <= |acts|
    ensures forall k | k in ws[i].objects :: k in ws[|acts|].objects && ws[|acts|].objects[k] == ws[i].objects[k]
    decreases |acts| - i
  {
    if i < |acts| {
      hide Inv, Act;
      assert Act(h, ws[i], acts[i]) == Some(ws[i + 1]);
      Kept(h, ws[..i + 1], acts[..i]);
      StepKeeps(h, ws[i], acts[i], ws[0]);
      ObjectsStay(h, ws, acts, i + 1);
    }
  }

  /** While any two seeds exclude each other, the entries of a completed seed, with
      all their grants, are served ever after. */
  lemma {:induction false} CompletedIsServed(h: Hash, ws: seq<World>, acts: seq<Action>)
    requires History(h, ws, acts)
    requires forall a, b | a in acts && b in acts && a.Start? && b.Start? :: Excludes(a.job, b.job)
    ensures Orderly(ws[|acts|]) && forall s | s in ws[|acts|].seeds :: Start(s.job) in acts
    ensures forall s | s in ws[|acts|].seeds && s.completed :: ServesJob(ws[|acts|].config, s.job)
    decreases |acts|
  {
    if |acts| > 0 {
      hide Orderly, Act, Excludes;
      var m := |acts| - 1;
      forall a | a in acts[..m]
        ensures a in acts
      {
        var i :| 0 <= i < m && acts[..m][i] == a;
        assert acts[i] == a;
      }
      CompletedIsServed(h, ws[..|ws| - 1], acts[..m]);
      assert Act(h, ws[m], acts[m]) == Some(ws[m + 1]);
      assert acts[m] in acts;
      OrderlyStep(h, ws[m], acts[m]);
      OrderlyServes(ws[m + 1]);
      forall s | s in ws[m + 1].seeds
        ensures Start(s.job) in acts
      {
        StartedBy(h, ws[m], acts[m], s);
      }
    }
  }

  lemma StartedBy(h: Hash, w: World, a: Action, s: Seed)
    requires Act(h, w, a).Some? && s in Act(h, w, a).value.seeds
    ensures a == Start(s.job) || exists t | t in w.seeds :: t.job == s.job
  {
    hide Prepared, Held, ValidJob, ActOfSeed;
    var w' := Act(h, w, a).value;
    var i :| 0 <= i < |w'.seeds| && w'.seeds[i] == s;
    if !a.Start? {
      LockStep(h, w, a.id, a);
    }
    if i < |w.seeds| {
      assert w.seeds[i] in w.seeds;
    }
  }

  lemma OrderlyServes(w: World)
    requires Orderly(w)
    ensures forall s | s in w.seeds && s.completed :: ServesJob(w.config, s.job)
  {
  }

  // ----- Targets and other blocks -----

  /** Seed `id` compared in step `m`, and this is what its job makes of the configuration then. */
  ghost predicate ComparedAt(ws: seq<World>, acts: seq<Action>, id: nat, m: nat, job: Job, published: Config) {
    m < |acts| && |ws| == |acts| + 1 && acts[m] == Compare(id) && Prepared(ws[m].config, job) == Some(published)
  }

  ghost predicate AllCompared(ws: seq<World>, acts: seq<Action>) {
    |ws| == |acts| + 1 &&
    forall id | 0 <= id < |ws[|acts|].seeds| && ws[|acts|].seeds[id].phase.Compared? ::
      exists m: nat :: ComparedAt(ws, acts, id, m, ws[|acts|].seeds[id].job, ws[|acts|].seeds[id].phase.published)
  }

  /** Only its own comparison, of what it read with what is there, lets a seed publish. */
  lemma ComparedNow(h: Hash, w: World, a: Action, first: World, id: nat)
    requires Inv(h, w, first) && Act(h, w, a).Some? && id < |Act(h, w, a).value.seeds|
    requires Act(h, w, a).value.seeds[id].phase.Compared?
    ensures id < |w.seeds|
    ensures var s' := Act(h, w, a).value.seeds[id];
            if a == Compare(id) then Prepared(w.config, s'.job) == Some(s'.phase.published) else s' == w.seeds[id]
  {
    hide Prepared, Held, ValidJob, Merged, AllBacked, AllStored, Turns, DoStore, Others, Inside;
    assert id < |w.seeds| ==> w.seeds[id] in w.seeds && SeedInv(h, w, first, w.seeds[id]);
    if !a.Start? {
      LockStep(h, w, a.id, a);
      if a.Store? {
        StoreStores(h, w, a.id, a.digest);
      }
    }
  }

  lemma StoreStores(h: Hash, w: World, id: nat, digest: string)
    requires id < |w.seeds| && w.seeds[id].phase.Storing? && digest in w.seeds[id].job.contents
    ensures !DoStore(h, w, id, digest).seeds[id].phase.Compared?
  {
  }

  lemma {:induction false} ComparedBefore(h: Hash, ws: seq<World>, acts: seq<Action>)
    requires History(h, ws, acts)
    ensures AllCompared(ws, acts)
    decreases |acts|
  {
    hide Act, Inv, Prepared;
    if |acts| > 0 {
      var m := |acts| - 1;
      var vs, bs := ws[..|ws| - 1], acts[..m];
      ComparedBefore(h, vs, bs);
      Kept(h, vs, bs);
      assert Act(h, ws[m], acts[m]) == Some(ws[m + 1]);
      var last := ws[|acts|];
      forall id | 0 <= id < |last.seeds| && last.seeds[id].phase.Compared?
        ensures exists k: nat :: ComparedAt(ws, acts, id, k, last.seeds[id].job, last.seeds[id].phase.published)
      {
        var s := last.seeds[id];
        ComparedNow(h, ws[m], acts[m], ws[0], id);
        if acts[m] == Compare(id) {
          assert ComparedAt(ws, acts, id, m, s.job, s.phase.published);
        } else {
          var k: nat :| ComparedAt(vs, bs, id, k, s.job, s.phase.published);
          assert ComparedAt(ws, acts, id, k, s.job, s.phase.published);
        }
      }
    }
  }

  lemma {:induction false} ConfigStaysBetween(h: Hash, ws: seq<World>, acts: seq<Action>, m: nat, n: nat)
    requires History(h, ws, acts) && m <= n <= |acts| && forall k | m <= k < n :: !acts[k].Rename?
    ensures ws[n].config == ws[m].config
    decreases n - m
  {
    hide Act;
    if m < n {
      ConfigStaysBetween(h, ws, acts, m, n - 1);
      assert Act(h, ws[n - 1], acts[n - 1]) == Some(ws[n]);
      ConfigStays(h, ws[n - 1], acts[n - 1]);
    }
  }

  /** In every history, wherever the seeds are placed, a published configuration is
      the merge of what stood there at the seed's comparison: it is the merge of
      what it replaces, unless another seed published between the two. */
  lemma PublishedAsCompared(h: Hash, ws: seq<World>, acts: seq<Action>, n: nat, id: nat) returns (m: nat)
    requires History(h, ws, acts) && n < |acts| && acts[n] == Rename(id)
    ensures id < |ws[n].seeds| && m < n && acts[m] == Compare(id)
    ensures Prepared(ws[m].config, ws[n].seeds[id].job) == Some(ws[n + 1].config)
    ensures (forall k | m < k < n :: !acts[k].Rename?) ==> Prepared(ws[n].config, ws[n].seeds[id].job) == Some(ws[n + 1].config)
  {
    hide Act, Prepared;
    var vs, bs := ws[..n + 1], acts[..n];
    ComparedBefore(h, vs, bs);
    assert Act(h, ws[n], acts[n]) == Some(ws[n + 1]);
    RenameStep(h, ws[n], id);
    RenamePublishes(h, ws[n], id);
    m :| ComparedAt(vs, bs, id, m, ws[n].seeds[id].job, ws[n].seeds[id].phase.published);
    assert vs[m] == ws[m];
    if forall k | m < k < n :: !acts[k].Rename? {
      ConfigStaysBetween(h, ws, acts, m, n);
    }
  }

  /** Every block is still there, under the same target. */
  predicate SameTargets(c: Config, c': Config) {
    forall block | block in c :: block in c' && c'[block].targetKey == c[block].targetKey
  }

  /** A merge is refused for another target than the block's, or by its entries; it
      changes only its own block, which keeps its target, or gets the one given, or the default. */
  lemma PreparedExactly(c: Config, j: Job)
    ensures Prepared(c, j).None? <==>
            || (j.block in c && j.target.Some? && j.target.value != c[j.block].targetKey)
            || Merged(if j.block in c then c[j.block].held else [], j.entries, j.addGrants).None?
    ensures Prepared(c, j).Some? ==>
              var next := Prepared(c, j).value;
              next.Keys == c.Keys + {j.block} && (forall block | block in c && block != j.block :: next[block] == c[block]) &&
              (j.block in c ==> next[j.block].targetKey == c[j.block].targetKey) &&
              (j.block !in c && j.target.Some? ==> next[j.block].targetKey == j.target.value) &&
              (j.block !in c && j.target.None? ==> next[j.block].targetKey == j.defaultTarget) &&
              Some(next[j.block].held) == Merged(if j.block in c then c[j.block].held else [], j.entries, j.addGrants)
  {
    hide Merged;
  }

  predicate SeedTargets(first: Config, s: Seed) {
    match s.phase
    case Storing(text, next, _) => (text.Some? ==> SameTargets(first, text.value)) && (next.Some? ==> SameTargets(first, next.value))
    case Verified(text, next) => (text.Some? ==> SameTargets(first, text.value)) && (next.Some? ==> SameTargets(first, next.value))
    case Compared(published) => SameTargets(first, published)
    case _ => true
  }

  predicate AllTargets(first: Config, w: World) {
    SameTargets(first, w.config) && forall s | s in w.seeds :: SeedTargets(first, s)
  }

  lemma TargetsByStep(h: Hash, w: World, a: Action, first: Config)
    requires AllTargets(first, w) && Act(h, w, a).Some?
    ensures AllTargets(first, Act(h, w, a).value)
  {
    hide ActOfSeed, ValidJob, SameTargets;
    var w' := Act(h, w, a).value;
    if !a.Start? {
      TargetsBySeed(h, w, a.id, a, first);
      LockStep(h, w, a.id, a);
      forall s | s in w'.seeds
        ensures SeedTargets(first, s)
      {
        var i :| 0 <= i < |w'.seeds| && w'.seeds[i] == s;
        if i != a.id {
          assert w.seeds[i] in w.seeds;
        }
      }
    }
  }

  lemma TargetsBySeed(h: Hash, w: World, id: nat, a: Action, first: Config)
    requires AllTargets(first, w) && id < |w.seeds| && ActOfSeed(h, w, id, a).Some?
    ensures var w' := ActOfSeed(h, w, id, a).value;
            id < |w'.seeds| && SameTargets(first, w'.config) && SeedTargets(first, w'.seeds[id])
  {
    hide Prepared, Held, ValidJob, Others, Inside, Merged;
    var s := w.seeds[id];
    assert s in w.seeds;
    PreparedExactly(w.config, s.job);
  }

  lemma {:induction false} TargetsKept(h: Hash, ws: seq<World>, acts: seq<Action>)
    requires History(h, ws, acts)
    ensures AllTargets(ws[0].config, ws[|acts|])
    decreases |acts|
  {
    if |acts| > 0 {
      hide Act, AllTargets;
      var m := |acts| - 1;
      TargetsKept(h, ws[..|ws| - 1], acts[..m]);
      assert Act(h, ws[m], acts[m]) == Some(ws[m + 1]);
      TargetsByStep(h, ws[m], acts[m], ws[0].config);
    }
  }

  /** In every history the blocks of the first configuration stay, under their
      targets; while any two seeds exclude each other, so do those added since. */
  lemma {:induction false} TargetsStay(h: Hash, ws: seq<World>, acts: seq<Action>, i: nat)
    requires History(h, ws, acts) && i <= |acts|
    ensures SameTargets(ws[0].config, ws[|acts|].config)
    ensures (forall a, b | a in acts && b in acts && a.Start? && b.Start? :: Excludes(a.job, b.job)) ==>
              SameTargets(ws[i].config, ws[|acts|].config)
    decreases |acts| - i
  {
    hide Act, Orderly, Excludes;
    TargetsKept(h, ws, acts);
    if i < |acts| && forall a, b | a in acts && b in acts && a.Start? && b.Start? :: Excludes(a.job, b.job) {
      TargetsStay(h, ws, acts, i + 1);
      assert Act(h, ws[i], acts[i]) == Some(ws[i + 1]);
      var vs, bs := ws[..i + 1], acts[..i];
      forall a | a in bs
        ensures a in acts
      {
        var k :| 0 <= k < i && bs[k] == a;
        assert acts[k] == a;
      }
      CompletedIsServed(h, vs, bs);
      OrderlyTargets(h, ws[i], acts[i]);
    }
  }

  lemma OrderlyTargets(h: Hash, w: World, a: Action)
    requires Orderly(w) && Act(h, w, a).Some?
    ensures SameTargets(w.config, Act(h, w, a).value.config)
  {
    hide Act, Turns, Apart, Exclusive, ServesJob;
    if a.Rename? {
      RenameStep(h, w, a.id);
      assert w.seeds[a.id] in w.seeds;
      PublishedTargets(w, w.seeds[a.id]);
      RenamePublishes(h, w, a.id);
    } else {
      ConfigStays(h, w, a);
    }
  }

  lemma PublishedTargets(w: World, s: Seed)
    requires UpToDate(w, s) && s.phase.Compared?
    ensures SameTargets(w.config, s.phase.published)
  {
    hide Merged;
    PreparedExactly(w.config, s.job);
  }

  lemma RenamePublishes(h: Hash, w: World, id: nat)
    requires id < |w.seeds| && w.seeds[id].phase.Compared?
    ensures ActOfSeed(h, w, id, Rename(id)).Some?
    ensures ActOfSeed(h, w, id, Rename(id)).value.config == w.seeds[id].phase.published
  {
  }

  lemma ConfigStays(h: Hash, w: World, a: Action)
    requires Act(h, w, a).Some? && !a.Rename?
    ensures Act(h, w, a).value.config == w.config
  {
    hide Prepared, Held, ValidJob, ActOfSeed;
    if !a.Start? {
      OwnStep(h, w, a.id, a);
    }
  }

  // ----- Seeds that do not -----

  /** Where a seed works. */
  datatype Place = Place(root: Path, database: Path)

  /** A seed of one empty file. */
  function SmallJob(h: Hash, at: Place, url: string): Job {
    Job(at.root, at.database, "workerBundle", [SmallEntry(h, url)], map[h([]) := []], None, "local", false, true)
  }

  function SmallEntry(h: Hash, url: string): Entry {
    Entry(url, h([]), HeldObjectKey(h([])), [Grant("org:o", "o")])
  }

  function SmallConfig(h: Hash, url: string): Config {
    map["workerBundle" := Section("local", [SmallEntry(h, url)])]
  }

  lemma SmallPrepared(h: Hash, at: Place, url: string)
    ensures Prepared(map[], SmallJob(h, at, url)) == Some(SmallConfig(h, url)) && ValidJob(h, SmallJob(h, at, url))
  {
    var e := SmallEntry(h, url);
    var none: seq<Entry> := [];
    assert [e][..0] == none && none + [e] == [e];
    assert Find(none, KeyOf(e)) == 0;
    assert MergeOne(Merging(none, {}), e) == Some(Merging(none + [e], {}));
    assert MergeAll(none, none) == Some(Merging(none, {}));
    assert MergeAll(none, [e]) == MergeOne(Merging(none, {}), e);
    assert Merged([], [e], false) == Some([e]);
    assert SmallConfig(h, url) == map["workerBundle" := Section("local", [e])];
  }

  lemma SmallPlace(h: Hash, at: Place, url: string)
    ensures SmallJob(h, at, url).root == at.root && SmallJob(h, at, url).database == at.database
  {
  }

  predicate SameWorld(v: World, w: World) {
    v.locks == w.locks && v.objects == w.objects && v.config == w.config && v.seeds == w.seeds
  }

  lemma Then(h: Hash, ws: seq<World>, acts: seq<Action>, a: Action, w: World) returns (ws': seq<World>, acts': seq<Action>)
    requires History(h, ws, acts) && Act(h, ws[|acts|], a).Some? && SameWorld(Act(h, ws[|acts|], a).value, w)
    ensures History(h, ws', acts') && ws'[|acts'|] == w && ws'[0] == ws[0] && acts' == acts + [a]
  {
    hide Act;
    ws', acts' := ws + [w], acts + [a];
  }

  function SmallSeed(h: Hash, at: Place, url: string, done: set<string>): Seed {
    Seed(SmallJob(h, at, url), Storing(Some(map[]), Some(SmallConfig(h, url)), done), false)
  }

  predicate StartsOnly(acts: seq<Action>, j: Job, k: Job) {
    forall a | a in acts && a.Start? :: a.job == j || a.job == k
  }

  /** Both seeds are past their scans. */
  lemma BothCleared(h: Hash, one: Place, two: Place) returns (ws: seq<World>, acts: seq<Action>)
    requires one.database != two.database && !Inside(two.root, one.database)
    ensures History(h, ws, acts) && StartsOnly(acts, SmallJob(h, one, "a"), SmallJob(h, two, "b"))
    ensures ws[|acts|] == World(map[one.database := 0, two.database := 1], map[], map[],
                                [Seed(SmallJob(h, one, "a"), Scanning({}), false),
                                 Seed(SmallJob(h, two, "b"), Scanning({}), false)])
  {
    SmallPrepared(h, one, "a");
    SmallPrepared(h, two, "b");
    SmallPlace(h, one, "a");
    SmallPlace(h, two, "b");
    hide Prepared, SmallConfig, ValidJob, SmallJob, Inside;
    var start := World(map[], map[], map[], []);
    var j, k := Seed(SmallJob(h, one, "a"), Opened, false), Seed(SmallJob(h, two, "b"), Opened, false);
    var first := World(map[one.database := 0], map[], map[], [j]);
    var cleared := j.(phase := Scanning({}));
    var both := World(map[one.database := 0, two.database := 1], map[], map[], [cleared, k]);
    ws, acts := Then(h, [start], [], Start(j.job), first);
    assert Others(first.seeds, 0) == {};
    ws, acts := Then(h, ws, acts, List(0), first.(seeds := [cleared]));
    ws, acts := Then(h, ws, acts, Start(k.job), both);
    assert both.seeds[0] == cleared && Active(both.seeds[0]);
    assert Others(both.seeds, 1) == {0};
    ws, acts := Then(h, ws, acts, List(1), both.(seeds := [cleared, k.(phase := Scanning({0}))]));
    assert {0} - {0} == {};
    ws, acts := Then(h, ws, acts, Look(1, 0), both.(seeds := [cleared, k.(phase := Scanning({}))]));
  }

  /** Both seeds have read the same configuration. */
  lemma BothRead(h: Hash, one: Place, two: Place) returns (ws: seq<World>, acts: seq<Action>)
    requires one.database != two.database && !Inside(two.root, one.database)
    ensures History(h, ws, acts) && StartsOnly(acts, SmallJob(h, one, "a"), SmallJob(h, two, "b"))
    ensures ws[|acts|] == World(map[one.database := 0, two.database := 1], map[], map[],
                                [SmallSeed(h, one, "a", {}), SmallSeed(h, two, "b", {})])
  {
    SmallPrepared(h, one, "a");
    SmallPrepared(h, two, "b");
    hide Prepared, SmallConfig, ValidJob;
    ws, acts := BothCleared(h, one, two);
    var w := ws[|acts|];
    ws, acts := Then(h, ws, acts, Prepare(0), w.(seeds := [SmallSeed(h, one, "a", {}), w.seeds[1]]));
    ws, acts := Then(h, ws, acts, Prepare(1), w.(seeds := [SmallSeed(h, one, "a", {}), SmallSeed(h, two, "b", {})]));
  }

  function SmallObjects(h: Hash, one: Place, two: Place): map<(Path, string), Bytes> {
    map[(one.root, h([])) := []] + map[(two.root, h([])) := []]
  }

  /** One has stored its object. */
  lemma OneStored(h: Hash, one: Place, two: Place) returns (ws: seq<World>, acts: seq<Action>)
    requires one.database != two.database && !Inside(two.root, one.database)
    ensures History(h, ws, acts)
    ensures ws[|acts|] == World(map[one.database := 0, two.database := 1], map[(one.root, h([])) := []], map[],
                                [SmallSeed(h, one, "a", {h([])}), SmallSeed(h, two, "b", {})])
    ensures StartsOnly(acts, SmallJob(h, one, "a"), SmallJob(h, two, "b"))
  {
    hide Prepared, SmallConfig, ValidJob;
    var d := h([]);
    var nothing: set<string> := {};
    assert nothing + {d} == {d};
    ws, acts := BothRead(h, one, two);
    var w := ws[|acts|];
    ws, acts := Then(h, ws, acts, Store(0, d),
                     w.(objects := map[(one.root, d) := []],
                        seeds := [SmallSeed(h, one, "a", {d}), SmallSeed(h, two, "b", {})]));
  }

  /** Both have stored their objects. */
  lemma BothStored(h: Hash, one: Place, two: Place) returns (ws: seq<World>, acts: seq<Action>)
    requires one.database != two.database && !Inside(two.root, one.database)
    ensures History(h, ws, acts)
    ensures ws[|acts|] == World(map[one.database := 0, two.database := 1], SmallObjects(h, one, two), map[],
                                [SmallSeed(h, one, "a", {h([])}), SmallSeed(h, two, "b", {h([])})])
    ensures StartsOnly(acts, SmallJob(h, one, "a"), SmallJob(h, two, "b"))
  {
    hide Prepared, SmallConfig, ValidJob;
    var d := h([]);
    var nothing: set<string> := {};
    assert nothing + {d} == {d};
    ws, acts := OneStored(h, one, two);
    var w := ws[|acts|];
    ws, acts := Then(h, ws, acts, Store(1, d),
                     w.(objects := SmallObjects(h, one, two),
                        seeds := [SmallSeed(h, one, "a", {d}), SmallSeed(h, two, "b", {d})]));
  }

  /** Both have verified their objects. */
  lemma BothVerified(h: Hash, one: Place, two: Place) returns (ws: seq<World>, acts: seq<Action>)
    requires one.database != two.database && !Inside(two.root, one.database)
    ensures History(h, ws, acts) && ws[|acts|].config == map[]
    ensures ws[|acts|].seeds == [SmallSeed(h, one, "a", {}).(phase := Verified(Some(map[]), Some(SmallConfig(h, "a")))),
                                 SmallSeed(h, two, "b", {}).(phase := Verified(Some(map[]), Some(SmallConfig(h, "b"))))]
    ensures StartsOnly(acts, SmallJob(h, one, "a"), SmallJob(h, two, "b"))
  {
    ws, acts := BothStored(h, one, two);
    hide Prepared, SmallConfig, ValidJob, Inside, Others;
    var w := ws[|acts|];
    var d := h([]);
    var j, k := SmallSeed(h, one, "a", {d}), SmallSeed(h, two, "b", {d});
    var a, b := SmallConfig(h, "a"), SmallConfig(h, "b");
    assert j.job.contents.Keys == {d} && k.job.contents.Keys == {d};
    var verifiedJ, verifiedK := j.(phase := Verified(Some(map[]), Some(a))), k.(phase := Verified(Some(map[]), Some(b)));
    ws, acts := Then(h, ws, acts, ReadBack(0), w.(seeds := [verifiedJ, k]));
    ws, acts := Then(h, ws, acts, ReadBack(1), w.(seeds := [verifiedJ, verifiedK]));
  }

  /** Both have compared. */
  lemma BothCompared(h: Hash, one: Place, two: Place) returns (ws: seq<World>, acts: seq<Action>)
    requires one.database != two.database && !Inside(two.root, one.database)
    ensures History(h, ws, acts) && ws[|acts|].config == map[]
    ensures ws[|acts|].seeds == [SmallSeed(h, one, "a", {}).(phase := Compared(SmallConfig(h, "a"))),
                                 SmallSeed(h, two, "b", {}).(phase := Compared(SmallConfig(h, "b")))]
    ensures StartsOnly(acts, SmallJob(h, one, "a"), SmallJob(h, two, "b"))
  {
    ws, acts := BothVerified(h, one, two);
    hide Prepared, SmallConfig, ValidJob, Inside, Others, SmallJob, Held;
    var w := ws[|acts|];
    var j, k := w.seeds[0].(phase := Compared(SmallConfig(h, "a"))), w.seeds[1].(phase := Compared(SmallConfig(h, "b")));
    ws, acts := Then(h, ws, acts, Compare(0), w.(seeds := [j, w.seeds[1]]));
    ws, acts := Then(h, ws, acts, Compare(1), w.(seeds := [j, k]));
  }

  /** Any two seeds that do not exclude each other can lose the entries of the one
      that completed first: the comparison and the rename are two steps, and the
      lock is the database's, not the configuration's. */
  lemma OverlapLosesEntries(h: Hash, one: Place, two: Place) returns (ws: seq<World>, acts: seq<Action>, s: Seed)
    requires !Excludes(SmallJob(h, one, "a"), SmallJob(h, two, "b"))
    ensures History(h, ws, acts)
    ensures forall a | a in acts && a.Start? :: Place(a.job.root, a.job.database) in {one, two}
    ensures s in ws[|acts|].seeds && s.completed && !ServesJob(ws[|acts|].config, s.job)
  {
    if !Inside(two.root, one.database) {
      ws, acts, s := FirstIsLost(h, one, two);
    } else {
      ws, acts, s := FirstIsLost(h, two, one);
    }
  }

  lemma FirstIsLost(h: Hash, one: Place, two: Place) returns (ws: seq<World>, acts: seq<Action>, s: Seed)
    requires one.database != two.database && !Inside(two.root, one.database)
    ensures History(h, ws, acts)
    ensures forall a | a in acts && a.Start? :: Place(a.job.root, a.job.database) in {one, two}
    ensures s in ws[|acts|].seeds && s.completed && !ServesJob(ws[|acts|].config, s.job)
  {
    var j, k := SmallJob(h, one, "a"), SmallJob(h, two, "b");
    ws, acts := BothCompared(h, one, two);
    var w := ws[|acts|];
    var a, b := SmallConfig(h, "a"), SmallConfig(h, "b");
    var first := w.(config := a, seeds := w.seeds[0 := Seed(j, Written, true)]);
    var second := first.(config := b, seeds := first.seeds[1 := Seed(k, Written, true)]);
    ws, acts := Then(h, ws, acts, Rename(0), first);
    ws, acts := Then(h, ws, acts, Rename(1), second);
    s := second.seeds[0];
    assert KeyOf(b["workerBundle"].held[0]) != KeyOf(j.entries[0]);
    assert j.entries[0] in j.entries;
  }
}
