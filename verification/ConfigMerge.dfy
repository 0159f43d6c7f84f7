/** Merging the held artifacts of a seed into the operator's configuration. */
module ConfigMerge {
  import opened Values

  datatype Grant = Grant(principal: string, space: string)

  datatype Entry = Entry(url: string, sha256: string, objectKey: string, grants: seq<Grant>)

  /** The artifact an entry is about. */
  function KeyOf(e: Entry): (string, string) {
    (e.url, e.sha256)
  }

  /** A merge under way: the entries so far, and who got grants on entries already there. */
  datatype Merging = Merging(held: seq<Entry>, widened: set<string>)

  /** `find`: the first entry for an artifact, or the length. */
  function Find(held: seq<Entry>, key: (string, string)): (i: nat)
    ensures i <= |held| && (i < |held| ==> KeyOf(held[i]) == key)
    ensures forall j | 0 <= j < i :: KeyOf(held[j]) != key
  {
    if held == [] || KeyOf(held[0]) == key then 0 else 1 + Find(held[1..], key)
  }

  /** The wanted grants that are missing go to the end. */
  function AddGrants(grants: seq<Grant>, wanted: seq<Grant>): (r: seq<Grant>)
    decreases |wanted|
  {
    if wanted == [] then grants
    else
      var before := AddGrants(grants, wanted[..|wanted| - 1]);
      var last := wanted[|wanted| - 1];
      if last in before then before else before + [last]
  }

  function Added(grants: seq<Grant>, wanted: seq<Grant>): set<string>
    decreases |wanted|
  {
    if wanted == [] then {}
    else
      var before := Added(grants, wanted[..|wanted| - 1]);
      var last := wanted[|wanted| - 1];
      if last in AddGrants(grants, wanted[..|wanted| - 1]) then before else before + {last.principal}
  }

  /** One requested entry; none when the artifact is held as another object. */
  function MergeOne(m: Merging, e: Entry): Option<Merging> {
    var i := Find(m.held, KeyOf(e));
    if i == |m.held| then Some(Merging(m.held + [e], m.widened))
    else if m.held[i].objectKey != e.objectKey then None
    else Some(Merging(m.held[i := m.held[i].(grants := AddGrants(m.held[i].grants, e.grants))],
                      m.widened + Added(m.held[i].grants, e.grants)))
  }

  function MergeAll(existing: seq<Entry>, entries: seq<Entry>): Option<Merging>
    decreases |entries|
  {
    if entries == [] then Some(Merging(existing, {}))
    else
      var before := MergeAll(existing, entries[..|entries| - 1]);
      if before.None? then None else MergeOne(before.value, entries[|entries| - 1])
  }

  /** What the merge publishes, if it is not refused. */
  function Merged(existing: seq<Entry>, entries: seq<Entry>, addGrants: bool): Option<seq<Entry>> {
    var m := MergeAll(existing, entries);
    if m.None? || (m.value.widened != {} && !addGrants) then None else Some(m.value.held)
  }

  // ----- The loops -----

  method PushGrants(held: seq<Grant>, wanted: seq<Grant>, widened: set<string>)
    returns (grants: seq<Grant>, widened': set<string>)
    ensures grants == AddGrants(held, wanted) && widened' == widened + Added(held, wanted)
  {
    grants, widened' := held, widened;
    for n := 0 to |wanted|
      invariant grants == AddGrants(held, wanted[..n]) && widened' == widened + Added(held, wanted[..n])
    {
      assert wanted[..n + 1][..n] == wanted[..n];
      if wanted[n] !in grants {
        widened' := widened' + {wanted[n].principal};
        grants := grants + [wanted[n]];
      }
    }
    assert wanted[..|wanted|] == wanted;
  }

  /** The loop of `prepareConfigMerge` and its two refusals. */
  method Merge(existing: seq<Entry>, entries: seq<Entry>, addGrants: bool) returns (merged: Option<seq<Entry>>)
    ensures merged == Merged(existing, entries, addGrants)
  {
    var heldArtifacts := existing;
    var widened: set<string> := {};
    for n := 0 to |entries|
      invariant MergeAll(existing, entries[..n]) == Some(Merging(heldArtifacts, widened))
    {
      var entry := entries[n];
      assert entries[..n + 1][..n] == entries[..n];
      var found := Find(heldArtifacts, KeyOf(entry));
      if found == |heldArtifacts| {
        heldArtifacts := heldArtifacts + [entry];
        continue;
      }
      if heldArtifacts[found].objectKey != entry.objectKey {
        RefusedStays(existing, entries, n + 1);
        return None;
      }
      var grants, widened' := PushGrants(heldArtifacts[found].grants, entry.grants, widened);
      heldArtifacts := heldArtifacts[found := heldArtifacts[found].(grants := grants)];
      widened := widened';
    }
    assert entries[..|entries|] == entries;
    if widened != {} && !addGrants {
      return None;
    }
    return Some(heldArtifacts);
  }

  lemma {:induction false} RefusedStays(existing: seq<Entry>, entries: seq<Entry>, n: nat)
    requires n <= |entries| && MergeAll(existing, entries[..n]).None?
    ensures MergeAll(existing, entries).None?
    decreases |entries| - n
  {
    if n == |entries| {
      assert entries[..n] == entries;
    } else {
      assert entries[..n + 1][..n] == entries[..n];
      RefusedStays(existing, entries, n + 1);
    }
  }

  // ----- Grants -----

  lemma {:induction false} GrantsAdded(grants: seq<Grant>, wanted: seq<Grant>)
    ensures var r := AddGrants(grants, wanted);
            grants <= r && (forall g | g in wanted :: g in r) && (forall g | g in r :: g in grants || g in wanted)
    ensures Added(grants, wanted) == {} <==> AddGrants(grants, wanted) == grants
    ensures (forall g | g in wanted :: g in grants) ==> AddGrants(grants, wanted) == grants
    decreases |wanted|
  {
    if wanted != [] {
      var last := wanted[|wanted| - 1];
      assert wanted == wanted[..|wanted| - 1] + [last];
      GrantsAdded(grants, wanted[..|wanted| - 1]);
    }
  }

  // ----- What a merge does to the entries -----

  /** Entry `e` became `e'`: the same artifact and object, its grants first and in order. */
  predicate Extends(e: Entry, e': Entry) {
    KeyOf(e') == KeyOf(e) && e'.objectKey == e.objectKey && e.grants <= e'.grants
  }

  predicate KeepsAll(held: seq<Entry>, held': seq<Entry>) {
    |held| <= |held'| && forall i | 0 <= i < |held| :: Extends(held[i], held'[i])
  }

  /** The requested entry is there, as the same object, with all its grants. */
  predicate Serves(held: seq<Entry>, e: Entry) {
    exists i | 0 <= i < |held| ::
      KeyOf(held[i]) == KeyOf(e) && held[i].objectKey == e.objectKey && forall g | g in e.grants :: g in held[i].grants
  }

  predicate Unique(held: seq<Entry>) {
    forall i, j | 0 <= i < j < |held| :: KeyOf(held[i]) != KeyOf(held[j])
  }

  /** A grant on an artifact was there before or is requested. */
  predicate Justified(existing: seq<Entry>, entries: seq<Entry>, key: (string, string), g: Grant) {
    || (exists e | e in existing :: KeyOf(e) == key && g in e.grants)
    || (exists e | e in entries :: KeyOf(e) == key && g in e.grants)
  }

  predicate NothingElse(existing: seq<Entry>, entries: seq<Entry>, held: seq<Entry>) {
    && (forall e, g | e in held && g in e.grants :: Justified(existing, entries, KeyOf(e), g))
    && (forall e | e in held :: exists f :: f in existing + entries && KeyOf(f) == KeyOf(e) && f.objectKey == e.objectKey)
  }

  lemma OneKeeps(m: Merging, e: Entry)
    requires MergeOne(m, e).Some?
    ensures var m' := MergeOne(m, e).value;
            KeepsAll(m.held, m'.held) && Serves(m'.held, e) && (Unique(m.held) ==> Unique(m'.held)) &&
            m.widened <= m'.widened && (m'.widened == {} ==> m.held <= m'.held)
  {
    var i := Find(m.held, KeyOf(e));
    var m' := MergeOne(m, e).value;
    if i == |m.held| {
      assert m'.held[i] == e;
    } else {
      GrantsAdded(m.held[i].grants, e.grants);
      assert m'.held[i].grants == AddGrants(m.held[i].grants, e.grants);
      if m'.widened == {} {
        assert m'.held == m.held;
      }
    }
  }

  lemma KeepsServing(held: seq<Entry>, held': seq<Entry>, e: Entry)
    requires KeepsAll(held, held') && Serves(held, e)
    ensures Serves(held', e)
  {
    var i :| 0 <= i < |held| && KeyOf(held[i]) == KeyOf(e) && held[i].objectKey == e.objectKey &&
             forall g | g in e.grants :: g in held[i].grants;
    assert Extends(held[i], held'[i]);
    forall g | g in e.grants
      ensures g in held'[i].grants
    {
      assert g in held[i].grants;
    }
  }

  lemma KeepsTrans(a: seq<Entry>, b: seq<Entry>, c: seq<Entry>)
    requires KeepsAll(a, b) && KeepsAll(b, c)
    ensures KeepsAll(a, c)
  {
    forall i | 0 <= i < |a|
      ensures Extends(a[i], c[i])
    {
      assert Extends(a[i], b[i]) && Extends(b[i], c[i]);
    }
  }

  /** A merge keeps every existing entry and grant in its place, serves every
      requested entry with all its grants, and keeps artifacts unique; as long as
      nobody was widened, the existing entries are exactly the old ones. */
  lemma {:induction false} MergeKeeps(existing: seq<Entry>, entries: seq<Entry>)
    requires MergeAll(existing, entries).Some?
    ensures var m := MergeAll(existing, entries).value;
            KeepsAll(existing, m.held) && (forall e | e in entries :: Serves(m.held, e)) &&
            (Unique(existing) ==> Unique(m.held)) && (m.widened == {} ==> existing <= m.held)
    decreases |entries|
  {
    if entries != [] {
      hide MergeOne, KeepsAll, Serves, Unique;
      var n := |entries| - 1;
      MergeKeeps(existing, entries[..n]);
      var before := MergeAll(existing, entries[..n]).value;
      var m := MergeAll(existing, entries).value;
      OneKeeps(before, entries[n]);
      KeepsTrans(existing, before.held, m.held);
      forall e | e in entries
        ensures Serves(m.held, e)
      {
        if e != entries[n] {
          assert e in entries[..n];
          KeepsServing(before.held, m.held, e);
        }
      }
    } else {
      assert KeepsAll(existing, existing);
    }
  }

  lemma OneNothingElse(existing: seq<Entry>, entries: seq<Entry>, m: Merging, e: Entry)
    requires NothingElse(existing, entries, m.held) && MergeOne(m, e).Some?
    ensures NothingElse(existing, entries + [e], MergeOne(m, e).value.held)
  {
    var all := entries + [e];
    var m' := MergeOne(m, e).value;
    var i := Find(m.held, KeyOf(e));
    assert e in all && e in existing + all;
    assert forall f | f in entries :: f in all;
    assert forall f | f in existing + entries :: f in existing + all;
    forall f, g | f in m'.held && g in f.grants
      ensures Justified(existing, all, KeyOf(f), g)
    {
      if f in m.held {
        assert Justified(existing, entries, KeyOf(f), g);
      } else if i < |m.held| {
        assert f == m'.held[i] && m.held[i] in m.held;
        GrantsAdded(m.held[i].grants, e.grants);
        if g in m.held[i].grants {
          assert Justified(existing, entries, KeyOf(m.held[i]), g);
        }
      } else {
        assert f == e;
      }
    }
    forall f | f in m'.held
      ensures exists h :: h in existing + all && KeyOf(h) == KeyOf(f) && h.objectKey == f.objectKey
    {
      if f in m.held {
        var h :| h in existing + entries && KeyOf(h) == KeyOf(f) && h.objectKey == f.objectKey;
        assert h in existing + all;
      } else {
        assert KeyOf(e) == KeyOf(f) && e.objectKey == f.objectKey;
      }
    }
  }

  /** A merge adds no entry and no grant that was not requested. */
  lemma {:induction false} MergeAddsNothingElse(existing: seq<Entry>, entries: seq<Entry>)
    requires MergeAll(existing, entries).Some?
    ensures NothingElse(existing, entries, MergeAll(existing, entries).value.held)
    decreases |entries|
  {
    if entries != [] {
      hide MergeOne, NothingElse;
      var n := |entries| - 1;
      MergeAddsNothingElse(existing, entries[..n]);
      OneNothingElse(existing, entries[..n], MergeAll(existing, entries[..n]).value, entries[n]);
      assert entries[..n] + [entries[n]] == entries;
    } else {
      assert existing + [] == existing;
    }
  }

  lemma ServedAlready(held: seq<Entry>, widened: set<string>, e: Entry)
    requires Unique(held) && Serves(held, e)
    ensures MergeOne(Merging(held, widened), e) == Some(Merging(held, widened))
  {
    var i :| 0 <= i < |held| && KeyOf(held[i]) == KeyOf(e) && held[i].objectKey == e.objectKey &&
             forall g | g in e.grants :: g in held[i].grants;
    assert Find(held, KeyOf(e)) == i;
    GrantsAdded(held[i].grants, e.grants);
    assert held[i].(grants := AddGrants(held[i].grants, e.grants)) == held[i];
    assert held[i := held[i]] == held;
    assert widened + {} == widened;
  }

  lemma {:induction false} AllServedAlready(held: seq<Entry>, entries: seq<Entry>)
    requires Unique(held) && forall e | e in entries :: Serves(held, e)
    ensures MergeAll(held, entries) == Some(Merging(held, {}))
    decreases |entries|
  {
    if entries != [] {
      AllServedAlready(held, entries[..|entries| - 1]);
      ServedAlready(held, {}, entries[|entries| - 1]);
    }
  }

  /** Merging the same entries again changes nothing, whatever the flag. */
  lemma MergeIsIdempotent(existing: seq<Entry>, entries: seq<Entry>, addGrants: bool, again: bool)
    requires Unique(existing) && Merged(existing, entries, addGrants).Some?
    ensures var held := Merged(existing, entries, addGrants).value; Merged(held, entries, again) == Some(held)
  {
    hide KeepsAll, Serves, Unique;
    MergeKeeps(existing, entries);
    AllServedAlready(MergeAll(existing, entries).value.held, entries);
  }

  /** Without the flag no existing entry is ever touched. */
  lemma NoGrantsWithoutFlag(existing: seq<Entry>, entries: seq<Entry>)
    requires Merged(existing, entries, false).Some?
    ensures existing <= Merged(existing, entries, false).value
    ensures Merged(existing, entries, true) == Merged(existing, entries, false)
  {
    hide KeepsAll, Serves, Unique;
    MergeKeeps(existing, entries);
  }

  // ----- When it is refused -----

  /** The artifact is already held, or requested, as another object. */
  predicate Conflict(before: seq<Entry>, e: Entry) {
    var i := Find(before, KeyOf(e));
    i < |before| && before[i].objectKey != e.objectKey
  }

  /** A grant would be added to an entry that is already there. */
  predicate Widens(before: seq<Entry>, e: Entry) {
    var i := Find(before, KeyOf(e));
    i < |before| && exists g | g in e.grants :: g !in before[i].grants
  }

  /** What the merge holds for an artifact is its first entry, until a grant is added. */
  predicate Agrees(all: seq<Entry>, m: Merging, key: (string, string)) {
    var i, j := Find(all, key), Find(m.held, key);
    && (i < |all| <==> j < |m.held|)
    && (i < |all| ==>
          m.held[j].objectKey == all[i].objectKey && (m.widened == {} ==> m.held[j].grants == all[i].grants))
  }

  lemma FindSame(held: seq<Entry>, held': seq<Entry>, key: (string, string))
    requires |held| == |held'| && forall i | 0 <= i < |held| :: KeyOf(held[i]) == KeyOf(held'[i])
    ensures Find(held, key) == Find(held', key)
  {
  }

  lemma FindMore(held: seq<Entry>, e: Entry, key: (string, string))
    ensures Find(held, key) < |held| ==> Find(held + [e], key) == Find(held, key)
    ensures Find(held, key) == |held| ==> Find(held + [e], key) == if KeyOf(e) == key then |held| else |held| + 1
  {
    var i, j := Find(held + [e], key), Find(held, key);
    assert forall k | 0 <= k < |held| :: (held + [e])[k] == held[k];
    assert (held + [e])[|held|] == e;
  }

  lemma OneAgrees(all: seq<Entry>, m: Merging, e: Entry, key: (string, string))
    requires Agrees(all, m, key) && MergeOne(m, e).Some?
    ensures Agrees(all + [e], MergeOne(m, e).value, key)
  {
    FindMore(all, e, key);
    var m' := MergeOne(m, e).value;
    var i := Find(m.held, KeyOf(e));
    if i == |m.held| {
      FindMore(m.held, e, key);
    } else {
      FindSame(m.held, m'.held, key);
      GrantsAdded(m.held[i].grants, e.grants);
    }
  }

  lemma {:induction false} FirstAgrees(existing: seq<Entry>, entries: seq<Entry>, key: (string, string))
    requires MergeAll(existing, entries).Some?
    ensures Agrees(existing + entries, MergeAll(existing, entries).value, key)
    decreases |entries|
  {
    if entries == [] {
      assert existing + entries == existing;
    } else {
      hide MergeOne, Agrees;
      var n := |entries| - 1;
      FirstAgrees(existing, entries[..n], key);
      OneAgrees(existing + entries[..n], MergeAll(existing, entries[..n]).value, entries[n], key);
      assert existing + entries[..n] + [entries[n]] == existing + entries;
    }
  }

  /** The merge is refused exactly when an artifact is requested that is already
      held, or requested before, as another object, or, without the flag, when a
      requested grant is missing from the first entry of its artifact. */
  lemma WhenRefused(existing: seq<Entry>, entries: seq<Entry>, addGrants: bool)
    ensures Merged(existing, entries, addGrants).None? <==>
            || (exists n | 0 <= n < |entries| :: Conflict(existing + entries[..n], entries[n]))
            || (!addGrants && exists n | 0 <= n < |entries| :: Widens(existing + entries[..n], entries[n]))
  {
    hide Conflict, Widens;
    LoopRefusals(existing, entries);
  }

  lemma {:induction false} LoopRefusals(existing: seq<Entry>, entries: seq<Entry>)
    ensures MergeAll(existing, entries).None? <==>
            exists n | 0 <= n < |entries| :: Conflict(existing + entries[..n], entries[n])
    ensures MergeAll(existing, entries).Some? ==>
              (MergeAll(existing, entries).value.widened == {} <==>
               forall n | 0 <= n < |entries| :: !Widens(existing + entries[..n], entries[n]))
    decreases |entries|
  {
    hide Conflict, Widens, MergeOne;
    if entries != [] {
      var m := |entries| - 1;
      var before := MergeAll(existing, entries[..m]);
      LoopRefusals(existing, entries[..m]);
      assert forall n | 0 <= n < m :: entries[..m][..n] == entries[..n];
      if before.Some? {
        FirstAgrees(existing, entries[..m], KeyOf(entries[m]));
        OneRefused(existing + entries[..m], before.value, entries[m]);
      }
    }
  }

  lemma OneRefused(all: seq<Entry>, m: Merging, e: Entry)
    requires Agrees(all, m, KeyOf(e))
    ensures MergeOne(m, e).None? <==> Conflict(all, e)
    ensures MergeOne(m, e).Some? ==> (MergeOne(m, e).value.widened == {} <==> m.widened == {} && !Widens(all, e))
  {
    var i := Find(m.held, KeyOf(e));
    if i < |m.held| {
      GrantsAdded(m.held[i].grants, e.grants);
    }
  }
}
