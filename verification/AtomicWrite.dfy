/** The two directory operations of the credential client, with a failure or a
    crash possible at every file-system step. */
module AtomicWrite {

  /** A directory: what each name links to, what each file holds, which files
      are flushed, the names as last flushed, and the next file number. */
  datatype State = State(names: map<string, nat>, contents: map<nat, string>, flushed: set<nat>, platter: map<string, nat>, next: nat)

  predicate Sound(s: State) {
    && (forall name | name in s.names :: s.names[name] in s.contents)
    && (forall file | file in s.contents :: file < s.next)
  }

  function WithText(s: State, file: nat, text: string): State {
    s.(contents := s.contents[file := text])
  }

  /** What reading `name` gives. */
  function Read(s: State, name: string): (text: string)
    requires Sound(s) && name in s.names
  {
    s.contents[s.names[name]]
  }

  /** Reading `name` gives the same in both states, or fails in both. */
  predicate SameFile(s: State, t: State, name: string)
    requires Sound(s) && Sound(t)
  {
    (name in s.names <==> name in t.names) && (name in s.names ==> Read(s, name) == Read(t, name))
  }

  /** `name` is absent, or holds all of `text` for good. */
  predicate AbsentOrComplete(s: State, name: string, text: string)
    requires Sound(s)
  {
    name in s.names ==> Read(s, name) == text && s.names[name] in s.flushed
  }

  /** A state a crash may leave while `text` is written to `path`. */
  ghost predicate Harmless(before: State, s: State, path: string, temp: string, text: string)
    requires Sound(before)
  {
    && Sound(s)
    && (forall name | name != path && name != temp :: SameFile(before, s, name))
    && (if path in before.names then SameFile(before, s, path) else AbsentOrComplete(s, path, text))
  }

  /** While `text` is written through the new `file`. */
  ghost predicate Underway(before: State, s: State, path: string, temp: string, text: string, file: nat)
    requires Sound(before)
  {
    && Sound(s) && file !in before.contents && file in s.contents
    && s.contents == before.contents[file := s.contents[file]]
    && (forall name | name != path && name != temp :: name in s.names <==> name in before.names)
    && (forall name | name != path && name != temp && name in s.names :: s.names[name] == before.names[name])
    && (temp in s.names ==> s.names[temp] == file)
    && (if path in before.names then path in s.names && s.names[path] == before.names[path]
        else path in s.names ==> s.names[path] == file && s.contents[file] == text && file in s.flushed)
  }

  lemma UnderwayHarmless(before: State, s: State, path: string, temp: string, text: string, file: nat)
    requires Sound(before) && Underway(before, s, path, temp, text, file)
    ensures Harmless(before, s, path, temp, text)
  {
  }

  /** How each step changes a state underway. */
  lemma TextUnderway(before: State, s: State, path: string, temp: string, text: string, file: nat, part: string)
    requires Sound(before) && Underway(before, s, path, temp, text, file)
    requires path in s.names ==> path in before.names
    ensures Underway(before, WithText(s, file, part), path, temp, text, file)
  {
  }

  lemma UnlinkUnderway(before: State, s: State, path: string, temp: string, text: string, file: nat, name: string)
    requires Sound(before) && Underway(before, s, path, temp, text, file) && temp != path
    requires name == temp || (name == path && path !in before.names)
    ensures Underway(before, s.(names := s.names - {name}), path, temp, text, file)
  {
  }

  lemma LinkUnderway(before: State, s: State, path: string, temp: string, text: string, file: nat)
    requires Sound(before) && Underway(before, s, path, temp, text, file) && temp != path
    requires path !in before.names && temp in s.names && s.contents[file] == text && file in s.flushed
    ensures Underway(before, s.(names := s.names[path := s.names[temp]]), path, temp, text, file)
  {
  }

  lemma FlushUnderway(before: State, s: State, path: string, temp: string, text: string, file: nat)
    requires Sound(before) && Underway(before, s, path, temp, text, file)
    ensures Underway(before, s.(flushed := s.flushed + {file}), path, temp, text, file)
    ensures Underway(before, s.(platter := s.names), path, temp, text, file)
  {
  }

  lemma UnderwaySound(before: State, s: State, path: string, temp: string, text: string, file: nat)
    requires Sound(before) && Underway(before, s, path, temp, text, file)
    ensures Sound(s) && file in s.contents
    ensures path in before.names ==> path in s.names
  {
  }

  class Directory {
    var now: State
    /** Every state since the start: what a crash could have left. */
    ghost var seen: set<State>
    /** How many steps failed. */
    ghost var faults: nat

    ghost predicate Valid()
      reads this
    {
      Sound(now) && now in seen
    }

    /** The step left exactly this state behind. */
    twostate predicate Stepped(next: State)
      reads this
    {
      now == next && seen == old(seen) + {next}
    }

    method Step(next: State)
      requires Valid() && Sound(next)
      modifies this
      ensures Valid() && Stepped(next) && faults == old(faults)
    {
      now := next;
      seen := seen + {next};
    }

    method Fault()
      requires Valid()
      modifies this
      ensures Valid() && Stepped(old(now)) && faults == old(faults) + 1
    {
      faults := faults + 1;
      seen := seen + {now};
    }

    /** `openSync` with flag "wx". */
    method Create(name: string) returns (ok: bool, file: nat)
      requires Valid()
      modifies this
      ensures Valid() && faults >= old(faults)
      ensures ok ==> name !in old(now).names && file !in old(now).contents &&
                     Stepped(old(now).(names := old(now).names[name := file], contents := old(now).contents[file := ""],
                                       flushed := old(now).flushed - {file}, next := file + 1))
      ensures !ok ==> Stepped(old(now))
      ensures faults == old(faults) ==> (ok <==> name !in old(now).names)
    {
      file := 0;
      if * {
        Fault();
        return false, 0;
      }
      if name in now.names {
        Step(now);
        return false, 0;
      }
      file := now.next;
      Step(now.(names := now.names[name := file], contents := now.contents[file := ""],
                flushed := now.flushed - {file}, next := file + 1));
      ok := true;
    }

    /** `writeFileSync`: some bytes at a time. */
    method WriteAll(file: nat, text: string) returns (ok: bool)
      requires Valid() && file in now.contents && now.contents[file] == ""
      modifies this
      ensures Valid() && faults >= old(faults) && (faults == old(faults) ==> ok)
      ensures exists n | 0 <= n <= |text| :: now == WithText(old(now), file, text[..n])
      ensures ok ==> now == WithText(old(now), file, text)
      ensures old(seen) <= seen
      ensures forall s | s in seen && s !in old(seen) ::
                exists n | 0 <= n <= |text| :: s == WithText(old(now), file, text[..n])
    {
      var done: nat := 0;
      assert now == WithText(now, file, text[..0]);
      while done < |text|
        invariant Valid() && done <= |text| && faults == old(faults)
        invariant now == WithText(old(now), file, text[..done])
        invariant old(seen) <= seen
        invariant forall s | s in seen && s !in old(seen) ::
                    exists n | 0 <= n <= |text| :: s == WithText(old(now), file, text[..n])
      {
        if * {
          Fault();
          return false;
        }
        var count: nat :| 0 < count <= |text| - done;
        done := done + count;
        Step(WithText(now, file, text[..done]));
      }
      assert text[..done] == text;
      ok := true;
    }

    /** `fsyncSync` of a file. */
    method Flush(file: nat) returns (ok: bool)
      requires Valid()
      modifies this
      ensures Valid() && faults >= old(faults) && (faults == old(faults) ==> ok)
      ensures Stepped(if ok then old(now).(flushed := old(now).flushed + {file}) else old(now))
    {
      if * {
        Fault();
        return false;
      }
      Step(now.(flushed := now.flushed + {file}));
      ok := true;
    }

    /** `linkSync`: refuses an existing name. */
    method Link(source: string, target: string) returns (ok: bool)
      requires Valid()
      modifies this
      ensures Valid() && faults >= old(faults)
      ensures ok ==> source in old(now).names && target !in old(now).names &&
                     Stepped(old(now).(names := old(now).names[target := old(now).names[source]]))
      ensures !ok ==> Stepped(old(now))
      ensures faults == old(faults) ==> (ok <==> source in old(now).names && target !in old(now).names)
    {
      if * {
        Fault();
        return false;
      }
      if source !in now.names || target in now.names {
        Step(now);
        return false;
      }
      Step(now.(names := now.names[target := now.names[source]]));
      ok := true;
    }

    /** `unlinkSync`: removes a name, not the file other names share. */
    method Unlink(name: string) returns (ok: bool)
      requires Valid()
      modifies this
      ensures Valid() && faults >= old(faults)
      ensures ok ==> name in old(now).names && Stepped(old(now).(names := old(now).names - {name}))
      ensures !ok ==> Stepped(old(now))
      ensures faults == old(faults) ==> (ok <==> name in old(now).names)
    {
      if * {
        Fault();
        return false;
      }
      if name !in now.names {
        Step(now);
        return false;
      }
      Step(now.(names := now.names - {name}));
      ok := true;
    }

    /** `fsyncSync` of the directory. */
    method FlushNames() returns (ok: bool)
      requires Valid()
      modifies this
      ensures Valid() && faults >= old(faults) && (faults == old(faults) ==> ok)
      ensures Stepped(if ok then old(now).(platter := old(now).names) else old(now))
    {
      if * {
        Fault();
        return false;
      }
      Step(now.(platter := now.names));
      ok := true;
    }

    /** A check of the published file, which may fail. */
    method Check() returns (ok: bool)
      requires Valid()
      modifies this
      ensures Valid() && Stepped(old(now)) && faults >= old(faults) && (faults == old(faults) ==> ok)
    {
      if * {
        Fault();
        return false;
      }
      Step(now);
      ok := true;
    }

    /** `publishNoReplace` */
    method PublishNoReplace(temp: string, path: string, ghost before: State, ghost text: string, ghost file: nat)
      returns (ok: bool)
      requires Valid() && Sound(before) && temp != path && Underway(before, now, path, temp, text, file)
      requires path in before.names <==> path in now.names
      requires now.contents[file] == text && file in now.flushed && temp in now.names
      modifies this
      ensures Valid() && faults >= old(faults)
      ensures old(seen) <= seen
      ensures forall s | s in seen :: s in old(seen) || Underway(before, s, path, temp, text, file)
      ensures Underway(before, now, path, temp, text, file)
      ensures ok ==> path !in before.names && path in now.names && temp !in now.names
      ensures faults == old(faults) ==> (ok <==> path !in before.names)
      // A link that is not kept goes again, unless that fails too.
      ensures faults == old(faults) ==> temp !in now.names
      ensures faults <= old(faults) + 1 && !ok ==> (path in now.names <==> path in before.names)
    {
      hide Underway, Sound;
      if path !in before.names {
        LinkUnderway(before, now, path, temp, text, file);
      }
      var linked := Link(temp, path);
      UnlinkUnderway(before, now, path, temp, text, file, temp);
      if linked {
        ok := Unlink(temp);
        if ok {
          return;
        }
        UnlinkUnderway(before, now, path, temp, text, file, path);
        var undone := Unlink(path);
        UnlinkUnderway(before, now, path, temp, text, file, temp);
      }
      ok := false;
      var removed := Unlink(temp);
    }

    /** `atomicWrite`: whatever fails, and wherever it stops, a file that existed
        is untouched and one it made is complete and flushed; if nothing fails it
        writes exactly when the path (and the temporary name) is free. */
    method Write(path: string, temp: string, text: string) returns (ok: bool)
      requires Valid() && temp != path
      modifies this
      ensures Valid() && faults >= old(faults)
      ensures old(seen) <= seen
      ensures forall s | s in seen :: s in old(seen) || Harmless(old(now), s, path, temp, text)
      ensures Harmless(old(now), now, path, temp, text)
      ensures ok ==> path !in old(now).names && path in now.names && temp !in now.names && now.platter == now.names
      ensures faults == old(faults) ==> (ok <==> path !in old(now).names && temp !in old(now).names)
      ensures faults == old(faults) || (faults == old(faults) + 1 && temp !in old(now).names) ==> temp !in now.names
    {
      ghost var before := now;
      var created, file := Create(temp);
      if created {
        ok := WriteNew(path, temp, text, file, before);
        return;
      }
      ok := false;
      var removed := Unlink(temp);
    }

    /** The rest of `atomicWrite`, once the temporary file exists. */
    method WriteNew(path: string, temp: string, text: string, file: nat, ghost before: State) returns (ok: bool)
      requires Valid() && Sound(before) && temp != path && Underway(before, now, path, temp, text, file)
      requires path in before.names <==> path in now.names
      requires now.contents[file] == "" && temp in now.names
      modifies this
      ensures Valid() && faults >= old(faults)
      ensures old(seen) <= seen
      ensures forall s | s in seen :: s in old(seen) || Harmless(before, s, path, temp, text)
      ensures Harmless(before, now, path, temp, text)
      ensures ok ==> path !in before.names && path in now.names && temp !in now.names && now.platter == now.names
      ensures faults == old(faults) ==> (ok <==> path !in before.names)
      ensures faults <= old(faults) + 1 ==> temp !in now.names
    {
      hide Harmless, Underway, Sound;
      UnderwaySound(before, now, path, temp, text, file);
      ok := Fill(path, temp, text, file, before);
      if ok {
        ok := PublishNoReplace(temp, path, before, text, file);
        FlushUnderway(before, now, path, temp, text, file);
      }
      if ok {
        ok := Check();
      }
      if ok {
        ok := FlushNames();
      }
      if !ok {
        UnlinkUnderway(before, now, path, temp, text, file, temp);
        var removed := Unlink(temp);
      }
      UnderwayHarmless(before, now, path, temp, text, file);
      forall s | s in seen && s !in old(seen)
        ensures Harmless(before, s, path, temp, text)
      {
        UnderwayHarmless(before, s, path, temp, text, file);
      }
    }

    /** The contents are written and flushed under the temporary name. */
    method Fill(path: string, temp: string, text: string, file: nat, ghost before: State) returns (ok: bool)
      requires Valid() && Sound(before) && Underway(before, now, path, temp, text, file)
      requires path in before.names <==> path in now.names
      requires now.contents[file] == ""
      modifies this
      ensures Valid() && faults >= old(faults) && (faults == old(faults) ==> ok)
      ensures old(seen) <= seen && now.names == old(now).names
      ensures forall s | s in seen :: s in old(seen) || Underway(before, s, path, temp, text, file)
      ensures Underway(before, now, path, temp, text, file)
      ensures ok ==> file in now.contents && now.contents[file] == text && file in now.flushed
    {
      hide Underway, Sound;
      UnderwaySound(before, now, path, temp, text, file);
      forall part
        ensures Underway(before, WithText(now, file, part), path, temp, text, file)
      {
        TextUnderway(before, now, path, temp, text, file, part);
      }
      ok := WriteAll(file, text);
      FlushUnderway(before, now, path, temp, text, file);
      if ok {
        ok := Flush(file);
      }
    }

    /** `removeCredentialFiles` (the paths were checked to be the expected ones):
        it never touches another name, and it reports success only when every one
        of the paths is gone, which is so whenever nothing fails. */
    method RemoveAll(paths: seq<string>) returns (complete: bool)
      requires Valid()
      modifies this
      ensures Valid() && faults >= old(faults)
      ensures complete ==> forall p | p in paths :: p !in now.names
      ensures faults == old(faults) ==> complete
      ensures forall name | name !in paths :: name in now.names <==> name in old(now).names
      ensures forall name | name in now.names :: name in old(now).names && now.names[name] == old(now).names[name]
      ensures now.contents == old(now).contents
    {
      complete := true;
      for i := 0 to |paths|
        invariant Valid() && faults >= old(faults) && (faults == old(faults) ==> complete)
        invariant faults == old(faults) ==> forall p | p in paths[..i] :: p !in now.names
        invariant forall name | name !in paths :: name in now.names <==> name in old(now).names
        invariant forall name | name in now.names :: name in old(now).names && now.names[name] == old(now).names[name]
        invariant now.contents == old(now).contents
      {
        var inspected := Check();
        if !inspected {
          complete := false;
        } else if paths[i] in now.names {
          var removed := Unlink(paths[i]);
          complete := complete && removed && paths[i] !in now.names;
        }
      }
      for i := 0 to |paths|
        invariant Valid() && faults >= old(faults) && (faults == old(faults) ==> complete)
        invariant faults == old(faults) ==> forall p | p in paths :: p !in now.names
        invariant complete ==> forall p | p in paths[..i] :: p !in now.names
        invariant forall name | name !in paths :: name in now.names <==> name in old(now).names
        invariant forall name | name in now.names :: name in old(now).names && now.names[name] == old(now).names[name]
        invariant now.contents == old(now).contents
      {
        var inspected := Check();
        if !inspected || paths[i] in now.names {
          complete := false;
        }
      }
    }
  }
}
