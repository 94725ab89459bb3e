/** Undisturbed deletion passes, step by step: from the reading of an outbox row to its end. */
module CleanupPasses {
  import opened Wrappers
  import opened UploadRows
  import opened ObjectStore
  import opened UploadProtocol
  import Uploads

  // Deletion number j of all versions of `key`, with so many still to go.
  predicate Working(s: State, j: nat, kind: Kind, key: Key, todo: seq<VersionId>) {
    j in s.jobs && s.jobs[j] == Job(kind, key, Deleting(todo))
  }

  // Only the objects under `key` and the job itself differ.
  ghost predicate OnlyKey(s: State, t: State, j: nat, key: Key) {
    && t == s.(tables := t.tables, store := t.store, jobs := t.jobs)
    && t.tables == s.tables.(outbox := t.tables.outbox, fileOutbox := t.tables.fileOutbox)
    && (forall k :: k != key ==> At(t.store, k) == At(s.store, k))
    && (forall i :: i != j ==> (i in t.jobs <==> i in s.jobs) && (i in s.jobs ==> t.jobs[i] == s.jobs[i]))
  }

  function Deletes(j: nat, n: nat): seq<Action> {
    if n == 0 then [] else [DeleteNext(j)] + Deletes(j, n - 1)
  }

  lemma DeleteOne(s: State, j: nat, kind: Kind, key: Key, todo: seq<VersionId>)
    requires Working(s, j, kind, key, todo) && todo != []
    ensures Next(s, DeleteNext(j))
         == s.(store := DeleteVersion(s.store, key, todo[0]), jobs := s.jobs[j := Job(kind, key, Deleting(todo[1..]))])
  {
    hide DeleteVersion;
  }

  // The listed versions go, one by one, and nothing else changes.
  lemma {:induction false} DeletesAll(s: State, j: nat, kind: Kind, key: Key, todo: seq<VersionId>)
    requires Working(s, j, kind, key, todo)
    requires forall o :: o in At(s.store, key) ==> o.version in todo
    ensures var t := Run(s, Deletes(j, |todo|));
            Working(t, j, kind, key, []) && At(t.store, key) == [] && OnlyKey(s, t, j, key) && t.tables == s.tables
    decreases |todo|
  {
    hide Next, Without;
    if todo == [] {
      FirstIsIn(At(s.store, key));
    } else {
      DeleteOne(s, j, kind, key, todo);
      var s1 := Next(s, DeleteNext(j));
      assert todo == [todo[0]] + todo[1..];
      DeletesAll(s1, j, kind, key, todo[1..]);
      assert Deletes(j, |todo|)[1..] == Deletes(j, |todo| - 1);
    }
  }

  // The listing names every version under the key.
  lemma ListNext(s: State, j: nat, kind: Kind, key: Key)
    requires j in s.jobs && s.jobs[j] == Job(kind, key, Listing)
    ensures Next(s, List(j)) == s.(jobs := s.jobs[j := Job(kind, key, Deleting(Versions(s.store, key)))])
    ensures forall o :: o in At(s.store, key) ==> o.version in Versions(s.store, key)
  {
    forall o | o in At(s.store, key) ensures o.version in Versions(s.store, key) {
      var i :| 0 <= i < |At(s.store, key)| && At(s.store, key)[i] == o;
      assert Versions(s.store, key)[i] == o.version;
    }
  }

  lemma ReadEntryNext(s: State, j: nat, key: Key, now: Time)
    requires j !in s.jobs && key in s.tables.outbox && s.tables.outbox[key].notBefore <= now
    ensures Next(s, ReadEntry(j, key, now)) == s.(jobs := s.jobs[j := Job(OfEntry(s.tables.outbox[key].id), key, Listing)])
  {
  }

  lemma ReadFileEntryNext(s: State, j: nat, f: FileId)
    requires j !in s.jobs && f in s.tables.fileOutbox
    ensures Next(s, ReadFileEntry(j, f)) == s.(jobs := s.jobs[j := Job(OfFile(f), s.tables.fileOutbox[f], Listing)])
  {
  }

  // The last steps: the recheck finds nothing and the row goes.
  lemma EndsEntry(s: State, j: nat, id: nat, key: Key)
    requires Working(s, j, OfEntry(id), key, []) && At(s.store, key) == []
    requires key in s.tables.outbox && s.tables.outbox[key].id == id
    ensures Next(Next(s, DeleteNext(j)), Recheck(j))
         == s.(tables := s.tables.(outbox := s.tables.outbox - {key}), jobs := s.jobs[j := Job(OfEntry(id), key, Over)])
  {
    var s1 := Next(s, DeleteNext(j));
    assert s1 == s.(jobs := s.jobs[j := Job(OfEntry(id), key, Rechecking)]);
  }

  lemma EndsFile(s: State, j: nat, f: FileId, key: Key)
    requires Working(s, j, OfFile(f), key, [])
    ensures Next(s, DeleteNext(j))
         == s.(tables := s.tables.(fileOutbox := s.tables.fileOutbox - {f}), jobs := s.jobs[j := Job(OfFile(f), key, Over)])
  {
  }

  // The steps of a pass over one row: read it, list the versions, delete them, and what comes after.
  function Pass(read: Action, j: nat, n: nat, last: seq<Action>): seq<Action> {
    [read, List(j)] + Deletes(j, n) + last
  }

  lemma RunPass(s: State, read: Action, j: nat, n: nat, last: seq<Action>)
    ensures Run(s, Pass(read, j, n, last)) == Run(Run(Next(Next(s, read), List(j)), Deletes(j, n)), last)
  {
    hide Next, Deletes, Run;
    Uploads.RunAppend(s, [read, List(j)] + Deletes(j, n), last);
    Uploads.RunAppend(s, [read, List(j)], Deletes(j, n));
    Uploads.RunTwo(s, read, List(j));
  }

  // The steps of a pass over the outbox row of `key`.
  function EntryPass(s: State, j: nat, key: Key, now: Time): seq<Action> {
    Pass(ReadEntry(j, key, now), j, |Versions(s.store, key)|, [DeleteNext(j), Recheck(j)])
  }

  // From the moment its row falls due, an undisturbed pass empties the key and drops the row, and
  // changes nothing under any other key.
  lemma EntryPassDrains(s: State, j: nat, key: Key, now: Time)
    requires j !in s.jobs && key in s.tables.outbox && s.tables.outbox[key].notBefore <= now
    ensures var t := Run(s, EntryPass(s, j, key, now));
            && At(t.store, key) == [] && OnlyKey(s, t, j, key)
            && t.tables == s.tables.(outbox := s.tables.outbox - {key})
  {
    hide Next, Run, Deletes, Versions;
    var id, n := s.tables.outbox[key].id, |Versions(s.store, key)|;
    RunPass(s, ReadEntry(j, key, now), j, n, [DeleteNext(j), Recheck(j)]);
    ReadEntryNext(s, j, key, now);
    var s1 := Next(s, ReadEntry(j, key, now));
    ListNext(s1, j, OfEntry(id), key);
    var s2 := Next(s1, List(j));
    DeletesAll(s2, j, OfEntry(id), key, Versions(s.store, key));
    var s3 := Run(s2, Deletes(j, n));
    EndsEntry(s3, j, id, key);
    Uploads.RunTwo(s3, DeleteNext(j), Recheck(j));
  }

  function FilePass(s: State, j: nat, f: FileId): seq<Action>
    requires f in s.tables.fileOutbox
  {
    Pass(ReadFileEntry(j, f), j, |Versions(s.store, s.tables.fileOutbox[f])|, [DeleteNext(j)])
  }

  // The same for the key of a removed file.
  lemma FilePassDrains(s: State, j: nat, f: FileId)
    requires j !in s.jobs && f in s.tables.fileOutbox
    ensures var key, t := s.tables.fileOutbox[f], Run(s, FilePass(s, j, f));
            && At(t.store, key) == [] && OnlyKey(s, t, j, key)
            && t.tables == s.tables.(fileOutbox := s.tables.fileOutbox - {f})
  {
    hide Next, Run, Deletes, Versions;
    var key := s.tables.fileOutbox[f];
    var n := |Versions(s.store, key)|;
    RunPass(s, ReadFileEntry(j, f), j, n, [DeleteNext(j)]);
    ReadFileEntryNext(s, j, f);
    var s1 := Next(s, ReadFileEntry(j, f));
    ListNext(s1, j, OfFile(f), key);
    var s2 := Next(s1, List(j));
    DeletesAll(s2, j, OfFile(f), key, Versions(s.store, key));
    var s3 := Run(s2, Deletes(j, n));
    EndsFile(s3, j, f, key);
    Uploads.RunOne(s3, DeleteNext(j));
  }

  // A save whose insert fails, and the deletion that follows.
  function FailedSave(s: State, w: CallId, j: nat): seq<Action> {
    [SaveInsert(w, false, j), List(j)] + Deletes(j, |Versions(s.store, Saved(w))|) + [DeleteNext(j)]
  }

  // A save whose insert fails leaves no file row, and undisturbed it takes its object away again.
  lemma FailedSaveDrains(s: State, w: CallId, j: nat)
    requires j !in s.jobs && w in s.calls && s.calls[w].Inserting?
    ensures var t := Run(s, FailedSave(s, w, j));
            && At(t.store, Saved(w)) == [] && t.tables == s.tables
            && (forall k :: k != Saved(w) ==> At(t.store, k) == At(s.store, k))
  {
    hide Next, Run, Deletes, Versions;
    var key := Saved(w);
    var n := |Versions(s.store, key)|;
    RunPass(s, SaveInsert(w, false, j), j, n, [DeleteNext(j)]);
    SaveFails(s, w, j);
    var s1 := Next(s, SaveInsert(w, false, j));
    ListNext(s1, j, OfSave, key);
    var s2 := Next(s1, List(j));
    DeletesAll(s2, j, OfSave, key, Versions(s.store, key));
    var s3 := Run(s2, Deletes(j, n));
    EndsSave(s3, j, key);
    Uploads.RunOne(s3, DeleteNext(j));
  }

  lemma SaveFails(s: State, w: CallId, j: nat)
    requires j !in s.jobs && w in s.calls && s.calls[w].Inserting?
    ensures Next(s, SaveInsert(w, false, j))
         == s.(calls := s.calls[w := SaveEnded], doomed := s.doomed + {Saved(w)},
               jobs := s.jobs[j := Job(OfSave, Saved(w), Listing)])
  {
  }

  lemma EndsSave(s: State, j: nat, key: Key)
    requires Working(s, j, OfSave, key, [])
    ensures Next(s, DeleteNext(j)) == s.(jobs := s.jobs[j := Job(OfSave, key, Over)])
  {
  }
}
