/** What the row locks on files guarantee, for every interleaving. */
module FileLockTheorems {
  import opened Wrappers
  import opened FileLocks

  // For every interleaving, no committed reference ever names a missing file row, a writer about to
  // insert finds every row it wants still there, and a remover about to delete has no reference left.
  lemma ReferencesNeverDangle(actions: seq<Action>)
    ensures var s := Run(EMPTY, actions, true);
            && (forall x :: x in s.references ==> x.1 in s.files)
            && (forall p, f :: p in s.pcs && Guards(s.pcs[p]) && p in s.wants && f in s.wants[p] ==> f in s.files)
            && (forall p, x :: p in s.pcs && s.pcs[p].Unreferenced? && x in s.references ==> x.1 != s.pcs[p].file)
  {
    hide Run, Next;
    RunKeeps(EMPTY, actions);
    var s := Run(EMPTY, actions, true);
    forall p, x | p in s.pcs && s.pcs[p].Unreferenced? && x in s.references ensures x.1 != s.pcs[p].file {
      assert ProcOk(s, p);
    }
    forall p, f | p in s.pcs && Guards(s.pcs[p]) && p in s.wants && f in s.wants[p] ensures f in s.files {
      assert ProcOk(s, p);
      assert (p, f) in s.shared && (p, f).1 == f;
    }
  }

  // A transaction that has come to its end, whatever the end, holds no lock on any file row.
  lemma LocksGivenBack(actions: seq<Action>, p: Proc)
    ensures var s := Run(EMPTY, actions, true);
            p in s.pcs && (s.pcs[p].Wrote? || s.pcs[p].Removed? || s.pcs[p].Failed?) ==>
              && (forall x :: x in s.shared ==> x.0 != p)
              && (forall f :: f in s.exclusive ==> s.exclusive[f] != p)
  {
    hide Run, Next;
    RunKeeps(EMPTY, actions);
  }

  // The cardinality check is what it rests on: without it a writer whose file is already gone
  // commits a reference to nothing.
  lemma WithoutCountDangles() returns (actions: seq<Action>)
    ensures exists x :: x in Run(EMPTY, actions, false).references && x.1 !in Run(EMPTY, actions, false).files
  {
    var a1, a2, a3, a4, a5 := Write(0, {9}), ShareRow(0, 9), Count(0), InsertRows(0), Commit(0);
    actions := [a1, a2, a3, a4, a5];
    var s1 := Next(EMPTY, a1, false);
    var s2 := Next(s1, a2, false);
    assert {9} - {9} == {};
    var s3 := Next(s2, a3, false);
    var s4 := Next(s3, a4, false);
    var s5 := Next(s4, a5, false);
    assert (0, 9) in s5.references && 9 !in s5.files;
    assert actions[1..][1..] == actions[2..] && actions[2..][1..] == actions[3..] && actions[3..][1..] == actions[4..];
    assert actions[4..][1..] == [];
    assert Run(s4, actions[4..], false) == s5;
    assert Run(s3, actions[3..], false) == s5;
    assert Run(s2, actions[2..], false) == s5;
    assert Run(s1, actions[1..], false) == s5;
    assert Run(EMPTY, actions, false) == s5;
  }

  // A writer left alone commits its reference if the file exists, and fails if not.
  lemma LoneWriter(s: State, p: Proc, f: File)
    requires p !in s.pcs && f !in s.exclusive
    ensures var s1 := Next(Next(Next(s, Write(p, {f}), true), ShareRow(p, f), true), Count(p), true);
            var t := Next(Next(s1, InsertRows(p), true), Commit(p), true);
            if f in s.files then p in t.pcs && t.pcs[p] == Wrote && (p, f) in t.references
            else p in s1.pcs && s1.pcs[p] == Failed && s1.references == s.references
  {
    var a := Next(s, Write(p, {f}), true);
    assert a.pcs[p] == Locking({f}, {}) && a.wants[p] == {f};
    var b := Next(a, ShareRow(p, f), true);
    assert {f} - {f} == {} && {} + {f} == {f};
    assert b.pcs[p] == Locking({}, if f in s.files then {f} else {});
    assert |{f}| == 1;
    if f in s.files {
      var c := Next(b, Count(p), true);
      assert c.pcs[p] == Counted && c.wants[p] == {f};
      assert (p, f) in (set g | g in {f} :: (p, g));
    }
  }

  // A remover left alone takes the row if nothing references the file, and leaves it if something does.
  lemma LoneRemover(s: State, p: Proc, f: File)
    requires p !in s.pcs && f in s.files && Lockable(s, p, f)
    ensures var s1 := Next(Next(Next(s, Remove(p, f), true), LockRow(p), true), LookForReferences(p), true);
            var t := Next(s1, DeleteRow(p), true);
            if forall x :: x in s.references ==> x.1 != f then p in t.pcs && t.pcs[p] == Removed && f !in t.files
            else p in s1.pcs && s1.pcs[p] == Failed && t.files == s.files
  {
    var a := Next(s, Remove(p, f), true);
    assert a.pcs[p] == Removing(f) && Lockable(a, p, f);
    var b := Next(a, LockRow(p), true);
    assert b.pcs[p] == Exclusive(f) && b.references == s.references;
  }
}
