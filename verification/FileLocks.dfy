/** Referencing a file while somebody deletes it: the row locks, step by step.

  A writer (append, turn start or turn creation) locks the rows of all files it will reference
  FOR KEY SHARE, one by one, compares how many it found with how many it wants, and inserts the
  reference rows. A remover locks one row FOR UPDATE, looks for references and deletes the row.
  The row locks are all that keeps the two apart here: the foreign keys are not modelled. */
module FileLocks {
  import opened Wrappers

  type Proc = nat
  type File = nat

  datatype Pc =
    | Locking(todo: set<File>, found: set<File>)   // still selecting rows
    | Counted                                      // found as many as wanted
    | Inserted                                     // reference rows written, not committed
    | Wrote                                        // committed
    | Removing(file: File)                         // wants the row FOR UPDATE
    | Exclusive(file: File)                        // has it
    | Unreferenced(file: File)                     // saw no reference
    | Removed
    | Failed

  datatype State = State(
    files: set<File>, wants: map<Proc, set<File>>, pcs: map<Proc, Pc>,
    shared: set<(Proc, File)>, exclusive: map<File, Proc>,
    references: set<(Proc, File)>)

  datatype Action =
    | Save(f: File)
    | Write(p: Proc, files: set<File>)
    | ShareRow(p: Proc, f: File)
    | Count(p: Proc)
    | InsertRows(p: Proc)
    | Commit(p: Proc)
    | Remove(p: Proc, f: File)
    | LockRow(p: Proc)
    | LookForReferences(p: Proc)
    | DeleteRow(p: Proc)
    | Abort(p: Proc)
    | Unreference(p: Proc)

  const EMPTY := State({}, map[], map[], {}, map[], {})

  function Unlocked(s: State, p: Proc): State {
    s.(shared := (set x | x in s.shared && x.0 != p),
       exclusive := map f | f in s.exclusive && s.exclusive[f] != p :: s.exclusive[f])
  }

  function To(s: State, p: Proc, pc: Pc): State {
    s.(pcs := s.pcs[p := pc])
  }

  predicate Shareable(s: State, p: Proc, f: File) {
    f in s.exclusive ==> s.exclusive[f] == p
  }

  predicate Lockable(s: State, p: Proc, f: File) {
    f !in s.exclusive && forall x :: x in s.shared && x.1 == f ==> x.0 == p
  }

  // `checked` says whether the writer compares the two counts.
  function Next(s: State, a: Action, checked: bool): State {
    match a
    case Save(f) => s.(files := s.files + {f})
    case Write(p, files) =>
      if p in s.pcs then s else To(s, p, Locking(files, {})).(wants := s.wants[p := files])
    case ShareRow(p, f) =>
      if p !in s.pcs || !s.pcs[p].Locking? || f !in s.pcs[p].todo || !Shareable(s, p, f) then s
      else if f !in s.files then To(s, p, Locking(s.pcs[p].todo - {f}, s.pcs[p].found))
      else To(s, p, Locking(s.pcs[p].todo - {f}, s.pcs[p].found + {f})).(shared := s.shared + {(p, f)})
    case Count(p) =>
      if p !in s.pcs || !s.pcs[p].Locking? || s.pcs[p].todo != {} || p !in s.wants then s
      else if checked && |s.pcs[p].found| != |s.wants[p]| then Unlocked(To(s, p, Failed), p)
      else To(s, p, Counted)
    case InsertRows(p) => if p !in s.pcs || !s.pcs[p].Counted? then s else To(s, p, Inserted)
    case Commit(p) =>
      if p !in s.pcs || !s.pcs[p].Inserted? || p !in s.wants then s
      else Unlocked(To(s, p, Wrote), p).(references := s.references + set f | f in s.wants[p] :: (p, f))
    case Remove(p, f) => if p in s.pcs then s else To(s, p, Removing(f))
    case LockRow(p) =>
      if p !in s.pcs || !s.pcs[p].Removing? || !Lockable(s, p, s.pcs[p].file) then s
      else if s.pcs[p].file !in s.files then To(s, p, Failed)
      else To(s, p, Exclusive(s.pcs[p].file)).(exclusive := s.exclusive[s.pcs[p].file := p])
    case LookForReferences(p) =>
      if p !in s.pcs || !s.pcs[p].Exclusive? then s
      else if exists x :: x in s.references && x.1 == s.pcs[p].file then Unlocked(To(s, p, Failed), p)
      else To(s, p, Unreferenced(s.pcs[p].file))
    case DeleteRow(p) =>
      if p !in s.pcs || !s.pcs[p].Unreferenced? then s
      else Unlocked(To(s, p, Removed), p).(files := s.files - {s.pcs[p].file})
    case Abort(p) =>
      if p !in s.pcs || s.pcs[p].Wrote? || s.pcs[p].Removed? then s else Unlocked(To(s, p, Failed), p)
    case Unreference(p) => s.(references := set x | x in s.references && x.0 != p)
  }

  function Run(s: State, actions: seq<Action>, checked: bool): State
    decreases |actions|
  {
    if actions == [] then s else Run(Next(s, actions[0], checked), actions[1..], checked)
  }

  predicate Guards(pc: Pc) {
    pc.Counted? || pc.Inserted?
  }

  predicate ProcOk(s: State, p: Proc) {
    p in s.pcs ==>
      && (s.pcs[p].Locking? || Guards(s.pcs[p]) ==> p in s.wants)
      && (s.pcs[p].Locking? ==>
            && s.pcs[p].found + s.pcs[p].todo <= s.wants[p]
            && (forall f :: f in s.pcs[p].found ==> (p, f) in s.shared))
      && (Guards(s.pcs[p]) ==> forall f :: f in s.wants[p] ==> (p, f) in s.shared)
      && (s.pcs[p].Exclusive? || s.pcs[p].Unreferenced? ==>
            s.pcs[p].file in s.exclusive && s.exclusive[s.pcs[p].file] == p)
      && (s.pcs[p].Unreferenced? ==> forall x :: x in s.references ==> x.1 != s.pcs[p].file)
  }

  // A key-share lock and an update lock on one row belong to one transaction, and a locked row exists.
  ghost predicate LocksOk(s: State) {
    && (forall x :: x in s.shared ==> x.1 in s.files)
    && (forall x :: x in s.shared && x.1 in s.exclusive ==> s.exclusive[x.1] == x.0)
    && (forall x :: x in s.shared ==> x.0 in s.pcs && (s.pcs[x.0].Locking? || Guards(s.pcs[x.0])))
    && (forall f :: f in s.exclusive ==>
          s.exclusive[f] in s.pcs && (s.pcs[s.exclusive[f]].Exclusive? || s.pcs[s.exclusive[f]].Unreferenced?))
  }

  ghost predicate NoneDangles(s: State) {
    forall x :: x in s.references ==> x.1 in s.files
  }

  ghost predicate Inv(s: State) {
    && LocksOk(s)
    && NoneDangles(s)
    && forall p :: ProcOk(s, p)
  }

  // A subset with as many elements is the whole set: the counts agree only if every wanted row was found.
  lemma {:induction false} SameCount(found: set<File>, wanted: set<File>)
    requires found <= wanted
    ensures |found| == |wanted| <==> found == wanted
  {
    if found != wanted {
      var f :| f in wanted && f !in found;
      assert wanted == found + (wanted - found) && f in wanted - found;
    }
  }

  lemma WriterProc(s: State, p: Proc, f: File, files: set<File>, q: Proc)
    requires ProcOk(s, p) && ProcOk(s, q)
    ensures ProcOk(Next(s, Write(p, files), true), q) && ProcOk(Next(s, ShareRow(p, f), true), q)
    ensures ProcOk(Next(s, InsertRows(p), true), q)
  {
  }

  lemma OtherProc(s: State, p: Proc, f: File, q: Proc)
    requires ProcOk(s, p) && ProcOk(s, q)
    ensures ProcOk(Next(s, Save(f), true), q) && ProcOk(Next(s, Abort(p), true), q)
    ensures ProcOk(Next(s, Unreference(p), true), q)
  {
  }

  lemma CountProc(s: State, p: Proc, q: Proc)
    requires ProcOk(s, p) && ProcOk(s, q)
    ensures ProcOk(Next(s, Count(p), true), q)
  {
    if p in s.pcs && s.pcs[p].Locking? { SameCount(s.pcs[p].found, s.wants[p]); }
  }

  lemma CommitProc(s: State, p: Proc, q: Proc)
    requires ProcOk(s, p) && ProcOk(s, q) && LocksOk(s)
    ensures ProcOk(Next(s, Commit(p), true), q)
  {
    if q in s.pcs && s.pcs[q].Unreferenced? && p in s.pcs && Guards(s.pcs[p]) {
      var f := s.pcs[q].file;
      assert f in s.wants[p] ==> (p, f) in s.shared;
      assert (p, f).0 == p && (p, f).1 == f;
    }
  }

  lemma RemoverProc(s: State, p: Proc, f: File, q: Proc)
    requires ProcOk(s, p) && ProcOk(s, q)
    ensures ProcOk(Next(s, Remove(p, f), true), q) && ProcOk(Next(s, LockRow(p), true), q)
    ensures ProcOk(Next(s, LookForReferences(p), true), q) && ProcOk(Next(s, DeleteRow(p), true), q)
  {
  }

  lemma NextProc(s: State, a: Action, q: Proc)
    requires Inv(s)
    ensures ProcOk(Next(s, a, true), q)
  {
    hide ProcOk, Next, NoneDangles, LocksOk;
    match a
    case Write(p, files) => WriterProc(s, p, 0, files, q);
    case ShareRow(p, f) => WriterProc(s, p, f, {}, q);
    case InsertRows(p) => WriterProc(s, p, 0, {}, q);
    case Count(p) => CountProc(s, p, q);
    case Commit(p) => CommitProc(s, p, q);
    case Remove(p, f) => RemoverProc(s, p, f, q);
    case LockRow(p) => RemoverProc(s, p, 0, q);
    case LookForReferences(p) => RemoverProc(s, p, 0, q);
    case DeleteRow(p) => RemoverProc(s, p, 0, q);
    case Save(f) => OtherProc(s, 0, f, q);
    case Abort(p) => OtherProc(s, p, 0, q);
    case Unreference(p) => OtherProc(s, p, 0, q);
  }

  lemma WriterLocks(s: State, p: Proc, f: File, files: set<File>)
    requires LocksOk(s) && ProcOk(s, p)
    ensures LocksOk(Next(s, Write(p, files), true)) && LocksOk(Next(s, ShareRow(p, f), true))
    ensures LocksOk(Next(s, InsertRows(p), true))
    ensures LocksOk(Next(s, Save(f), true)) && LocksOk(Next(s, Unreference(p), true))
  {
  }

  lemma EndLocks(s: State, p: Proc)
    requires LocksOk(s) && ProcOk(s, p)
    ensures LocksOk(Next(s, Count(p), true)) && LocksOk(Next(s, Commit(p), true)) && LocksOk(Next(s, Abort(p), true))
  {
  }

  lemma RemoverLocks(s: State, p: Proc, f: File)
    requires LocksOk(s) && ProcOk(s, p)
    ensures LocksOk(Next(s, Remove(p, f), true)) && LocksOk(Next(s, LockRow(p), true))
    ensures LocksOk(Next(s, LookForReferences(p), true)) && LocksOk(Next(s, DeleteRow(p), true))
  {
  }

  lemma NextLocks(s: State, a: Action)
    requires Inv(s)
    ensures LocksOk(Next(s, a, true))
  {
    hide ProcOk, Next, NoneDangles, LocksOk;
    match a
    case Write(p, files) => WriterLocks(s, p, 0, files);
    case ShareRow(p, f) => WriterLocks(s, p, f, {});
    case InsertRows(p) => WriterLocks(s, p, 0, {});
    case Count(p) => EndLocks(s, p);
    case Commit(p) => EndLocks(s, p);
    case Abort(p) => EndLocks(s, p);
    case Remove(p, f) => RemoverLocks(s, p, f);
    case LockRow(p) => RemoverLocks(s, p, 0);
    case LookForReferences(p) => RemoverLocks(s, p, 0);
    case DeleteRow(p) => RemoverLocks(s, p, 0);
    case Save(f) => WriterLocks(s, 0, f, {});
    case Unreference(p) => WriterLocks(s, p, 0, {});
  }

  lemma NextReferences(s: State, a: Action)
    requires Inv(s)
    ensures NoneDangles(Next(s, a, true))
  {
    match a
    case DeleteRow(p) => assert ProcOk(s, p);
    case Commit(p) => assert ProcOk(s, p);
    case _ =>
  }

  lemma {:induction false} RunKeeps(s: State, actions: seq<Action>)
    requires Inv(s)
    ensures Inv(Run(s, actions, true))
    decreases |actions|
  {
    hide LocksOk, NoneDangles, ProcOk, Next;
    if actions != [] {
      var s1 := Next(s, actions[0], true);
      NextLocks(s, actions[0]);
      NextReferences(s, actions[0]);
      forall p ensures ProcOk(s1, p) { NextProc(s, actions[0], p); }
      RunKeeps(s1, actions[1..]);
    }
  }
}
