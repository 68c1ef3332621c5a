/**
 Journalled restore of the runtime database.

 A call is described by the sequence of durable states it writes, in order. A crash keeps a prefix
 of that sequence, so a property of every written state is a property of every crash point.
 Content fingerprints are collision-free: a recorded blob is represented by the content it names,
 and a sealed manifest by the manifest itself.
 */
module Restore {
  import opened Prelude

  type Id = nat

  datatype DbName = StateDb | Wal | Shm | Journal

  /** The four database files of one runtime directory; None is an absent file. */
  datatype Files = Files(state: Option<Bytes>, wal: Option<Bytes>, shm: Option<Bytes>, journal: Option<Bytes>) {
    function At(n: DbName): Option<Bytes> {
      match n case StateDb => state case Wal => wal case Shm => shm case Journal => journal
    }

    function With(n: DbName, v: Option<Bytes>): Files {
      match n
      case StateDb => this.(state := v)
      case Wal => this.(wal := v)
      case Shm => this.(shm := v)
      case Journal => this.(journal := v)
    }

    predicate Bare() {
      wal.None? && shm.None? && journal.None?
    }
  }

  const ABSENT := Files(None, None, None, None)
  const SIDECARS := [Wal, Shm, Journal]
  /** The order of a name-sorted inventory: state.db, -journal, -shm, -wal. */
  const INVENTORY := [StateDb, Journal, Shm, Wal]

  /** What a verified backup says: the database image and the history it belongs to. */
  datatype Snapshot = Snapshot(image: Bytes, root: nat, project: Id, revision: nat)

  datatype Receipt = Receipt(
    id: Id, completed: bool, root: nat, project: Id, revision: nat,
    seal: Snapshot, before: Files, rollback: Files)

  datatype RestoreDir = RestoreDir(rollback: Files, receipt: Option<Receipt>, candidate: Option<Bytes>)

  datatype Disk = Disk(db: Files, dirs: map<Id, RestoreDir>, marker: Option<Id>)

  /**
   What one call observes of everything it does not write itself: the backup check, the match of
   program, runtime files and sources, the validation of the restored database, what a foreign
   writer left in the database files before the last compare, and how much of the staged copy
   exists when creation is interrupted.
   */
  datatype World = World(
    root: nat, checked: Option<Snapshot>, targetMatches: bool, valid: bool,
    foreign: Option<Files>, torn: Bytes)

  datatype Reason =
    | NotOffline | AlreadyPending | StalePreview | ChangedAfterPreview
    | NothingPending | ReceiptDiffers | IdentityDiffers | BackupDiffers | TargetDiffers | RollbackDiffers
    | NewSidecars | ForeignBytes | NeverReplay | StagedBytesChanged | ChangedBeforeReplacement | InvalidRestored

  datatype Effect = Effect(writes: seq<Disk>, refusal: Option<Reason>)

  // ---------------------------------------------------------------- finishing a restore

  predicate RollbackHolds(dir: RestoreDir, r: Receipt) {
    forall n: DbName ::
      && (r.rollback.At(n).Some? ==> dir.rollback.At(n) == r.rollback.At(n) == r.before.At(n))
      && (r.before.At(n).Some? <==> r.rollback.At(n).Some?)
  }

  predicate Installed(db: Files, image: Bytes) {
    db.state == Some(image)
  }

  /** Main file as recorded and every present sidecar as recorded. */
  predicate Untouched(db: Files, before: Files) {
    && db.state == before.state
    && forall n: DbName :: n != StateDb && db.At(n).Some? ==> db.At(n) == before.At(n)
  }

  /** The checks made before the first write, in the order they are made. */
  function Refusal(d: Disk, r: Receipt, w: World): Option<Reason>
    requires r.id in d.dirs
  {
    if r.root != w.root || d.marker != Some(r.id) then Some(IdentityDiffers)
    else if w.checked.None? then Some(BackupDiffers)
    else var s := w.checked.value;
      if s != r.seal || s.project != r.project || s.revision != r.revision then Some(BackupDiffers)
      else if s.root != w.root || !w.targetMatches then Some(TargetDiffers)
      else if !RollbackHolds(d.dirs[r.id], r) then Some(RollbackDiffers)
      else if Installed(d.db, s.image) then
        if !d.db.Bare() then Some(NewSidecars) else None
      else if !Untouched(d.db, r.before) then Some(ForeignBytes)
      else if r.completed then Some(NeverReplay)
      else if d.dirs[r.id].candidate.Some? && d.dirs[r.id].candidate.value != s.image then Some(StagedBytesChanged)
      else None
  }

  function WithCandidate(d: Disk, id: Id, c: Option<Bytes>): Disk
    requires id in d.dirs
  {
    d.(dirs := d.dirs[id := d.dirs[id].(candidate := c)])
  }

  /** Creating the staged copy: the file first exists with partial content, then with all of it. */
  function Stage(d: Disk, id: Id, image: Bytes, torn: Bytes): seq<Disk>
    requires id in d.dirs
  {
    if d.dirs[id].candidate.Some? then []
    else [WithCandidate(d, id, Some(torn)), WithCandidate(d, id, Some(image))]
  }

  function RemoveSidecars(d: Disk, names: seq<DbName>): seq<Disk>
    decreases |names|, d
  {
    if names == [] then []
    else if d.db.At(names[0]).None? then RemoveSidecars(d, names[1..])
    else
      var d' := d.(db := d.db.With(names[0], None));
      [d'] + RemoveSidecars(d', names[1..])
  }

  function Install(d: Disk, id: Id, image: Bytes): Disk
    requires id in d.dirs
  {
    WithCandidate(d.(db := d.db.(state := Some(image))), id, None)
  }

  function Complete(d: Disk, r: Receipt): Disk
    requires r.id in d.dirs
  {
    d.(dirs := d.dirs[r.id := d.dirs[r.id].(receipt := Some(r.(completed := true)))])
  }

  /** Validation of the restored database, the completed receipt, then removal of the marker. */
  function SealRestore(d: Disk, r: Receipt, w: World): Effect
    requires r.id in d.dirs
  {
    if !w.valid then Effect([], Some(InvalidRestored))
    else
      var d1 := Complete(d, r);
      Effect([d1, d1.(marker := None)], None)
  }

  function FinishRestore(d: Disk, r: Receipt, w: World): Effect
    requires r.id in d.dirs
  {
    var refused := Refusal(d, r, w);
    if refused.Some? then Effect([], refused)
    else
      var image := w.checked.value.image;
      if Installed(d.db, image) then SealRestore(d, r, w)
      else
        var staged := Stage(d, r.id, image, w.torn);
        var d1 := LastOf(d, staged);
        if w.foreign.Some? && w.foreign.value != d.db then
          Effect(staged + [d1.(db := w.foreign.value)], Some(ChangedBeforeReplacement))
        else
          var removed := RemoveSidecars(d1, SIDECARS);
          StageKeepsDirs(d, r.id, image, w.torn);
          RemoveSidecarsFrame(d1, SIDECARS);
          var d2 := LastOf(d1, removed);
          var d3 := Install(d2, r.id, image);
          var sealed := SealRestore(d3, r, w);
          Effect(staged + removed + [d3] + sealed.writes, sealed.refusal)
  }

  lemma StageKeepsDirs(d: Disk, id: Id, image: Bytes, torn: Bytes)
    requires id in d.dirs
    ensures forall s <- Stage(d, id, image, torn) :: id in s.dirs && s.db == d.db
    ensures id in LastOf(d, Stage(d, id, image, torn)).dirs
  {
  }

  lemma {:induction false} RemoveSidecarsFrame(d: Disk, names: seq<DbName>)
    ensures forall s <- RemoveSidecars(d, names) :: s.dirs == d.dirs && s.marker == d.marker
    ensures LastOf(d, RemoveSidecars(d, names)).dirs == d.dirs
    decreases |names|
  {
    if names != [] {
      RemoveSidecarsFrame(d, names[1..]);
      RemoveSidecarsFrame(d.(db := d.db.With(names[0], None)), names[1..]);
    }
  }

  // ---------------------------------------------------------------- the two entry points

  function RecoverWrites(d: Disk, offline: bool, w: World): Effect {
    if !offline then Effect([], Some(NotOffline))
    else if d.marker.None? then Effect([], Some(NothingPending))
    else
      var id := d.marker.value;
      if id !in d.dirs || d.dirs[id].receipt.None? || d.dirs[id].receipt.value.id != id then
        Effect([], Some(ReceiptDiffers))
      else FinishRestore(d, d.dirs[id].receipt.value, w)
  }

  function CopyRollback(d: Disk, id: Id, names: seq<DbName>): seq<Disk>
    requires id in d.dirs
    decreases |names|, d
  {
    if names == [] then []
    else if d.db.At(names[0]).None? then CopyRollback(d, id, names[1..])
    else
      var d' := WithCopy(d, id, names[0]);
      [d'] + CopyRollback(d', id, names[1..])
  }

  function NewReceipt(d: Disk, id: Id, s: Snapshot, root: nat): Receipt {
    Receipt(id, false, root, s.project, s.revision, s, d.db, d.db)
  }

  /** The disk once rollback copies, receipt and marker are all durable. */
  function Prepared(d: Disk, id: Id, s: Snapshot, root: nat): Disk {
    d.(dirs := d.dirs[id := RestoreDir(d.db, Some(NewReceipt(d, id, s, root)), None)], marker := Some(id))
  }

  function Unmarked(d: Disk, id: Id, s: Snapshot, root: nat): Disk {
    Prepared(d, id, s, root).(marker := None)
  }

  function PrepareWrites(d: Disk, id: Id, s: Snapshot, root: nat): seq<Disk> {
    var d0 := d.(dirs := d.dirs[id := RestoreDir(ABSENT, None, None)]);
    [d0] + CopyRollback(d0, id, INVENTORY) + [Unmarked(d, id, s, root), Prepared(d, id, s, root)]
  }

  /** `reviewed` is the database inventory of the preview the caller accepted. */
  datatype Request = Request(offline: bool, id: Id, planMatches: bool, reviewed: Files)

  function RestoreRefusal(d: Disk, q: Request, w: World): Option<Reason> {
    if !q.offline then Some(NotOffline)
    else if d.marker.Some? then Some(AlreadyPending)
    else if w.checked.None? then Some(BackupDiffers)
    else if w.checked.value.root != w.root || !w.targetMatches then Some(TargetDiffers)
    else if !q.planMatches then Some(StalePreview)
    else if q.reviewed != d.db then Some(ChangedAfterPreview)
    else None
  }

  function RestoreWrites(d: Disk, q: Request, w: World): Effect {
    var refused := RestoreRefusal(d, q, w);
    if refused.Some? then Effect([], refused)
    else
      var s := w.checked.value;
      var d1 := Prepared(d, q.id, s, w.root);
      var rest := FinishRestore(d1, NewReceipt(d, q.id, s, w.root), w);
      Effect(PrepareWrites(d, q.id, s, w.root) + rest.writes, rest.refusal)
  }

  // ---------------------------------------------------------------- invariants of every durable state

  function Whole(image: Bytes): Files {
    Files(Some(image), None, None, None)
  }

  ghost predicate Pending(d: Disk, id: Id, r: Receipt) {
    && id in d.dirs
    && d.dirs[id].receipt == Some(r)
    && r.id == id
    && r.project == r.seal.project && r.revision == r.seal.revision && r.root == r.seal.root
    && RollbackHolds(d.dirs[id], r)
    && (d.db == Whole(r.seal.image) || (Untouched(d.db, r.before) && !r.completed))
    && (Installed(d.db, r.seal.image) ==> d.dirs[id].candidate.None?)
    // Nothing is removed from a database whose main file already is the image.
    && (Installed(r.before, r.seal.image) ==> d.db == r.before || d.db == Whole(r.seal.image))
  }

  /** While the marker exists its receipt tells everything needed to go on or to go back. */
  ghost predicate Sound(d: Disk) {
    d.marker.Some? ==>
      d.marker.value in d.dirs && d.dirs[d.marker.value].receipt.Some? &&
      Pending(d, d.marker.value, d.dirs[d.marker.value].receipt.value)
  }

  /** The whole database contents this disk may be left with. */
  ghost function Wholes(d: Disk): set<Files>
    requires Sound(d)
  {
    if d.marker.None? then {d.db}
    else
      var r := d.dirs[d.marker.value].receipt.value;
      {r.before, Whole(r.seal.image)}
  }

  /** Where an uninterrupted continuation ends. */
  ghost function Finished(d: Disk): Disk
    requires Sound(d)
  {
    if d.marker.None? then d
    else
      var id := d.marker.value;
      var r := d.dirs[id].receipt.value;
      Disk(Whole(r.seal.image), d.dirs[id := d.dirs[id].(receipt := Some(r.(completed := true)), candidate := None)], None)
  }

  /** One durable write of a continuation: still sound, no new outcome, same destination. */
  ghost predicate Onward(d: Disk, s: Disk)
    requires Sound(d)
  {
    && Sound(s)
    && Wholes(s) <= Wholes(d)
    && Finished(s) == Finished(d)
  }

  predicate Pends(d: Disk, r: Receipt) {
    d.marker == Some(r.id) && r.id in d.dirs && d.dirs[r.id].receipt == Some(r)
  }

  lemma StageOnward(d: Disk, r: Receipt, w: World)
    requires Sound(d) && Pends(d, r)
    requires Refusal(d, r, w).None? && !Installed(d.db, w.checked.value.image)
    ensures forall s <- Stage(d, r.id, w.checked.value.image, w.torn) :: Onward(d, s)
    ensures Onward(d, LastOf(d, Stage(d, r.id, w.checked.value.image, w.torn)))
  {
    var image := w.checked.value.image;
    forall c: Bytes
      ensures Onward(d, WithCandidate(d, r.id, Some(c)))
    {
      var s := WithCandidate(d, r.id, Some(c));
      assert RollbackHolds(s.dirs[r.id], r);
      assert Finished(s).dirs == Finished(d).dirs;
    }
  }

  lemma {:induction false} RemovalOnward(d: Disk, r: Receipt, names: seq<DbName>)
    requires Sound(d) && Pends(d, r)
    requires d.db != Whole(r.seal.image) && !r.completed && !Installed(d.db, r.seal.image)
    requires StateDb !in names
    ensures forall s <- RemoveSidecars(d, names) :: Onward(d, s)
    ensures Onward(d, LastOf(d, RemoveSidecars(d, names)))
    ensures LastOf(d, RemoveSidecars(d, names)).db.state == d.db.state
    ensures forall n: DbName :: LastOf(d, RemoveSidecars(d, names)).db.At(n) == if n in names then None else d.db.At(n)
    decreases |names|
  {
    if names != [] {
      RemovalOnward(d, r, names[1..]);
      if d.db.At(names[0]).Some? {
        var d' := d.(db := d.db.With(names[0], None));
        assert Pending(d', r.id, r);
        RemovalOnward(d', r, names[1..]);
      }
    }
  }

  lemma SealOnward(d: Disk, r: Receipt, w: World)
    requires Sound(d) && Pends(d, r) && d.db == Whole(r.seal.image)
    ensures forall s <- SealRestore(d, r, w).writes :: Onward(d, s)
    ensures w.valid ==> SealRestore(d, r, w).refusal.None? && LastOf(d, SealRestore(d, r, w).writes) == Finished(d)
  {
    var d1 := Complete(d, r);
    assert RollbackHolds(d1.dirs[r.id], r.(completed := true));
    assert d1.dirs[r.id].candidate.None?;
    assert Finished(d1).dirs == Finished(d).dirs;
    assert d1.(marker := None).dirs == Finished(d).dirs;
  }

  /** Every state a continuation writes is sound and leads to the same end, whatever stops it. */
  lemma FinishOnward(d: Disk, r: Receipt, w: World)
    requires Sound(d) && Pends(d, r)
    requires w.foreign.None?
    ensures forall s <- FinishRestore(d, r, w).writes :: Onward(d, s)
    ensures FinishRestore(d, r, w).refusal.None? ==> LastOf(d, FinishRestore(d, r, w).writes) == Finished(d)
  {
    if Refusal(d, r, w).None? {
      var image := w.checked.value.image;
      if Installed(d.db, image) {
        SealOnward(d, r, w);
      } else {
        StageOnward(d, r, w);
        var d1 := LastOf(d, Stage(d, r.id, image, w.torn));
        RemoveSidecarsFrame(d1, SIDECARS);
        RemovalOnward(d1, r, SIDECARS);
        var d2 := LastOf(d1, RemoveSidecars(d1, SIDECARS));
        var d3 := Install(d2, r.id, image);
        assert Wal in SIDECARS && Shm in SIDECARS && Journal in SIDECARS;
        assert d2.db.At(Wal).None? && d2.db.At(Shm).None? && d2.db.At(Journal).None?;
        assert d3.db == Whole(image);
        assert RollbackHolds(d3.dirs[r.id], r);
        assert Pending(d3, r.id, r);
        assert Finished(d3).dirs == Finished(d2).dirs;
        SealOnward(d3, r, w);
      }
    }
  }

  // ---------------------------------------------------------------- recovery completes exactly when it can

  /** The world of the reviewed restore: same root, same sealed backup, same inputs. */
  predicate InputsUnchanged(r: Receipt, w: World) {
    w.root == r.root && w.checked == Some(r.seal) && w.targetMatches && w.valid && w.foreign.None?
  }

  /** An installed image stands alone, or the staged copy is absent or whole. */
  predicate Resumable(d: Disk, r: Receipt)
    requires r.id in d.dirs
  {
    if Installed(d.db, r.seal.image) then d.db.Bare()
    else d.dirs[r.id].candidate.None? || d.dirs[r.id].candidate.value == r.seal.image
  }

  lemma RecoveryCompletesIff(d: Disk, w: World)
    requires Sound(d) && d.marker.Some?
    requires InputsUnchanged(d.dirs[d.marker.value].receipt.value, w)
    ensures RecoverWrites(d, true, w).refusal.None? <==> Resumable(d, d.dirs[d.marker.value].receipt.value)
    ensures RecoverWrites(d, true, w).refusal.None? ==> LastOf(d, RecoverWrites(d, true, w).writes) == Finished(d)
    ensures RecoverWrites(d, true, w).refusal.Some? ==> RecoverWrites(d, true, w).writes == []
  {
    FinishOnward(d, d.dirs[d.marker.value].receipt.value, w);
  }

  lemma PreparedSound(d: Disk, q: Request, w: World)
    requires RestoreRefusal(d, q, w).None?
    ensures Sound(Prepared(d, q.id, w.checked.value, w.root))
    ensures Wholes(Prepared(d, q.id, w.checked.value, w.root)) == {d.db, Whole(w.checked.value.image)}
  {
    assert RollbackHolds(RestoreDir(d.db, Some(NewReceipt(d, q.id, w.checked.value, w.root)), None), NewReceipt(d, q.id, w.checked.value, w.root));
  }

  /**
   A reviewed restore with unchanged inputs runs to completion exactly when the current main file is
   not already the image with sidecars beside it. In that one case it stops with the marker written,
   and no recovery can ever finish it.
   */
  lemma RestoreCompletesIff(d: Disk, q: Request, w: World)
    requires RestoreRefusal(d, q, w).None? && w.valid && w.foreign.None?
    ensures var image := w.checked.value.image;
      RestoreWrites(d, q, w).refusal.None? <==> (Installed(d.db, image) ==> d.db.Bare())
    ensures RestoreWrites(d, q, w).refusal.None? ==>
      LastOf(d, RestoreWrites(d, q, w).writes) == Finished(Prepared(d, q.id, w.checked.value, w.root))
    ensures RestoreWrites(d, q, w).refusal.Some? ==>
      var stuck := LastOf(d, RestoreWrites(d, q, w).writes);
      stuck.marker == Some(q.id) && stuck.db == d.db &&
      forall w': World :: RecoverWrites(stuck, true, w').writes == []
  {
    var s := w.checked.value;
    var d1 := Prepared(d, q.id, s, w.root);
    var r := NewReceipt(d, q.id, s, w.root);
    PreparedSound(d, q, w);
    FinishOnward(d1, r, w);
    if Refusal(d1, r, w).Some? {
      assert RestoreWrites(d, q, w).writes == PrepareWrites(d, q.id, s, w.root);
    }
  }

  /** The state.db of a project kept in write-ahead mode after an earlier restore of the same backup. */
  lemma SameImageWithWalBlocks() returns (d: Disk, q: Request, w: World)
    ensures RestoreRefusal(d, q, w).None? && w.valid && w.foreign.None?
    ensures RestoreWrites(d, q, w).refusal == Some(NewSidecars)
    ensures LastOf(d, RestoreWrites(d, q, w).writes).marker.Some?
  {
    var image: Bytes := [1];
    var db := Files(Some(image), Some([2]), None, None);
    d := Disk(db, map[], None);
    q := Request(true, 7, true, db);
    w := World(0, Some(Snapshot(image, 0, 3, 5)), true, true, None, []);
    RestoreCompletesIff(d, q, w);
    var d1 := Prepared(d, q.id, w.checked.value, w.root);
    var r := NewReceipt(d, q.id, w.checked.value, w.root);
    assert RollbackHolds(d1.dirs[r.id], r);
  }

  /** An accepted restore, killed after its marker, that recovery finishes. */
  lemma PendingRestoreFinishes() returns (d: Disk, q: Request, w: World)
    ensures RestoreRefusal(d, q, w).None?
    ensures var pending := Prepared(d, q.id, w.checked.value, w.root);
      Sound(pending) && pending.marker.Some? && InputsUnchanged(pending.dirs[q.id].receipt.value, w)
      && LastOf(pending, RecoverWrites(pending, true, w).writes).db == Whole(w.checked.value.image)
  {
    var db := Files(Some([1]), Some([2]), None, None);
    d := Disk(db, map[], None);
    q := Request(true, 7, true, db);
    w := World(0, Some(Snapshot([3], 0, 3, 5)), true, true, None, []);
    PreparedSound(d, q, w);
    RecoveryCompletesIff(Prepared(d, q.id, w.checked.value, w.root), w);
  }

  /** A copy torn while it was being staged: recovery refuses, and the database files stay as they were. */
  lemma TornCandidateRefuses(d: Disk, w: World)
    requires Sound(d) && d.marker.Some?
    requires InputsUnchanged(d.dirs[d.marker.value].receipt.value, w)
    requires var r := d.dirs[d.marker.value].receipt.value;
      d.dirs[r.id].candidate.Some? && d.dirs[r.id].candidate.value != r.seal.image
    ensures RecoverWrites(d, true, w) == Effect([], Some(StagedBytesChanged))
    ensures d.db.state == d.dirs[d.marker.value].receipt.value.before.state
  {
    var r := d.dirs[d.marker.value].receipt.value;
    assert RollbackHolds(d.dirs[r.id], r);
  }

  // ---------------------------------------------------------------- any disk whatsoever

  lemma {:induction false} RemovedAreSidecars(d: Disk, names: seq<DbName>, s: Disk, n: DbName)
    requires s in RemoveSidecars(d, names) && StateDb !in names
    ensures s.db.At(n) != d.db.At(n) ==> n != StateDb && s.db.At(n).None?
    decreases |names|
  {
    if d.db.At(names[0]).None? {
      RemovedAreSidecars(d, names[1..], s, n);
    } else {
      var d' := d.(db := d.db.With(names[0], None));
      if s != d' {
        RemovedAreSidecars(d', names[1..], s, n);
      }
    }
  }

  /** What a continuation may do to the files: nothing, or take present sidecars away and replace the main file. */
  lemma FinishShape(d: Disk, r: Receipt, w: World, s: Disk, n: DbName)
    requires r.id in d.dirs
    requires s in FinishRestore(d, r, w).writes && w.foreign.None?
    ensures Refusal(d, r, w).None?
    ensures Installed(d.db, r.seal.image) ==> s.db == d.db
    ensures n != StateDb ==> s.db.At(n) == d.db.At(n) || s.db.At(n).None?
  {
    var image := w.checked.value.image;
    if !Installed(d.db, image) {
      var staged := Stage(d, r.id, image, w.torn);
      StageKeepsDirs(d, r.id, image, w.torn);
      var d1 := LastOf(d, staged);
      var removed := RemoveSidecars(d1, SIDECARS);
      RemoveSidecarsFrame(d1, SIDECARS);
      var d2 := LastOf(d1, removed);
      var d3 := Install(d2, r.id, image);
      assert removed != [] ==> d2 in removed;
      if n != StateDb {
        if removed != [] {
          RemovedAreSidecars(d1, SIDECARS, d2, n);
        }
        assert s in staged || s in removed || s.db == d3.db;
        if s in removed {
          RemovedAreSidecars(d1, SIDECARS, s, n);
        }
      }
    }
  }

  /**
   On any disk, reachable or not: a recovery changes a database file only when it finds there the bytes
   recorded as the original ones, and then the rollback directory holds those bytes too.
   */
  lemma OnlyRecordedBytesReplaced(d: Disk, r: Receipt, w: World, s: Disk, n: DbName)
    requires r.id in d.dirs
    requires s in FinishRestore(d, r, w).writes && w.foreign.None?
    requires s.db.At(n) != d.db.At(n)
    ensures d.db.At(n) == r.before.At(n)
    ensures d.db.At(n).Some? ==> d.dirs[r.id].rollback.At(n) == d.db.At(n)
  {
    FinishShape(d, r, w, s, n);
    assert Untouched(d.db, r.before);
    assert RollbackHolds(d.dirs[r.id], r);
  }

  // ---------------------------------------------------------------- whole runs with crashes

  /** One invocation, killed after `cut` durable writes. */
  datatype Call =
    | RestoreCall(q: Request, w: World, cut: nat)
    | RecoverCall(offline: bool, w: World, cut: nat)

  function WritesOf(d: Disk, c: Call): seq<Disk> {
    match c
    case RestoreCall(q, w, _) => RestoreWrites(d, q, w).writes
    case RecoverCall(offline, w, _) => RecoverWrites(d, offline, w).writes
  }

  function After(d: Disk, c: Call): Disk {
    LastOf(d, Cut(WritesOf(d, c), c.cut))
  }

  function RunEnd(d: Disk, calls: seq<Call>): Disk
    decreases |calls|
  {
    if calls == [] then d else RunEnd(After(d, calls[0]), calls[1..])
  }

  /** A pending restore with a database file that is neither as recorded nor as installed. */
  predicate Disturbed(d: Disk) {
    && d.marker.Some? && d.marker.value in d.dirs && d.dirs[d.marker.value].receipt.Some?
    && d.db != Whole(d.dirs[d.marker.value].receipt.value.seal.image)
    && !Untouched(d.db, d.dirs[d.marker.value].receipt.value.before)
  }

  /** Foreign bytes in any database file stop every recovery and restore before its first write, however often it is tried. */
  lemma {:induction false} ForeignBytesStopRecovery(d: Disk, calls: seq<Call>)
    requires Disturbed(d)
    ensures RunEnd(d, calls) == d
    ensures forall c <- calls :: WritesOf(d, c) == []
    decreases |calls|
  {
    if calls != [] {
      assert WritesOf(d, calls[0]) == [];
      ForeignBytesStopRecovery(d, calls[1..]);
    }
  }

  predicate NoForeignWriter(calls: seq<Call>) {
    forall c <- calls :: c.w.foreign.None?
  }

  /** The images the restores of a run may install. */
  ghost function Images(calls: seq<Call>): set<Files> {
    set c | c in calls && c.RestoreCall? && c.w.checked.Some? :: Whole(c.w.checked.value.image)
  }

  function WithCopy(d: Disk, id: Id, n: DbName): Disk
    requires id in d.dirs
  {
    d.(dirs := d.dirs[id := d.dirs[id].(rollback := d.dirs[id].rollback.With(n, d.db.At(n)))])
  }

  lemma {:induction false} CopyKeeps(d: Disk, id: Id, names: seq<DbName>)
    requires id in d.dirs
    ensures forall s <- CopyRollback(d, id, names) :: s.db == d.db && s.marker == d.marker
    ensures var e := LastOf(d, CopyRollback(d, id, names));
      && id in e.dirs
      && e == d.(dirs := d.dirs[id := d.dirs[id].(rollback := e.dirs[id].rollback)])
      && forall n: DbName :: e.dirs[id].rollback.At(n) ==
           if n in names && d.db.At(n).Some? then d.db.At(n) else d.dirs[id].rollback.At(n)
    decreases |names|
  {
    if names != [] {
      if d.db.At(names[0]).Some? {
        CopyKeeps(WithCopy(d, id, names[0]), id, names[1..]);
      } else {
        CopyKeeps(d, id, names[1..]);
      }
    }
  }

  /** Copying the whole inventory copies every file. */
  lemma CopiesEverything(d: Disk, id: Id)
    requires id in d.dirs && d.dirs[id].rollback == ABSENT
    ensures LastOf(d, CopyRollback(d, id, INVENTORY)) == d.(dirs := d.dirs[id := d.dirs[id].(rollback := d.db)])
  {
    CopyKeeps(d, id, INVENTORY);
    var e := LastOf(d, CopyRollback(d, id, INVENTORY));
    assert StateDb in INVENTORY && Wal in INVENTORY && Shm in INVENTORY && Journal in INVENTORY;
    assert forall n: DbName :: e.dirs[id].rollback.At(n) == d.db.At(n);
    SameFiles(e.dirs[id].rollback, d.db);
  }

  lemma SameFiles(a: Files, b: Files)
    requires forall n: DbName :: a.At(n) == b.At(n)
    ensures a == b
  {
    assert a.At(StateDb) == b.At(StateDb) && a.At(Wal) == b.At(Wal);
    assert a.At(Shm) == b.At(Shm) && a.At(Journal) == b.At(Journal);
  }

  lemma RestoreWriteKinds(d: Disk, q: Request, w: World, s: Disk)
    requires RestoreRefusal(d, q, w).None?
    requires s in RestoreWrites(d, q, w).writes
    ensures var d1 := Prepared(d, q.id, w.checked.value, w.root);
      || (s.db == d.db && s.marker.None?) || s == d1
      || s in FinishRestore(d1, NewReceipt(d, q.id, w.checked.value, w.root), w).writes
  {
    var d0 := d.(dirs := d.dirs[q.id := RestoreDir(ABSENT, None, None)]);
    CopyKeeps(d0, q.id, INVENTORY);
  }

  lemma CallSafe(d: Disk, c: Call)
    requires Sound(d) && c.w.foreign.None?
    ensures Sound(After(d, c))
    ensures Wholes(After(d, c)) <= Wholes(d) + Images([c])
    ensures c.RecoverCall? ==> Finished(After(d, c)) == Finished(d)
  {
    var kept := Cut(WritesOf(d, c), c.cut);
    if kept != [] {
      var s := After(d, c);
      assert s in WritesOf(d, c);
      match c {
        case RecoverCall(_, w, _) =>
          FinishOnward(d, d.dirs[d.marker.value].receipt.value, w);
        case RestoreCall(q, w, _) =>
          RestoreWriteKinds(d, q, w, s);
          PreparedSound(d, q, w);
          FinishOnward(Prepared(d, q.id, w.checked.value, w.root), NewReceipt(d, q.id, w.checked.value, w.root), w);
          assert c in [c] && Whole(w.checked.value.image) in Images([c]);
      }
    }
  }

  /**
   Safety over every run of restores, crashes and recoveries, each killed anywhere: the state stays
   sound, and a database without a marker is wholly the starting one or wholly one of the images.
   */
  lemma {:induction false} RunSafe(d: Disk, calls: seq<Call>)
    requires Sound(d) && NoForeignWriter(calls)
    ensures Sound(RunEnd(d, calls))
    ensures Wholes(RunEnd(d, calls)) <= Wholes(d) + Images(calls)
    ensures d.marker.None? && RunEnd(d, calls).marker.None? ==> RunEnd(d, calls).db in {d.db} + Images(calls)
    decreases |calls|
  {
    if calls != [] {
      var c := calls[0];
      CallSafe(d, c);
      assert NoForeignWriter(calls[1..]);
      RunSafe(After(d, c), calls[1..]);
      assert Images([c]) <= Images(calls);
      assert Images(calls[1..]) <= Images(calls);
    }
  }

  /** What a reader finds in any reachable state with a restore pending. */
  lemma PendingHoldsEveryOriginal(d: Disk, calls: seq<Call>, n: DbName)
    requires Sound(d) && NoForeignWriter(calls) && RunEnd(d, calls).marker.Some?
    ensures var e := RunEnd(d, calls);
      var id := e.marker.value;
      && id in e.dirs && e.dirs[id].receipt.Some?
      && var r := e.dirs[id].receipt.value;
         // every original file is held byte for byte, and is otherwise in place or gone
         && (r.before.At(n).Some? ==> e.dirs[id].rollback.At(n) == r.before.At(n))
         && (n != StateDb ==> e.db.At(n).None? || e.db.At(n) == r.before.At(n))
         && (e.db.state == r.before.state || e.db.state == Some(r.seal.image))
         // an installed image never sits beside a sidecar, unless nothing was touched at all
         && (Installed(e.db, r.seal.image) ==> e.db.Bare() || e.db == r.before)
  {
    RunSafe(d, calls);
    var e := RunEnd(d, calls);
    var r := e.dirs[e.marker.value].receipt.value;
    assert RollbackHolds(e.dirs[e.marker.value], r);
  }

  /** Any number of recoveries, each killed anywhere, lead to one and the same finished disk. */
  lemma {:induction false} RecoveriesConverge(d: Disk, calls: seq<Call>)
    requires Sound(d) && NoForeignWriter(calls)
    requires forall c <- calls :: c.RecoverCall?
    ensures Sound(RunEnd(d, calls)) && Finished(RunEnd(d, calls)) == Finished(d)
    ensures RunEnd(d, calls).marker.None? ==> RunEnd(d, calls) == Finished(d)
    decreases |calls|
  {
    if calls != [] {
      CallSafe(d, calls[0]);
      RecoveriesConverge(After(d, calls[0]), calls[1..]);
    }
  }

  /**
   A restore killed at any point after its marker is written, then recovered by calls killed anywhere:
   once the marker is gone the disk is exactly what the restore would have left undisturbed, and a
   recovery that is not killed gets there from every state it can resume.
   */
  lemma CrashedRestoreReachesUninterrupted(d: Disk, q: Request, w: World, cut: nat, calls: seq<Call>, last: World)
    requires RestoreRefusal(d, q, w).None? && w.valid && w.foreign.None?
    requires Installed(d.db, w.checked.value.image) ==> d.db.Bare()
    requires |PrepareWrites(d, q.id, w.checked.value, w.root)| <= cut
    requires NoForeignWriter(calls) && forall c <- calls :: c.RecoverCall?
    ensures var target := LastOf(d, RestoreWrites(d, q, w).writes);
      var e := RunEnd(After(d, RestoreCall(q, w, cut)), calls);
      && target.marker.None? && target.db == Whole(w.checked.value.image)
      && (e.marker.None? ==> e == target)
      && (e.marker.Some? ==>
            && e.marker.value in e.dirs && e.dirs[e.marker.value].receipt.Some?
            && var r := e.dirs[e.marker.value].receipt.value;
              && r.id in e.dirs
              && (InputsUnchanged(r, last) && Resumable(e, r) ==> LastOf(e, RecoverWrites(e, true, last).writes) == target))
  {
    var s := w.checked.value;
    var d1 := Prepared(d, q.id, s, w.root);
    var r := NewReceipt(d, q.id, s, w.root);
    var prepare := PrepareWrites(d, q.id, s, w.root);
    RestoreCompletesIff(d, q, w);
    PreparedSound(d, q, w);
    FinishOnward(d1, r, w);
    var crashed := After(d, RestoreCall(q, w, cut));
    var writes := RestoreWrites(d, q, w).writes;
    var kept := Cut(writes, cut);
    assert kept[|kept| - 1] == if |kept| == |prepare| then d1 else FinishRestore(d1, r, w).writes[|kept| - |prepare| - 1];
    assert Onward(d1, crashed);
    RecoveriesConverge(crashed, calls);
    var e := RunEnd(crashed, calls);
    if e.marker.Some? && InputsUnchanged(e.dirs[e.marker.value].receipt.value, last) {
      RecoveryCompletesIff(e, last);
    }
  }

  // ---------------------------------------------------------------- the calls themselves

  /** The runtime directory; `written` records every durable state it has gone through. */
  class RuntimeDirectory {
    var disk: Disk
    ghost var written: seq<Disk>

    constructor (d: Disk)
      ensures disk == d && written == []
    {
      disk, written := d, [];
    }

    method Write(d: Disk)
      modifies this
      ensures disk == d && written == old(written) + [d]
    {
      disk, written := d, written + [d];
    }

    method Seal(r: Receipt, w: World) returns (refusal: Option<Reason>)
      requires r.id in disk.dirs
      modifies this
      ensures var e := SealRestore(old(disk), r, w);
        refusal == e.refusal && written == old(written) + e.writes && disk == LastOf(old(disk), e.writes)
    {
      if !w.valid {
        return Some(InvalidRestored);
      }
      Write(disk.(dirs := disk.dirs[r.id := disk.dirs[r.id].(receipt := Some(r.(completed := true)))]));
      Write(disk.(marker := None));
      refusal := None;
    }

    method DropSidecars(names: seq<DbName>)
      modifies this
      ensures written == old(written) + RemoveSidecars(old(disk), names)
      ensures disk == LastOf(old(disk), RemoveSidecars(old(disk), names))
    {
      ghost var todo := RemoveSidecars(disk, names);
      for i := 0 to |names|
        invariant written + RemoveSidecars(disk, names[i..]) == old(written) + todo
        invariant LastOf(disk, RemoveSidecars(disk, names[i..])) == LastOf(old(disk), todo)
      {
        var name := names[i];
        assert names[i..][0] == name && names[i..][1..] == names[i + 1..];
        if disk.db.At(name).Some? {
          Write(disk.(db := disk.db.With(name, None)));
        }
      }
    }

    method StageCandidate(id: Id, image: Bytes, torn: Bytes)
      requires id in disk.dirs
      modifies this
      ensures written == old(written) + Stage(old(disk), id, image, torn)
      ensures disk == LastOf(old(disk), Stage(old(disk), id, image, torn))
    {
      if disk.dirs[id].candidate.None? {
        Write(disk.(dirs := disk.dirs[id := disk.dirs[id].(candidate := Some(torn))]));
        Write(disk.(dirs := disk.dirs[id := disk.dirs[id].(candidate := Some(image))]));
        assert disk.dirs == WithCandidate(old(disk), id, Some(image)).dirs;
      }
    }

    method Finish(r: Receipt, w: World) returns (refusal: Option<Reason>)
      requires r.id in disk.dirs
      modifies this
      ensures var e := FinishRestore(old(disk), r, w);
        refusal == e.refusal && written == old(written) + e.writes && disk == LastOf(old(disk), e.writes)
    {
      refusal := Refusal(disk, r, w);
      if refusal.Some? {
        return;
      }
      var image := w.checked.value.image;
      var current := disk.db;
      if current.state != Some(image) {
        StageKeepsDirs(disk, r.id, image, w.torn);
        StageCandidate(r.id, image, w.torn);
        if w.foreign.Some? && w.foreign.value != current {
          Write(disk.(db := w.foreign.value));
          return Some(ChangedBeforeReplacement);
        }
        RemoveSidecarsFrame(disk, SIDECARS);
        DropSidecars(SIDECARS);
        Write(Install(disk, r.id, image));
      }
      refusal := Seal(r, w);
    }

    method Recover(offline: bool, w: World) returns (refusal: Option<Reason>)
      modifies this
      ensures var e := RecoverWrites(old(disk), offline, w);
        refusal == e.refusal && written == old(written) + e.writes && disk == LastOf(old(disk), e.writes)
    {
      if !offline {
        return Some(NotOffline);
      }
      if disk.marker.None? {
        return Some(NothingPending);
      }
      var id := disk.marker.value;
      if id !in disk.dirs || disk.dirs[id].receipt.None? || disk.dirs[id].receipt.value.id != id {
        return Some(ReceiptDiffers);
      }
      refusal := Finish(disk.dirs[id].receipt.value, w);
    }

    /** Keep a copy of every present database file before anything else changes. */
    method RetainRollback(id: Id, names: seq<DbName>)
      requires id in disk.dirs
      modifies this
      ensures written == old(written) + CopyRollback(old(disk), id, names)
      ensures disk == LastOf(old(disk), CopyRollback(old(disk), id, names))
    {
      ghost var todo := CopyRollback(disk, id, names);
      for i := 0 to |names|
        invariant id in disk.dirs
        invariant written + CopyRollback(disk, id, names[i..]) == old(written) + todo
        invariant LastOf(disk, CopyRollback(disk, id, names[i..])) == LastOf(old(disk), todo)
      {
        var name := names[i];
        assert names[i..][0] == name && names[i..][1..] == names[i + 1..];
        if disk.db.At(name).Some? {
          Write(WithCopy(disk, id, name));
        }
      }
    }

    method Prepare(id: Id, s: Snapshot, root: nat) returns (receipt: Receipt)
      requires disk.marker.None?
      modifies this
      ensures receipt == NewReceipt(old(disk), id, s, root)
      ensures written == old(written) + PrepareWrites(old(disk), id, s, root)
      ensures disk == Prepared(old(disk), id, s, root)
    {
      var before := disk.db;
      Write(disk.(dirs := disk.dirs[id := RestoreDir(ABSENT, None, None)]));
      CopiesEverything(disk, id);
      ghost var copies := CopyRollback(disk, id, INVENTORY);
      RetainRollback(id, INVENTORY);
      receipt := Receipt(id, false, root, s.project, s.revision, s, before, disk.dirs[id].rollback);
      Write(disk.(dirs := disk.dirs[id := disk.dirs[id].(receipt := Some(receipt))]));
      assert disk == Unmarked(old(disk), id, s, root) by {
        assert disk.dirs == Unmarked(old(disk), id, s, root).dirs;
      }
      Write(disk.(marker := Some(id)));
    }

    method Restore(q: Request, w: World) returns (refusal: Option<Reason>)
      modifies this
      ensures var e := RestoreWrites(old(disk), q, w);
        refusal == e.refusal && written == old(written) + e.writes && disk == LastOf(old(disk), e.writes)
    {
      refusal := RestoreRefusal(disk, q, w);
      if refusal.Some? {
        return;
      }
      var receipt := Prepare(q.id, w.checked.value, w.root);
      refusal := Finish(receipt, w);
    }
  }
}
