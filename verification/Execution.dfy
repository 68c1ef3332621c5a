/**
 At-most-once execution. Any number of callers and supervising workers interleave, one atomic step at
 a time, and any of them may die between two steps. They share the store (transactions on a project
 revision), one lock per operation key, one lock per execution, and one directory per execution.
 */
module Execution {
  import opened Prelude

  type Id = nat
  type Key = nat

  const ATTEMPTS: nat := 16

  datatype Receipt = Receipt(nonce: nat, outcome: nat)

  datatype State = Registered | Starting(nonce: nat) | Running(nonce: nat) | Finished(receipt: Receipt)

  datatype Record = Record(key: Key, intent: nat, managed: bool, state: State)

  /** `result` is the durable result.json, `pending` the file it is renamed from. */
  datatype Dir = Dir(pending: Option<Receipt>, result: Option<Receipt>)

  datatype CallerPc =
    | WaitKey | LookUp | ReadRevision(attempt: nat) | Register(attempt: nat, expected: nat)
    | Dispatch(id: Id) | Returned(created: bool, ok: bool)

  datatype WorkerPc =
    | WaitWorker | Check | MakeDir
    | ReadStart(nonce: nat, attempt: nat) | CommitStart(nonce: nat, attempt: nat, expected: nat)
    | SpawnCommand(nonce: nat)
    | ReadRunning(nonce: nat, attempt: nat) | CommitRunning(nonce: nat, attempt: nat, expected: nat)
    | AwaitExit(nonce: nat)
    | WriteReceipt(receipt: Receipt) | RenameReceipt(receipt: Receipt)
    | ReadFinish(receipt: Receipt, attempt: nat) | CommitFinish(receipt: Receipt, attempt: nat, expected: nat)
    | Stopped

  datatype Proc = Caller(key: Key, intent: nat, managed: bool, cpc: CallerPc) | Worker(id: Id, wpc: WorkerPc)

  /** `unused` exceeds every generated process id, execution id and nonce; `spawned` is the history of commands started. */
  datatype World = World(
    revision: nat, records: map<Id, Record>, dirs: map<Id, Dir>,
    keyLocks: map<Key, nat>, workerLocks: map<Id, nat>, procs: map<nat, Proc>,
    spawned: seq<Id>, unused: nat)

  /** Outcomes a process does not control: does the operation succeed, and what does the command return? */
  datatype Luck = Luck(ok: bool, outcome: nat)

  datatype Action =
    | NewCaller(key: Key, intent: nat, managed: bool)
    | NewWorker(id: Id)
    | Advance(pid: nat, luck: Luck)
    | Crash(pid: nat)
    | OtherCommit

  // ---------------------------------------------------------------- steps

  function Goto(w: World, pid: nat, p: Proc): World {
    w.(procs := w.procs[pid := p])
  }

  predicate HoldsKey(pc: CallerPc) {
    pc.LookUp? || pc.ReadRevision? || pc.Register?
  }

  predicate HoldsWorker(pc: WorkerPc) {
    !pc.WaitWorker? && !pc.Stopped?
  }

  /** The operating system gives up the locks of a process that ends. */
  function Killed(w: World, pid: nat): World
    requires pid in w.procs
  {
    var p := w.procs[pid];
    var w' := w.(procs := w.procs - {pid});
    if p.Caller? then (if HoldsKey(p.cpc) then w'.(keyLocks := w.keyLocks - {p.key}) else w')
    else (if HoldsWorker(p.wpc) then w'.(workerLocks := w.workerLocks - {p.id}) else w')
  }

  predicate KeyKnown(w: World, key: Key) {
    exists i <- w.records :: w.records[i].key == key
  }

  /** Returning from registration without a new record releases the key lock. */
  function Leave(w: World, pid: nat, p: Proc, ok: bool): World
    requires p.Caller?
  {
    Goto(w, pid, p.(cpc := Returned(false, ok))).(keyLocks := w.keyLocks - {p.key})
  }

  function Stop(w: World, pid: nat, p: Proc): World
    requires p.Worker?
  {
    Goto(w, pid, p.(wpc := Stopped)).(workerLocks := w.workerLocks - {p.id})
  }

  /** Wait for the key lock, then look the key up: a known key is answered, never registered again. */
  function LookUpStep(w: World, pid: nat, p: Proc, luck: Luck): World
    requires p.Caller?
  {
    if p.cpc.WaitKey? then
      if p.key in w.keyLocks then w
      else Goto(w, pid, p.(cpc := LookUp)).(keyLocks := w.keyLocks[p.key := pid])
    else if !luck.ok then Leave(w, pid, p, false)
    else if KeyKnown(w, p.key) then
      Leave(w, pid, p, exists i <- w.records ::
        w.records[i].key == p.key && w.records[i].intent == p.intent && w.records[i].managed == p.managed)
    else Goto(w, pid, p.(cpc := ReadRevision(0)))
  }

  function ReadRevisionStep(w: World, pid: nat, p: Proc): World
    requires p.Caller? && p.cpc.ReadRevision?
  {
    if p.cpc.attempt >= ATTEMPTS then Leave(w, pid, p, false) else Goto(w, pid, p.(cpc := Register(p.cpc.attempt, w.revision)))
  }

  /** The registering transaction: a moved revision is retried, a known key or another refusal is final. */
  function RegisterStep(w: World, pid: nat, p: Proc, luck: Luck): World
    requires p.Caller? && p.cpc.Register?
  {
    if w.revision != p.cpc.expected then Goto(w, pid, p.(cpc := ReadRevision(p.cpc.attempt + 1)))
    else if !luck.ok || KeyKnown(w, p.key) then Leave(w, pid, p, false)
    else
      var id := w.unused;
      var next := if p.managed then Dispatch(id) else Returned(true, true);
      Goto(w, pid, p.(cpc := next)).(
        records := w.records[id := Record(p.key, p.intent, p.managed, State.Registered)],
        revision := w.revision + 1, unused := w.unused + 1, keyLocks := w.keyLocks - {p.key})
  }

  function DispatchStep(w: World, pid: nat, p: Proc, luck: Luck): World
    requires p.Caller? && p.cpc.Dispatch?
  {
    var w1 := Goto(w, pid, p.(cpc := Returned(true, luck.ok)));
    if luck.ok then Goto(w1, w.unused, Worker(p.cpc.id, WaitWorker)).(unused := w.unused + 1) else w1
  }

  function CallerStep(w: World, pid: nat, p: Proc, luck: Luck): World
    requires p.Caller?
  {
    match p.cpc
    case WaitKey | LookUp => LookUpStep(w, pid, p, luck)
    case ReadRevision(_) => ReadRevisionStep(w, pid, p)
    case Register(_, _) => RegisterStep(w, pid, p, luck)
    case Dispatch(_) => DispatchStep(w, pid, p, luck)
    case Returned(_, _) => w
  }

  function WithState(w: World, id: Id, s: State): World
    requires id in w.records
  {
    w.(records := w.records[id := w.records[id].(state := s)], revision := w.revision + 1)
  }

  predicate StartedBy(s: State, nonce: nat) {
    s == Starting(nonce) || s == Running(nonce)
  }

  /** Wait for the worker lock, check that nobody dispatched yet, create the directory exclusively. */
  function ClaimStep(w: World, pid: nat, p: Proc, luck: Luck): World
    requires p.Worker?
  {
    if p.wpc.WaitWorker? then
      if p.id in w.workerLocks then w
      else Goto(w, pid, p.(wpc := Check)).(workerLocks := w.workerLocks[p.id := pid])
    else if p.wpc.Check? then
      if luck.ok && p.id in w.records && w.records[p.id].state.Registered? && w.records[p.id].managed then
        Goto(w, pid, p.(wpc := MakeDir))
      else Stop(w, pid, p)
    else if p.id in w.dirs then Stop(w, pid, p)
    else Goto(w, pid, p.(wpc := ReadStart(w.unused, 0))).(dirs := w.dirs[p.id := Dir(None, None)], unused := w.unused + 1)
  }

  /** Commit the starting identity, then start the command. */
  function LaunchStep(w: World, pid: nat, p: Proc, luck: Luck): World
    requires p.Worker? && (p.wpc.ReadStart? || p.wpc.CommitStart? || p.wpc.SpawnCommand?)
  {
    match p.wpc
    case ReadStart(nonce, n) =>
      if n >= ATTEMPTS then Stop(w, pid, p) else Goto(w, pid, p.(wpc := CommitStart(nonce, n, w.revision)))
    case CommitStart(nonce, n, expected) =>
      if w.revision != expected then Goto(w, pid, p.(wpc := ReadStart(nonce, n + 1)))
      else if p.id !in w.records || !w.records[p.id].state.Registered? || !w.records[p.id].managed then Stop(w, pid, p)
      else WithState(Goto(w, pid, p.(wpc := SpawnCommand(nonce))), p.id, Starting(nonce))
    case SpawnCommand(nonce) =>
      if luck.ok then Goto(w, pid, p.(wpc := ReadRunning(nonce, 0))).(spawned := w.spawned + [p.id])
      else Goto(w, pid, p.(wpc := WriteReceipt(Receipt(nonce, luck.outcome))))
  }

  /** Record the running child if possible; an unrecorded child is awaited all the same. */
  function WatchStep(w: World, pid: nat, p: Proc, luck: Luck): World
    requires p.Worker? && (p.wpc.ReadRunning? || p.wpc.CommitRunning? || p.wpc.AwaitExit?)
  {
    match p.wpc
    case ReadRunning(nonce, n) =>
      if n >= ATTEMPTS then Goto(w, pid, p.(wpc := AwaitExit(nonce)))
      else Goto(w, pid, p.(wpc := CommitRunning(nonce, n, w.revision)))
    case CommitRunning(nonce, n, expected) =>
      if w.revision != expected then Goto(w, pid, p.(wpc := ReadRunning(nonce, n + 1)))
      else if p.id in w.records && w.records[p.id].state == Starting(nonce) then
        WithState(Goto(w, pid, p.(wpc := AwaitExit(nonce))), p.id, Running(nonce))
      else Goto(w, pid, p.(wpc := AwaitExit(nonce)))
    case AwaitExit(nonce) =>
      if luck.ok then Goto(w, pid, p.(wpc := WriteReceipt(Receipt(nonce, luck.outcome)))) else w
  }

  /** Write the receipt, rename it into place, then commit the finished state. */
  function ReportStep(w: World, pid: nat, p: Proc): World
    requires p.Worker? && (p.wpc.WriteReceipt? || p.wpc.RenameReceipt? || p.wpc.ReadFinish? || p.wpc.CommitFinish?)
  {
    var id := p.id;
    match p.wpc
    case WriteReceipt(r) =>
      if id !in w.dirs || w.dirs[id].pending.Some? then Stop(w, pid, p)
      else Goto(w, pid, p.(wpc := RenameReceipt(r))).(dirs := w.dirs[id := w.dirs[id].(pending := Some(r))])
    case RenameReceipt(r) =>
      if id !in w.dirs || w.dirs[id].pending.None? then Stop(w, pid, p)
      else Goto(w, pid, p.(wpc := ReadFinish(r, 0))).(dirs := w.dirs[id := Dir(None, w.dirs[id].pending)])
    case ReadFinish(r, n) =>
      if n >= ATTEMPTS then Stop(w, pid, p) else Goto(w, pid, p.(wpc := CommitFinish(r, n, w.revision)))
    case CommitFinish(r, n, expected) =>
      if w.revision != expected then Goto(w, pid, p.(wpc := ReadFinish(r, n + 1)))
      else if id in w.records && StartedBy(w.records[id].state, r.nonce) then
        WithState(Stop(w, pid, p), id, Finished(r))
      else Stop(w, pid, p)
  }

  function WorkerStep(w: World, pid: nat, p: Proc, luck: Luck): World
    requires p.Worker?
  {
    match p.wpc
    case WaitWorker | Check | MakeDir => ClaimStep(w, pid, p, luck)
    case ReadStart(_, _) | CommitStart(_, _, _) | SpawnCommand(_) => LaunchStep(w, pid, p, luck)
    case ReadRunning(_, _) | CommitRunning(_, _, _) | AwaitExit(_) => WatchStep(w, pid, p, luck)
    case WriteReceipt(_) | RenameReceipt(_) | ReadFinish(_, _) | CommitFinish(_, _, _) => ReportStep(w, pid, p)
    case Stopped => w
  }

  function Apply(w: World, a: Action): World {
    match a
    case NewCaller(key, intent, managed) =>
      Goto(w, w.unused, Caller(key, intent, managed, WaitKey)).(unused := w.unused + 1)
    case NewWorker(id) => Goto(w, w.unused, Worker(id, WaitWorker)).(unused := w.unused + 1)
    case Advance(pid, luck) =>
      if pid !in w.procs then w
      else if w.procs[pid].Caller? then CallerStep(w, pid, w.procs[pid], luck)
      else WorkerStep(w, pid, w.procs[pid], luck)
    case Crash(pid) => if pid in w.procs then Killed(w, pid) else w
    case OtherCommit => w.(revision := w.revision + 1)
  }

  function RunEnd(w: World, actions: seq<Action>): World
    decreases |actions|
  {
    if actions == [] then w else RunEnd(Apply(w, actions[0]), actions[1..])
  }

  const EMPTY := World(0, map[], map[], map[], map[], map[], [], 0)

  // ---------------------------------------------------------------- the invariant

  ghost predicate CallerOk(w: World, pid: nat, p: Proc)
    requires p.Caller?
  {
    && (HoldsKey(p.cpc) ==> p.key in w.keyLocks && w.keyLocks[p.key] == pid)
    // the lock keeps the key unregistered between the look-up and the transaction
    && (p.cpc.ReadRevision? || p.cpc.Register? ==> !KeyKnown(w, p.key))
    && (p.cpc.Dispatch? ==> p.cpc.id in w.records)
  }

  /** What the supervisor of an execution knows at each point, while it holds the worker lock. */
  ghost predicate WorkerOk(w: World, pid: nat, p: Proc)
    requires p.Worker?
  {
    var id := p.id;
    && (HoldsWorker(p.wpc) ==> id in w.workerLocks && w.workerLocks[id] == pid)
    && (HoldsWorker(p.wpc) && !p.wpc.Check? ==>
          id in w.records && w.records[id].managed && (id in w.dirs || p.wpc.MakeDir?))
    && match p.wpc
       case WaitWorker | Check | Stopped => true
       case MakeDir => w.records[id].state.Registered?
       case ReadStart(_, _) => w.records[id].state.Registered? && w.dirs[id] == Dir(None, None)
       case CommitStart(_, _, _) => w.records[id].state.Registered? && w.dirs[id] == Dir(None, None)
       case SpawnCommand(nonce) => w.records[id].state == Starting(nonce) && w.dirs[id] == Dir(None, None) && id !in w.spawned
       case ReadRunning(nonce, _) => StartedBy(w.records[id].state, nonce) && w.dirs[id] == Dir(None, None)
       case CommitRunning(nonce, _, _) => StartedBy(w.records[id].state, nonce) && w.dirs[id] == Dir(None, None)
       case AwaitExit(nonce) => StartedBy(w.records[id].state, nonce) && w.dirs[id] == Dir(None, None)
       case WriteReceipt(r) => StartedBy(w.records[id].state, r.nonce) && w.dirs[id] == Dir(None, None)
       case RenameReceipt(r) => StartedBy(w.records[id].state, r.nonce) && w.dirs[id] == Dir(Some(r), None)
       case ReadFinish(r, _) => StartedBy(w.records[id].state, r.nonce) && w.dirs[id] == Dir(None, Some(r))
       case CommitFinish(r, _, _) => StartedBy(w.records[id].state, r.nonce) && w.dirs[id] == Dir(None, Some(r))
  }

  ghost predicate ProcOk(w: World, pid: nat, p: Proc) {
    if p.Caller? then CallerOk(w, pid, p) else WorkerOk(w, pid, p)
  }

  ghost predicate RecordsOk(w: World) {
    && (forall i, j :: i in w.records && j in w.records && w.records[i].key == w.records[j].key ==> i == j)
    && (forall i <- w.records :: i < w.unused)
    && (forall i <- w.records :: w.records[i].state.Finished? ==>
          i in w.dirs && w.dirs[i].result == Some(w.records[i].state.receipt))
  }

  ghost predicate SpawnedOk(w: World) {
    && (forall i <- w.spawned :: i in w.records && !w.records[i].state.Registered?)
    && (forall h, k :: 0 <= h < k < |w.spawned| ==> w.spawned[h] != w.spawned[k])
  }

  ghost predicate Inv(w: World) {
    && RecordsOk(w) && SpawnedOk(w)
    && (forall pid <- w.procs :: pid < w.unused && ProcOk(w, pid, w.procs[pid]))
  }

  // ---------------------------------------------------------------- every step keeps it

  predicate IsCaller(w: World, pid: nat) {
    pid in w.procs && w.procs[pid].Caller?
  }

  predicate IsWorker(w: World, pid: nat) {
    pid in w.procs && w.procs[pid].Worker?
  }

  /** Where a caller or a supervisor is; a process that is not there has ended. */
  function CallerAt(w: World, pid: nat): CallerPc {
    if IsCaller(w, pid) then w.procs[pid].cpc else Returned(false, false)
  }

  function WorkerAt(w: World, pid: nat): WorkerPc {
    if IsWorker(w, pid) then w.procs[pid].wpc else Stopped
  }

  /** What a caller's step leaves alone: everything but its key, its own process, and new entries. */
  ghost predicate CallerFrame(w: World, w': World, pid: nat)
    requires IsCaller(w, pid)
  {
    && w.unused <= w'.unused && w'.dirs == w.dirs && w'.workerLocks == w.workerLocks && w'.spawned == w.spawned
    && w.records.Keys <= w'.records.Keys
    && (forall i <- w.records :: w'.records[i] == w.records[i])
    && (forall i <- w'.records :: i !in w.records ==> w'.records[i].key == w.procs[pid].key && w.procs[pid].cpc.Register?)
    && (forall k <- w.keyLocks :: w.keyLocks[k] != pid ==> k in w'.keyLocks && w'.keyLocks[k] == w.keyLocks[k])
    && (forall q <- w.procs :: q in w'.procs && (q != pid ==> w'.procs[q] == w.procs[q]))
    && (forall q <- w'.procs :: q in w.procs || (q < w'.unused && w'.procs[q].Worker? && w'.procs[q].wpc.WaitWorker?))
  }

  ghost predicate CallerKept(w: World, w': World, pid: nat)
    requires IsCaller(w, pid)
  {
    && CallerFrame(w, w', pid) && RecordsOk(w') && SpawnedOk(w')
    && pid in w'.procs && w'.procs[pid].Caller? && CallerOk(w', pid, w'.procs[pid])
  }

  lemma LeaveKept(w: World, pid: nat, ok: bool)
    requires Inv(w) && IsCaller(w, pid) && HoldsKey(CallerAt(w, pid))
    ensures CallerKept(w, Leave(w, pid, w.procs[pid], ok), pid)
  {
    assert CallerOk(w, pid, w.procs[pid]);
  }

  lemma LookUpKept(w: World, pid: nat, luck: Luck)
    requires Inv(w) && IsCaller(w, pid) && (CallerAt(w, pid).WaitKey? || CallerAt(w, pid).LookUp?)
    ensures CallerKept(w, LookUpStep(w, pid, w.procs[pid], luck), pid)
  {
    var p := w.procs[pid];
    assert CallerOk(w, pid, p);
    if p.cpc.LookUp? && (!luck.ok || KeyKnown(w, p.key)) {
      LeaveKept(w, pid, luck.ok && exists i <- w.records ::
        w.records[i].key == p.key && w.records[i].intent == p.intent && w.records[i].managed == p.managed);
    }
  }

  lemma ReadRevisionKept(w: World, pid: nat)
    requires Inv(w) && IsCaller(w, pid) && CallerAt(w, pid).ReadRevision?
    ensures CallerKept(w, ReadRevisionStep(w, pid, w.procs[pid]), pid)
  {
    assert CallerOk(w, pid, w.procs[pid]);
  }

  /** Under the key lock the transaction never meets a key that is already registered. */
  lemma RegisterKept(w: World, pid: nat, luck: Luck)
    requires Inv(w) && IsCaller(w, pid) && CallerAt(w, pid).Register?
    ensures CallerKept(w, RegisterStep(w, pid, w.procs[pid], luck), pid)
    ensures !KeyKnown(w, w.procs[pid].key)
  {
    var p := w.procs[pid];
    assert CallerOk(w, pid, p);
    if w.revision != p.cpc.expected {
      var w' := RegisterStep(w, pid, p, luck);
      assert CallerOk(w', pid, w'.procs[pid]);
    } else if !luck.ok {
      LeaveKept(w, pid, false);
    } else {
      var w' := RegisterStep(w, pid, p, luck);
      assert w.unused !in w.records;
      assert RecordsOk(w');
      assert SpawnedOk(w');
    }
  }

  lemma DispatchKept(w: World, pid: nat, luck: Luck)
    requires Inv(w) && IsCaller(w, pid) && CallerAt(w, pid).Dispatch?
    ensures CallerKept(w, DispatchStep(w, pid, w.procs[pid], luck), pid)
  {
    assert CallerOk(w, pid, w.procs[pid]);
  }

  lemma CallerOthersKeep(w: World, w': World, pid: nat, q: nat)
    requires Inv(w) && IsCaller(w, pid) && CallerFrame(w, w', pid)
    requires q in w.procs && q != pid
    ensures ProcOk(w', q, w.procs[q])
  {
    var p := w.procs[q];
    if p.Caller? && HoldsKey(p.cpc) && !p.cpc.LookUp? && KeyKnown(w', p.key) {
      // a second caller inside its critical section would hold the same lock
      var i :| i in w'.records && w'.records[i].key == p.key;
      assert i in w.records;
      assert KeyKnown(w, p.key);
    }
  }

  lemma CallerStepKeeps(w: World, pid: nat, luck: Luck)
    requires Inv(w) && IsCaller(w, pid)
    ensures Inv(CallerStep(w, pid, w.procs[pid], luck))
  {
    var w' := CallerStep(w, pid, w.procs[pid], luck);
    match w.procs[pid].cpc {
      case WaitKey | LookUp => LookUpKept(w, pid, luck);
      case ReadRevision(_) => ReadRevisionKept(w, pid);
      case Register(_, _) => RegisterKept(w, pid, luck);
      case Dispatch(_) => DispatchKept(w, pid, luck);
      case Returned(_, _) =>
    }
    assert CallerKept(w, w', pid);
    forall q | q in w'.procs
      ensures q < w'.unused && ProcOk(w', q, w'.procs[q])
    {
      if q in w.procs && q != pid {
        CallerOthersKeep(w, w', pid, q);
      }
    }
  }

  /** Nothing registered, started or finished is ever taken back or changed. */
  ghost predicate History(w: World, w': World) {
    && w.spawned <= w'.spawned
    && forall i <- w.records ::
         && i in w'.records && w'.records[i] == w.records[i].(state := w'.records[i].state)
         && (!w.records[i].state.Registered? ==> !w'.records[i].state.Registered?)
         && (w.records[i].state.Finished? ==> w'.records[i] == w.records[i])
  }

  /** Only the holder of the worker lock changes a record or its directory. */
  ghost predicate WorkerFrame(w: World, w': World, pid: nat)
    requires IsWorker(w, pid)
  {
    var id := w.procs[pid].id;
    && w.unused <= w'.unused && w'.keyLocks == w.keyLocks
    && w'.records.Keys == w.records.Keys
    && (forall i <- w.records :: w'.records[i].key == w.records[i].key)
    && (forall i <- w.records :: i != id ==> w'.records[i] == w.records[i])
    && (forall i :: i != id ==> (i in w'.dirs <==> i in w.dirs))
    && (forall i <- w.dirs :: i != id ==> w'.dirs[i] == w.dirs[i])
    && (forall i <- w'.spawned :: i in w.spawned || i == id)
    && (HoldsWorker(w.procs[pid].wpc) || (w'.records == w.records && w'.dirs == w.dirs && w'.spawned == w.spawned))
    && (forall i <- w.workerLocks :: w.workerLocks[i] != pid ==> i in w'.workerLocks && w'.workerLocks[i] == w.workerLocks[i])
    && w'.procs.Keys == w.procs.Keys
    && (forall q <- w.procs :: q != pid ==> w'.procs[q] == w.procs[q])
  }

  ghost predicate WorkerKept(w: World, w': World, pid: nat)
    requires IsWorker(w, pid)
  {
    && WorkerFrame(w, w', pid) && RecordsOk(w') && SpawnedOk(w') && History(w, w')
    && pid in w'.procs && w'.procs[pid].Worker? && WorkerOk(w', pid, w'.procs[pid])
  }

  /** Moving on without touching anything shared. */
  lemma MoveKept(w: World, pid: nat, pc: WorkerPc)
    requires Inv(w) && IsWorker(w, pid)
    requires WorkerOk(w, pid, Worker(w.procs[pid].id, pc))
    ensures WorkerKept(w, Goto(w, pid, Worker(w.procs[pid].id, pc)), pid)
  {
  }

  lemma StopKept(w: World, pid: nat)
    requires Inv(w) && IsWorker(w, pid) && HoldsWorker(WorkerAt(w, pid))
    ensures WorkerKept(w, Stop(w, pid, w.procs[pid]), pid)
  {
    assert WorkerOk(w, pid, w.procs[pid]);
  }

  /** The holder moves its directory on. */
  lemma DirKept(w: World, pid: nat, dir: Dir, pc: WorkerPc, unused: nat)
    requires Inv(w) && IsWorker(w, pid) && HoldsWorker(w.procs[pid].wpc) && !w.procs[pid].wpc.Check?
    requires !w.records[w.procs[pid].id].state.Finished? && w.unused <= unused
    requires var id := w.procs[pid].id; WorkerOk(w.(dirs := w.dirs[id := dir]), pid, Worker(id, pc))
    ensures var id := w.procs[pid].id;
      WorkerKept(w, Goto(w, pid, Worker(id, pc)).(dirs := w.dirs[id := dir], unused := unused), pid)
  {
    var id := w.procs[pid].id;
    var w' := Goto(w, pid, Worker(id, pc)).(dirs := w.dirs[id := dir], unused := unused);
    assert RecordsOk(w');
    assert WorkerOk(w', pid, Worker(id, pc));
  }

  /** The holder moves its record on, to a state its directory agrees with. */
  lemma StateKept(w: World, pid: nat, state: State, pc: WorkerPc)
    requires Inv(w) && IsWorker(w, pid) && w.procs[pid].id in w.records
    requires HoldsWorker(w.procs[pid].wpc) && HoldsWorker(pc)
    requires !state.Registered? && !w.records[w.procs[pid].id].state.Finished?
    requires state.Finished? ==> w.procs[pid].id in w.dirs && w.dirs[w.procs[pid].id].result == Some(state.receipt)
    requires var id := w.procs[pid].id; WorkerOk(WithState(w, id, state), pid, Worker(id, pc))
    ensures var id := w.procs[pid].id; WorkerKept(w, WithState(Goto(w, pid, Worker(id, pc)), id, state), pid)
  {
    var id := w.procs[pid].id;
    var w' := WithState(Goto(w, pid, Worker(id, pc)), id, state);
    assert WorkerOk(w', pid, Worker(id, pc));
    assert RecordsOk(w');
    assert SpawnedOk(w');
  }

  lemma ClaimKept(w: World, pid: nat, luck: Luck)
    requires Inv(w) && IsWorker(w, pid)
    requires WorkerAt(w, pid).WaitWorker? || WorkerAt(w, pid).Check? || WorkerAt(w, pid).MakeDir?
    ensures WorkerKept(w, ClaimStep(w, pid, w.procs[pid], luck), pid)
  {
    var p := w.procs[pid];
    assert WorkerOk(w, pid, p);
    if p.wpc.Check? {
      if luck.ok && p.id in w.records && w.records[p.id].state.Registered? && w.records[p.id].managed {
        MoveKept(w, pid, MakeDir);
      } else {
        StopKept(w, pid);
      }
    } else if p.wpc.MakeDir? && p.id in w.dirs {
      StopKept(w, pid);
    } else if p.wpc.MakeDir? {
      DirKept(w, pid, Dir(None, None), ReadStart(w.unused, 0), w.unused + 1);
    }
  }

  /** The command is started by the holder of the starting identity, which has started none before. */
  lemma SpawnKept(w: World, pid: nat)
    requires Inv(w) && IsWorker(w, pid) && WorkerAt(w, pid).SpawnCommand?
    ensures WorkerKept(w, LaunchStep(w, pid, w.procs[pid], Luck(true, 0)), pid)
    ensures w.procs[pid].id !in w.spawned
  {
    var p := w.procs[pid];
    assert WorkerOk(w, pid, p);
    var w' := LaunchStep(w, pid, p, Luck(true, 0));
    assert w'.spawned == w.spawned + [p.id];
    assert SpawnedOk(w');
  }

  lemma LaunchKept(w: World, pid: nat, luck: Luck)
    requires Inv(w) && IsWorker(w, pid)
    requires WorkerAt(w, pid).ReadStart? || WorkerAt(w, pid).CommitStart? || WorkerAt(w, pid).SpawnCommand?
    ensures WorkerKept(w, LaunchStep(w, pid, w.procs[pid], luck), pid)
  {
    var p := w.procs[pid];
    assert WorkerOk(w, pid, p);
    match p.wpc {
      case ReadStart(nonce, n) =>
        if n >= ATTEMPTS {
          StopKept(w, pid);
        } else {
          MoveKept(w, pid, CommitStart(nonce, n, w.revision));
        }
      case CommitStart(nonce, n, expected) =>
        if w.revision != expected {
          MoveKept(w, pid, ReadStart(nonce, n + 1));
        } else {
          assert p.id !in w.spawned;
          StateKept(w, pid, Starting(nonce), SpawnCommand(nonce));
        }
      case SpawnCommand(nonce) =>
        if luck.ok {
          SpawnKept(w, pid);
        } else {
          MoveKept(w, pid, WriteReceipt(Receipt(nonce, luck.outcome)));
        }
    }
  }

  lemma WatchKept(w: World, pid: nat, luck: Luck)
    requires Inv(w) && IsWorker(w, pid)
    requires WorkerAt(w, pid).ReadRunning? || WorkerAt(w, pid).CommitRunning? || WorkerAt(w, pid).AwaitExit?
    ensures WorkerKept(w, WatchStep(w, pid, w.procs[pid], luck), pid)
  {
    var p := w.procs[pid];
    assert WorkerOk(w, pid, p);
    match p.wpc {
      case ReadRunning(nonce, n) =>
        MoveKept(w, pid, if n >= ATTEMPTS then AwaitExit(nonce) else CommitRunning(nonce, n, w.revision));
      case CommitRunning(nonce, n, expected) =>
        if w.revision != expected {
          MoveKept(w, pid, ReadRunning(nonce, n + 1));
        } else if w.records[p.id].state == Starting(nonce) {
          StateKept(w, pid, Running(nonce), AwaitExit(nonce));
        } else {
          MoveKept(w, pid, AwaitExit(nonce));
        }
      case AwaitExit(nonce) =>
        if luck.ok {
          MoveKept(w, pid, WriteReceipt(Receipt(nonce, luck.outcome)));
        } else {
          MoveKept(w, pid, p.wpc);
          assert Goto(w, pid, p).procs == w.procs;
        }
    }
  }

  lemma ReportKept(w: World, pid: nat)
    requires Inv(w) && IsWorker(w, pid)
    requires var pc := WorkerAt(w, pid); pc.WriteReceipt? || pc.RenameReceipt? || pc.ReadFinish? || pc.CommitFinish?
    ensures WorkerKept(w, ReportStep(w, pid, w.procs[pid]), pid)
  {
    var p := w.procs[pid];
    assert WorkerOk(w, pid, p);
    match p.wpc {
      case WriteReceipt(r) => DirKept(w, pid, Dir(Some(r), None), RenameReceipt(r), w.unused);
      case RenameReceipt(r) => DirKept(w, pid, Dir(None, Some(r)), ReadFinish(r, 0), w.unused);
      case ReadFinish(r, n) =>
        if n >= ATTEMPTS {
          StopKept(w, pid);
        } else {
          MoveKept(w, pid, CommitFinish(r, n, w.revision));
        }
      case CommitFinish(r, n, expected) =>
        if w.revision != expected {
          MoveKept(w, pid, ReadFinish(r, n + 1));
        } else {
          FinishKept(w, pid);
        }
    }
  }

  lemma FinishKept(w: World, pid: nat)
    requires Inv(w) && IsWorker(w, pid) && WorkerAt(w, pid).CommitFinish?
    ensures var p := w.procs[pid];
      p.id in w.records && StartedBy(w.records[p.id].state, p.wpc.receipt.nonce) &&
      WorkerKept(w, WithState(Stop(w, pid, p), p.id, Finished(p.wpc.receipt)), pid)
  {
    var p := w.procs[pid];
    assert WorkerOk(w, pid, p);
    var w' := WithState(Stop(w, pid, p), p.id, Finished(p.wpc.receipt));
    assert RecordsOk(w');
    assert SpawnedOk(w');
  }

  lemma WorkerOthersKeep(w: World, w': World, pid: nat, q: nat)
    requires Inv(w) && IsWorker(w, pid) && WorkerFrame(w, w', pid)
    requires q in w.procs && q != pid
    ensures ProcOk(w', q, w.procs[q])
  {
    var p := w.procs[q];
    if p.Caller? && HoldsKey(p.cpc) && !p.cpc.LookUp? && KeyKnown(w', p.key) {
      var i :| i in w'.records && w'.records[i].key == p.key;
      assert w.records[i].key == p.key;
      assert KeyKnown(w, p.key);
    }
    if p.Worker? && HoldsWorker(p.wpc) && HoldsWorker(w.procs[pid].wpc) {
      assert p.id != w.procs[pid].id;
    }
  }

  lemma WorkerStepKept(w: World, pid: nat, luck: Luck)
    requires Inv(w) && IsWorker(w, pid)
    ensures WorkerKept(w, WorkerStep(w, pid, w.procs[pid], luck), pid)
  {
    match w.procs[pid].wpc {
      case WaitWorker | Check | MakeDir => ClaimKept(w, pid, luck);
      case ReadStart(_, _) | CommitStart(_, _, _) | SpawnCommand(_) => LaunchKept(w, pid, luck);
      case ReadRunning(_, _) | CommitRunning(_, _, _) | AwaitExit(_) => WatchKept(w, pid, luck);
      case WriteReceipt(_) | RenameReceipt(_) | ReadFinish(_, _) | CommitFinish(_, _, _) => ReportKept(w, pid);
      case Stopped =>
    }
  }

  lemma WorkerStepKeeps(w: World, pid: nat, luck: Luck)
    requires Inv(w) && IsWorker(w, pid)
    ensures Inv(WorkerStep(w, pid, w.procs[pid], luck))
  {
    var w' := WorkerStep(w, pid, w.procs[pid], luck);
    WorkerStepKept(w, pid, luck);
    forall q | q in w'.procs
      ensures q < w'.unused && ProcOk(w', q, w'.procs[q])
    {
      if q != pid {
        WorkerOthersKeep(w, w', pid, q);
      }
    }
  }

  lemma KilledFrame(w: World, pid: nat)
    requires pid in w.procs
    ensures var w' := Killed(w, pid);
      && w'.records == w.records && w'.dirs == w.dirs && w'.spawned == w.spawned && w'.unused == w.unused
      && w'.procs == w.procs - {pid}
  {
  }

  /** The invariants of the store do not depend on the processes. */
  lemma StoreKept(w: World, w': World)
    requires RecordsOk(w) && SpawnedOk(w)
    requires w'.records == w.records && w'.dirs == w.dirs && w'.spawned == w.spawned && w'.unused == w.unused
    ensures RecordsOk(w') && SpawnedOk(w')
  {
  }

  lemma CrashKeeps(w: World, pid: nat)
    requires Inv(w) && pid in w.procs
    ensures Inv(Killed(w, pid))
  {
    KilledFrame(w, pid);
    StoreKept(w, Killed(w, pid));
    forall q | q in w.procs - {pid}
      ensures q < w.unused && ProcOk(Killed(w, pid), q, w.procs[q])
    {
      SurvivorKeeps(w, pid, q);
    }
  }

  lemma SurvivorKeeps(w: World, pid: nat, q: nat)
    requires Inv(w) && pid in w.procs && q in w.procs && q != pid
    ensures ProcOk(Killed(w, pid), q, w.procs[q])
  {
    assert ProcOk(w, q, w.procs[q]) && ProcOk(w, pid, w.procs[pid]);
    var w' := Killed(w, pid);
    assert forall key: Key :: KeyKnown(w', key) == KeyKnown(w, key);
  }

  lemma OtherCommitKeeps(w: World)
    requires Inv(w)
    ensures Inv(w.(revision := w.revision + 1))
  {
    var w' := w.(revision := w.revision + 1);
    forall q | q in w'.procs
      ensures ProcOk(w', q, w'.procs[q])
    {
      assert ProcOk(w, q, w.procs[q]);
    }
  }

  lemma ArrivalKeeps(w: World, a: Action)
    requires Inv(w) && (a.NewCaller? || a.NewWorker?)
    ensures Inv(Apply(w, a))
  {
    var w' := Apply(w, a);
    forall q | q in w'.procs
      ensures ProcOk(w', q, w'.procs[q])
    {
      if q != w.unused {
        assert ProcOk(w, q, w.procs[q]);
      }
    }
  }

  lemma AdvanceKeeps(w: World, pid: nat, luck: Luck)
    requires Inv(w) && pid in w.procs
    ensures Inv(Apply(w, Advance(pid, luck)))
  {
    if w.procs[pid].Caller? {
      CallerStepKeeps(w, pid, luck);
    } else {
      WorkerStepKeeps(w, pid, luck);
    }
  }

  /** The steps that are not a process going on: an arrival, a crash, a foreign commit. */
  lemma OutsideKeeps(w: World, a: Action)
    requires Inv(w) && !a.Advance?
    ensures Inv(Apply(w, a))
  {
    match a {
      case NewCaller(_, _, _) => ArrivalKeeps(w, a);
      case NewWorker(_) => ArrivalKeeps(w, a);
      case OtherCommit => OtherCommitKeeps(w);
      case Crash(pid) =>
        if pid in w.procs {
          CrashKeeps(w, pid);
        }
    }
  }

  lemma ApplyKeeps(w: World, a: Action)
    requires Inv(w)
    ensures Inv(Apply(w, a))
  {
    if !a.Advance? {
      OutsideKeeps(w, a);
    } else if a.pid in w.procs {
      AdvanceKeeps(w, a.pid, a.luck);
    }
  }

  // ---------------------------------------------------------------- history

  lemma ApplyHistory(w: World, a: Action)
    requires Inv(w)
    ensures History(w, Apply(w, a))
  {
    if a.Advance? && a.pid in w.procs {
      if w.procs[a.pid].Caller? {
        CallerHistory(w, a.pid, a.luck);
      } else {
        WorkerStepKept(w, a.pid, a.luck);
      }
    }
  }

  lemma CallerHistory(w: World, pid: nat, luck: Luck)
    requires Inv(w) && IsCaller(w, pid)
    ensures History(w, CallerStep(w, pid, w.procs[pid], luck))
  {
    assert w.unused !in w.records;
  }

  /** Safety over every interleaving of callers, workers, foreign commits and crashes. */
  lemma {:induction false} RunSafe(w: World, actions: seq<Action>)
    requires Inv(w)
    ensures Inv(RunEnd(w, actions)) && History(w, RunEnd(w, actions))
    decreases |actions|
  {
    if actions != [] {
      ApplyKeeps(w, actions[0]);
      ApplyHistory(w, actions[0]);
      RunSafe(Apply(w, actions[0]), actions[1..]);
    }
  }

  /** How many of the commands started so far belong to operation `key`. */
  function StartedFor(w: World, ids: seq<Id>, key: Key): nat {
    if ids == [] then 0
    else (if ids[0] in w.records && w.records[ids[0]].key == key then 1 else 0) + StartedFor(w, ids[1..], key)
  }

  lemma {:induction false} StartedAtMostOnce(w: World, ids: seq<Id>, key: Key)
    requires RecordsOk(w)
    requires forall h, k :: 0 <= h < k < |ids| ==> ids[h] != ids[k]
    ensures StartedFor(w, ids, key) <= 1
    ensures (forall i <- ids :: i in w.records ==> w.records[i].key != key) ==> StartedFor(w, ids, key) == 0
  {
    if ids != [] {
      var rest := ids[1..];
      assert forall i <- rest :: i in ids && i != ids[0];
      StartedAtMostOnce(w, rest, key);
    }
  }

  /**
   From an empty project, over every interleaving: an operation key has at most one execution, its
   command is started at most once, and a finished execution has the equal receipt on disk.
   */
  lemma AtMostOnce(actions: seq<Action>, key: Key)
    ensures var w := RunEnd(EMPTY, actions);
      && (forall i, j :: i in w.records && j in w.records && w.records[i].key == key == w.records[j].key ==> i == j)
      && StartedFor(w, w.spawned, key) <= 1
      && (forall i <- w.records :: w.records[i].state.Finished? ==>
            i in w.dirs && w.dirs[i].result == Some(w.records[i].state.receipt))
  {
    RunSafe(EMPTY, actions);
    var w := RunEnd(EMPTY, actions);
    StartedAtMostOnce(w, w.spawned, key);
  }

  /** What an earlier moment of a run recorded, every later moment still shows. */
  lemma {:induction false} RecordedForGood(actions: seq<Action>, more: seq<Action>)
    ensures var w := RunEnd(EMPTY, actions);
      History(w, RunEnd(w, more)) && RunEnd(w, more) == RunEnd(EMPTY, actions + more)
  {
    RunSafe(EMPTY, actions);
    RunSafe(RunEnd(EMPTY, actions), more);
    RunConcat(EMPTY, actions, more);
  }

  lemma {:induction false} RunConcat(w: World, a: seq<Action>, b: seq<Action>)
    ensures RunEnd(RunEnd(w, a), b) == RunEnd(w, a + b)
    decreases |a|
  {
    if a == [] {
      assert a + b == b;
    } else {
      assert (a + b)[0] == a[0] && (a + b)[1..] == a[1..] + b;
      RunConcat(Apply(w, a[0]), a[1..], b);
    }
  }

  // ---------------------------------------------------------------- bounded optimistic retry

  datatype Verdict = Committed | Refused | Busy

  /** `others[i]` counts the foreign commits between the i-th reading of the revision and its transaction. */
  function FirstQuiet(others: seq<nat>, i: nat): (n: nat)
    requires |others| == ATTEMPTS && i <= ATTEMPTS
    ensures i <= n <= ATTEMPTS
    ensures n < ATTEMPTS ==> others[n] == 0
    ensures forall k :: i <= k < n ==> others[k] > 0
    decreases |others|, ATTEMPTS - i
  {
    if i == ATTEMPTS || others[i] == 0 then i else FirstQuiet(others, i + 1)
  }

  function Sum(xs: seq<nat>): nat {
    if xs == [] then 0 else Sum(xs[..|xs| - 1]) + xs[|xs| - 1]
  }

  class Store {
    var revision: nat
    var commits: nat

    constructor ()
      ensures commits == 0
    {
      revision, commits := 0, 0;
    }

    /**
     Commit an action with the revision read just before it, at most sixteen times. It commits exactly
     once or not at all: in the first round nobody interfered with, if the action is acceptable there.
     */
    method Retry(others: seq<nat>, acceptable: bool) returns (v: Verdict)
      requires |others| == ATTEMPTS
      modifies this
      ensures v == if FirstQuiet(others, 0) == ATTEMPTS then Busy else if acceptable then Committed else Refused
      ensures commits == old(commits) + if v.Committed? then 1 else 0
      ensures revision == old(revision) + Sum(others[..FirstQuiet(others, 0)]) + if v.Committed? then 1 else 0
    {
      for i := 0 to ATTEMPTS
        invariant FirstQuiet(others, 0) == FirstQuiet(others, i)
        invariant commits == old(commits) && revision == old(revision) + Sum(others[..i])
      {
        var expected := revision;
        revision := revision + others[i];
        if revision == expected {
          if !acceptable {
            return Refused;
          }
          revision, commits := revision + 1, commits + 1;
          return Committed;
        }
        assert others[..i + 1][..i] == others[..i];
      }
      v := Busy;
    }
  }
}
