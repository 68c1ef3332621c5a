/**
 The supervisor of one execution, as the sequence of statements it runs. Each statement is one step of
 the interleaving machine, so whatever holds of every interleaving holds of it; undisturbed enough, it
 carries its execution to the end.
 */
module Supervisor {
  import opened Prelude
  import opened Execution

  /** `w` with the supervisor at `pc` and its execution in `state`, everything else but the revision unchanged. */
  function Reached(w: World, pid: nat, id: Id, pc: WorkerPc, state: State, revision: nat): World
    requires id in w.records
  {
    w.(procs := w.procs[pid := Worker(id, pc)], records := w.records[id := w.records[id].(state := state)], revision := revision)
  }

  lemma ReachedTwice(w: World, pid: nat, id: Id, a: WorkerPc, s: State, m: nat, b: WorkerPc, t: State, n: nat)
    requires id in w.records
    ensures Reached(Reached(w, pid, id, a, s, m), pid, id, b, t, n) == Reached(w, pid, id, b, t, n)
  {
  }

  /** Reading the revision for one more attempt, then `n` commits of others. */
  lemma ReadsRevision(w: World, pid: nat, id: Id, luck: Luck, n: nat)
    requires id in w.records && pid in w.procs && w.procs[pid].Worker? && w.procs[pid].id == id
    requires var pc := w.procs[pid].wpc; (pc.ReadStart? || pc.ReadRunning? || pc.ReadFinish?) && pc.attempt < ATTEMPTS
    ensures var pc := w.procs[pid].wpc;
      var next := match pc
        case ReadStart(nonce, i) => CommitStart(nonce, i, w.revision)
        case ReadRunning(nonce, i) => CommitRunning(nonce, i, w.revision)
        case ReadFinish(r, i) => CommitFinish(r, i, w.revision)
        case _ => pc;
      WorkerStep(w, pid, w.procs[pid], luck).(revision := w.revision + n) == Reached(w, pid, id, next, w.records[id].state, w.revision + n)
  {
  }

  ghost predicate IsStep(worlds: seq<World>, actions: seq<Action>, i: nat)
    requires |worlds| == |actions| + 1 && i < |actions|
  {
    worlds[i + 1] == Apply(worlds[i], actions[i])
  }

  /** `worlds` are the states the actions lead through. */
  ghost predicate Leads(worlds: seq<World>, actions: seq<Action>) {
    |worlds| == |actions| + 1 && forall i :: 0 <= i < |actions| ==> IsStep(worlds, actions, i)
  }

  lemma LeadsOn(worlds: seq<World>, actions: seq<Action>, a: Action)
    requires Leads(worlds, actions)
    ensures Leads(worlds + [Apply(worlds[|actions|], a)], actions + [a])
  {
    var more, longer := worlds + [Apply(worlds[|actions|], a)], actions + [a];
    forall i | 0 <= i < |longer|
      ensures IsStep(more, longer, i)
    {
      assert i < |actions| ==> IsStep(worlds, actions, i);
    }
  }

  /** They are a run of the interleaving machine. */
  lemma {:induction false} LeadsIsRun(worlds: seq<World>, actions: seq<Action>)
    requires Leads(worlds, actions)
    ensures RunEnd(worlds[0], actions) == worlds[|actions|]
    decreases |actions|
  {
    if actions != [] {
      assert IsStep(worlds, actions, 0);
      forall i | 0 <= i < |actions| - 1
        ensures IsStep(worlds[1..], actions[1..], i)
      {
        assert IsStep(worlds, actions, i + 1);
      }
      LeadsIsRun(worlds[1..], actions[1..]);
    }
  }

  lemma SumNext(others: seq<nat>, i: nat)
    requires i < |others|
    ensures Sum(others[..i + 1]) == Sum(others[..i]) + others[i]
  {
    assert others[..i + 1][..i] == others[..i];
  }

  /** `worlds` are the states the steps `actions` led through, up to `world`. */
  class SupervisedExecution {
    const pid: nat
    const id: Id
    var world: World
    ghost const origin: World
    ghost var worlds: seq<World>
    ghost var actions: seq<Action>

    ghost predicate Valid()
      reads this
    {
      Leads(worlds, actions) && worlds[0] == origin && worlds[|actions|] == world
    }

    ghost predicate At(pc: WorkerPc)
      reads this
    {
      pid in world.procs && world.procs[pid] == Proc.Worker(id, pc) && id in world.records
    }

    constructor (world: World, pid: nat, id: Id)
      ensures Valid() && this.world == origin == world && this.pid == pid && this.id == id
    {
      this.world, this.pid, this.id := world, pid, id;
      origin, worlds, actions := world, [world], [];
    }

    method Take(a: Action)
      requires Valid()
      modifies this
      ensures Valid() && world == Apply(old(world), a) && worlds == old(worlds) + [world] && actions == old(actions) + [a]
    {
      LeadsOn(worlds, actions, a);
      world := Apply(world, a);
      worlds, actions := worlds + [world], actions + [a];
    }

    method Step(luck: Luck)
      requires Valid() && pid in world.procs && world.procs[pid].Worker?
      modifies this
      ensures Valid() && world == WorkerStep(old(world), pid, old(world.procs[pid]), luck)
    {
      Take(Advance(pid, luck));
    }

    /** Other processes commit `n` times. */
    method Others(n: nat)
      requires Valid()
      modifies this
      ensures Valid() && world == old(world).(revision := old(world).revision + n)
    {
      for i := 0 to n
        invariant Valid() && world == old(world).(revision := old(world).revision + i)
      {
        Take(OtherCommit);
      }
    }

    /** Read the revision, others commit `n` times, then commit with the revision read. */
    method TryStart(nonce: nat, i: nat, n: nat)
      requires Valid() && At(ReadStart(nonce, i)) && i < ATTEMPTS
      requires world.records[id].state.Registered? && world.records[id].managed
      modifies this
      ensures Valid() && world == if n == 0
        then Reached(old(world), pid, id, SpawnCommand(nonce), Starting(nonce), old(world).revision + 1)
        else Reached(old(world), pid, id, ReadStart(nonce, i + 1), State.Registered, old(world).revision + n)
    {
      ReadsRevision(world, pid, id, Luck(true, 0), n);
      Step(Luck(true, 0));
      Others(n);
      Step(Luck(true, 0));
    }

    method TryRunning(nonce: nat, i: nat, n: nat)
      requires Valid() && At(ReadRunning(nonce, i)) && i < ATTEMPTS && world.records[id].state == Starting(nonce)
      modifies this
      ensures Valid() && world == if n == 0
        then Reached(old(world), pid, id, AwaitExit(nonce), Running(nonce), old(world).revision + 1)
        else Reached(old(world), pid, id, ReadRunning(nonce, i + 1), Starting(nonce), old(world).revision + n)
    {
      ReadsRevision(world, pid, id, Luck(true, 0), n);
      Step(Luck(true, 0));
      Others(n);
      Step(Luck(true, 0));
    }

    method TryFinish(r: Receipt, i: nat, n: nat)
      requires Valid() && At(ReadFinish(r, i)) && i < ATTEMPTS && StartedBy(world.records[id].state, r.nonce)
      modifies this
      ensures Valid() && world == if n == 0
        then Reached(old(world), pid, id, Stopped, Finished(r), old(world).revision + 1).(workerLocks := old(world).workerLocks - {id})
        else Reached(old(world), pid, id, ReadFinish(r, i + 1), old(world).records[id].state, old(world).revision + n)
    {
      ReadsRevision(world, pid, id, Luck(true, 0), n);
      Step(Luck(true, 0));
      Others(n);
      Step(Luck(true, 0));
    }

    /** After sixteen conflicts: stop, or for a running child go on without the record. */
    method GiveUp(next: WorkerPc)
      requires Valid() && id in world.records && pid in world.procs && world.procs[pid].Worker? && world.procs[pid].id == id
      requires var pc := world.procs[pid].wpc;
        || (next.Stopped? && (pc.ReadStart? || pc.ReadFinish?) && pc.attempt == ATTEMPTS)
        || (pc.ReadRunning? && pc.attempt == ATTEMPTS && next == AwaitExit(pc.nonce))
      modifies this
      ensures Valid() && world == Reached(old(world), pid, id, next, old(world).records[id].state, old(world).revision).(
        workerLocks := if next.Stopped? then old(world).workerLocks - {id} else old(world).workerLocks)
    {
      Step(Luck(true, 0));
    }

    /** One attempt of the starting record, seen from the world `w` before the first. */
    method StartRound(ghost w: World, ghost m: nat, nonce: nat, i: nat, n: nat)
      requires Valid() && i < ATTEMPTS && id in w.records && w.records[id].state.Registered? && w.records[id].managed
      requires world == Reached(w, pid, id, ReadStart(nonce, i), State.Registered, m)
      modifies this
      ensures Valid()
      ensures n == 0 ==> world == Reached(w, pid, id, SpawnCommand(nonce), Starting(nonce), m + 1)
      ensures n > 0 ==> world == Reached(w, pid, id, ReadStart(nonce, i + 1), State.Registered, m + n)
    {
      TryStart(nonce, i, n);
      ReachedTwice(w, pid, id, ReadStart(nonce, i), State.Registered, m, SpawnCommand(nonce), Starting(nonce), m + 1);
      ReachedTwice(w, pid, id, ReadStart(nonce, i), State.Registered, m, ReadStart(nonce, i + 1), State.Registered, m + n);
    }

    method RunningRound(ghost w: World, ghost m: nat, nonce: nat, i: nat, n: nat)
      requires Valid() && i < ATTEMPTS && id in w.records
      requires world == Reached(w, pid, id, ReadRunning(nonce, i), Starting(nonce), m)
      modifies this
      ensures Valid()
      ensures n == 0 ==> world == Reached(w, pid, id, AwaitExit(nonce), Running(nonce), m + 1)
      ensures n > 0 ==> world == Reached(w, pid, id, ReadRunning(nonce, i + 1), Starting(nonce), m + n)
    {
      TryRunning(nonce, i, n);
      ReachedTwice(w, pid, id, ReadRunning(nonce, i), Starting(nonce), m, AwaitExit(nonce), Running(nonce), m + 1);
      ReachedTwice(w, pid, id, ReadRunning(nonce, i), Starting(nonce), m, ReadRunning(nonce, i + 1), Starting(nonce), m + n);
    }

    method FinishRound(ghost w: World, ghost s: State, ghost m: nat, r: Receipt, i: nat, n: nat)
      requires Valid() && i < ATTEMPTS && id in w.records && StartedBy(s, r.nonce)
      requires world == Reached(w, pid, id, ReadFinish(r, i), s, m)
      modifies this
      ensures Valid()
      ensures n == 0 ==> world == Reached(w, pid, id, Stopped, Finished(r), m + 1).(workerLocks := w.workerLocks - {id})
      ensures n > 0 ==> world == Reached(w, pid, id, ReadFinish(r, i + 1), s, m + n)
    {
      TryFinish(r, i, n);
      ReachedTwice(w, pid, id, ReadFinish(r, i), s, m, Stopped, Finished(r), m + 1);
      ReachedTwice(w, pid, id, ReadFinish(r, i), s, m, ReadFinish(r, i + 1), s, m + n);
    }

    /** Record the starting identity, at most sixteen attempts; without it nothing is started. */
    method RecordStart(nonce: nat, others: seq<nat>) returns (ok: bool)
      requires Valid() && At(ReadStart(nonce, 0)) && |others| == ATTEMPTS
      requires world.records[id].state.Registered? && world.records[id].managed
      modifies this
      ensures Valid() && ok == (FirstQuiet(others, 0) < ATTEMPTS)
      ensures ok ==> world == Reached(old(world), pid, id, SpawnCommand(nonce), Starting(nonce),
        old(world).revision + Sum(others[..FirstQuiet(others, 0)]) + 1)
      ensures !ok ==> world == Reached(old(world), pid, id, Stopped, State.Registered, old(world).revision + Sum(others)).(
        workerLocks := old(world).workerLocks - {id})
    {
      ghost var w, r := world, world.revision;
      assert world == Reached(w, pid, id, world.procs[pid].wpc, world.records[id].state, r);
      for i := 0 to ATTEMPTS
        invariant FirstQuiet(others, 0) == FirstQuiet(others, i) && r == w.revision + Sum(others[..i])
        invariant Valid() && world == Reached(w, pid, id, ReadStart(nonce, i), State.Registered, r)
      {
        StartRound(w, r, nonce, i, others[i]);
        if others[i] == 0 {
          return true;
        }
        SumNext(others, i);
        r := r + others[i];
      }
      assert others[..ATTEMPTS] == others;
      GiveUp(Stopped);
      ok := false;
    }

    /** Record the running child if possible; otherwise go on with the starting identity alone. */
    method RecordRunning(nonce: nat, others: seq<nat>) returns (recorded: bool)
      requires Valid() && At(ReadRunning(nonce, 0)) && |others| == ATTEMPTS && world.records[id].state == Starting(nonce)
      modifies this
      ensures Valid() && recorded == (FirstQuiet(others, 0) < ATTEMPTS)
      ensures recorded ==> world == Reached(old(world), pid, id, AwaitExit(nonce), Running(nonce),
        old(world).revision + Sum(others[..FirstQuiet(others, 0)]) + 1)
      ensures !recorded ==> world == Reached(old(world), pid, id, AwaitExit(nonce), Starting(nonce), old(world).revision + Sum(others))
    {
      ghost var w, r := world, world.revision;
      assert world == Reached(w, pid, id, world.procs[pid].wpc, world.records[id].state, r);
      for i := 0 to ATTEMPTS
        invariant FirstQuiet(others, 0) == FirstQuiet(others, i) && r == w.revision + Sum(others[..i])
        invariant Valid() && world == Reached(w, pid, id, ReadRunning(nonce, i), Starting(nonce), r)
      {
        RunningRound(w, r, nonce, i, others[i]);
        if others[i] == 0 {
          return true;
        }
        SumNext(others, i);
        r := r + others[i];
      }
      assert others[..ATTEMPTS] == others;
      GiveUp(AwaitExit(nonce));
      recorded := false;
    }

    /** The attempts of the finishing record alone. */
    method FinishRounds(r: Receipt, others: seq<nat>) returns (ok: bool)
      requires Valid() && At(ReadFinish(r, 0)) && |others| == ATTEMPTS && StartedBy(world.records[id].state, r.nonce)
      modifies this
      ensures Valid() && ok == (FirstQuiet(others, 0) < ATTEMPTS)
      ensures ok ==> world == Reached(old(world), pid, id, Stopped, Finished(r),
        old(world).revision + Sum(others[..FirstQuiet(others, 0)]) + 1).(workerLocks := old(world).workerLocks - {id})
      ensures !ok ==> world == Reached(old(world), pid, id, ReadFinish(r, ATTEMPTS), old(world).records[id].state, old(world).revision + Sum(others))
    {
      ghost var w, m, s := world, world.revision, world.records[id].state;
      assert world == Reached(w, pid, id, ReadFinish(r, 0), s, m);
      for i := 0 to ATTEMPTS
        invariant FirstQuiet(others, 0) == FirstQuiet(others, i) && m == w.revision + Sum(others[..i])
        invariant Valid() && world == Reached(w, pid, id, ReadFinish(r, i), s, m)
      {
        FinishRound(w, s, m, r, i, others[i]);
        if others[i] == 0 {
          return true;
        }
        SumNext(others, i);
        m := m + others[i];
      }
      assert others[..ATTEMPTS] == others;
      ok := false;
    }

    /** Commit the finished state, at most sixteen attempts; the receipt on disk stays in any case. */
    method RecordFinish(r: Receipt, others: seq<nat>) returns (ok: bool)
      requires Valid() && At(ReadFinish(r, 0)) && |others| == ATTEMPTS && StartedBy(world.records[id].state, r.nonce)
      modifies this
      ensures Valid() && ok == (FirstQuiet(others, 0) < ATTEMPTS)
      ensures ok ==> world == Reached(old(world), pid, id, Stopped, Finished(r),
        old(world).revision + Sum(others[..FirstQuiet(others, 0)]) + 1).(workerLocks := old(world).workerLocks - {id})
      ensures !ok ==> world == Reached(old(world), pid, id, Stopped, old(world).records[id].state, old(world).revision + Sum(others)).(
        workerLocks := old(world).workerLocks - {id})
    {
      ok := FinishRounds(r, others);
      if !ok {
        ghost var s, m := old(world).records[id].state, old(world).revision + Sum(others);
        GiveUp(Stopped);
        ReachedTwice(old(world), pid, id, ReadFinish(r, ATTEMPTS), s, m, Stopped, s, m);
      }
    }

    /** Write the receipt under a pending name, rename it into place, then record it. */
    method Finish(r: Receipt, others: seq<nat>) returns (ok: bool)
      requires Valid() && At(WriteReceipt(r)) && |others| == ATTEMPTS && StartedBy(world.records[id].state, r.nonce)
      requires id in world.dirs && world.dirs[id] == Dir(None, None)
      modifies this
      ensures Valid() && At(Stopped) && ok == (FirstQuiet(others, 0) < ATTEMPTS)
      ensures world.dirs == old(world).dirs[id := Dir(None, Some(r))] && world.spawned == old(world).spawned
      ensures world.records == old(world).records[id := old(world).records[id].(
        state := if ok then Finished(r) else old(world).records[id].state)]
    {
      Step(Luck(true, 0));
      Step(Luck(true, 0));
      assert world.dirs == old(world).dirs[id := Dir(None, Some(r))];
      ok := RecordFinish(r, others);
    }

    /** Wait for the worker lock, check, and create the execution's directory exclusively. */
    method Claim()
      requires Valid() && At(WaitWorker) && id !in world.workerLocks && id !in world.dirs
      requires world.records[id].state.Registered? && world.records[id].managed
      modifies this
      ensures Valid() && world == old(world).(
        procs := old(world).procs[pid := Proc.Worker(id, ReadStart(old(world).unused, 0))],
        workerLocks := old(world).workerLocks[id := pid], dirs := old(world).dirs[id := Dir(None, None)], unused := old(world).unused + 1)
    {
      Step(Luck(true, 0));
      Step(Luck(true, 0));
      Step(Luck(true, 0));
    }

    /** Start the command; a failure to start is a result like any other. */
    method Spawn(nonce: nat, starts: bool, outcome: nat)
      requires Valid() && At(SpawnCommand(nonce))
      modifies this
      ensures Valid() && world == old(world).(
        procs := old(world).procs[pid := Proc.Worker(id, if starts then ReadRunning(nonce, 0) else WriteReceipt(Receipt(nonce, outcome)))],
        spawned := old(world).spawned + if starts then [id] else [])
    {
      Step(Luck(starts, outcome));
    }

    /** Poll until the command has ended. */
    method Wait(nonce: nat, polls: nat, outcome: nat)
      requires Valid() && At(AwaitExit(nonce))
      modifies this
      ensures Valid() && world == old(world).(procs := old(world).procs[pid := Proc.Worker(id, WriteReceipt(Receipt(nonce, outcome)))])
    {
      for i := 0 to polls
        invariant Valid() && world == old(world)
      {
        Step(Luck(false, 0));
      }
      Step(Luck(true, outcome));
    }

    /** Run the started command to its result. */
    method RunCommand(nonce: nat, running: seq<nat>, finishing: seq<nat>, starts: bool, polls: nat, outcome: nat) returns (ok: bool)
      requires Valid() && At(SpawnCommand(nonce)) && world.records[id].state == Starting(nonce)
      requires id in world.dirs && world.dirs[id] == Dir(None, None)
      requires |running| == |finishing| == ATTEMPTS
      modifies this
      ensures Valid() && At(Stopped) && ok == (FirstQuiet(finishing, 0) < ATTEMPTS)
      ensures world.spawned == old(world).spawned + if starts then [id] else []
      ensures world.dirs == old(world).dirs[id := Dir(None, Some(Receipt(nonce, outcome)))]
      ensures if ok then world.records[id].state == Finished(Receipt(nonce, outcome)) else StartedBy(world.records[id].state, nonce)
    {
      Spawn(nonce, starts, outcome);
      if starts {
        var _ := RecordRunning(nonce, running);
        Wait(nonce, polls, outcome);
      }
      ok := Finish(Receipt(nonce, outcome), finishing);
    }

    /**
     An undisturbed supervisor: the command is started once, its receipt is durable, and the execution is
     recorded finished with that receipt, whenever the starting and the finishing record each find one of
     their sixteen attempts quiet. Without the starting record nothing is started.
     */
    method Supervise(starting: seq<nat>, running: seq<nat>, finishing: seq<nat>, starts: bool, polls: nat, outcome: nat) returns (ok: bool)
      requires Valid() && At(WaitWorker) && id !in world.workerLocks && id !in world.dirs
      requires world.records[id].state.Registered? && world.records[id].managed
      requires |starting| == |running| == |finishing| == ATTEMPTS
      modifies this
      ensures Valid() && At(Stopped) && RunEnd(origin, actions) == world
      ensures ok == (FirstQuiet(starting, 0) < ATTEMPTS && FirstQuiet(finishing, 0) < ATTEMPTS)
      ensures FirstQuiet(starting, 0) < ATTEMPTS ==>
        && world.spawned == old(world).spawned + (if starts then [id] else [])
        && id in world.dirs && world.dirs[id] == Dir(None, Some(Receipt(old(world).unused, outcome)))
      ensures FirstQuiet(starting, 0) == ATTEMPTS ==> world.spawned == old(world).spawned && world.records[id].state.Registered?
      ensures ok ==> world.records[id].state == Finished(Receipt(old(world).unused, outcome))
    {
      Claim();
      var mine := world.procs[pid].wpc.nonce;
      ok := RecordStart(mine, starting);
      if ok {
        ok := RunCommand(mine, running, finishing, starts, polls, outcome);
      }
      LeadsIsRun(worlds, actions);
    }
  }
}
