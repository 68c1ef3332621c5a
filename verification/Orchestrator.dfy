/**
 Bounded scheduling with durable jobs. A step is described by its effects in order: saves of the job
 list and dispatches. A crash keeps a prefix of them, and the next step starts from the last save.
 */
module Orchestrator {
  import opened Prelude
  import Paths

  datatype Execution = Unknown | Running | Stopped

  datatype Job = Job(
    id: nat, work: nat, resources: set<string>, graph: nat, revision: nat,
    execution: Execution, receipt: Option<nat>, workStatus: Option<nat>)
  {
    /** The part of a job fixed when it is created. */
    function Identity(): (nat, nat, set<string>, nat, nat) {
      (id, work, resources, graph, revision)
    }
  }

  type Jobs = seq<Job>

  datatype Event = Saved(jobs: Jobs) | Sent(job: Job)

  datatype Observation = Observed(execution: Execution, receipt: nat) | Raised

  datatype Node = Node(ready: bool, requested: set<string>, status: nat)

  /** `nodes` is the dictionary of the graph by work key, `order` its keys in ascending order. */
  datatype Graph = Graph(complete: bool, valid: bool, nodes: map<nat, Node>, order: seq<nat>, fingerprint: nat, revision: nat)

  /**
   What one step meets: the driver's answers by job id (no answer means it raised), the graph, the
   fresh identity each new job would get, and the ids whose dispatch returns normally.
   */
  datatype Driver = Driver(observed: map<nat, Observation>, graph: Graph, ids: map<nat, nat>, launched: set<nat>)

  predicate SortedKeys(g: Graph) {
    && (forall k <- g.nodes :: k in g.order) && (forall k <- g.order :: k in g.nodes)
    && forall i, j :: 0 <= i < j < |g.order| ==> g.order[i] < g.order[j]
  }

  /** Generated identities: one per work, distinct, and unlike any recorded one. */
  predicate FreshIds(jobs: Jobs, d: Driver) {
    && (forall k <- d.graph.nodes :: k in d.ids)
    && (forall k, l :: k in d.ids && l in d.ids && d.ids[k] == d.ids[l] ==> k == l)
    && forall j <- jobs, k <- d.ids :: j.id != d.ids[k]
  }

  // ---------------------------------------------------------------- one step

  function Reobserved(j: Job, d: Driver): Job {
    if j.execution.Stopped? then j
    else if j.id in d.observed && d.observed[j.id].Observed? then
      j.(execution := d.observed[j.id].execution, receipt := Some(d.observed[j.id].receipt))
    else j.(execution := Unknown)
  }

  /** Observation of jobs i, i+1, ...: stopped jobs are left alone, every other answer is saved at once. */
  function ObserveFrom(jobs: Jobs, i: nat, d: Driver): seq<Event>
    requires i <= |jobs|
    decreases |jobs| - i
  {
    if i == |jobs| then []
    else if jobs[i].execution.Stopped? then ObserveFrom(jobs, i + 1, d)
    else
      var jobs' := jobs[i := Reobserved(jobs[i], d)];
      [Saved(jobs')] + ObserveFrom(jobs', i + 1, d)
  }

  function ObservedFrom(jobs: Jobs, i: nat, d: Driver): Jobs
    requires i <= |jobs|
    decreases |jobs| - i
  {
    if i == |jobs| then jobs else ObservedFrom(jobs[i := Reobserved(jobs[i], d)], i + 1, d)
  }

  function WithStatus(jobs: Jobs, g: Graph): Jobs {
    seq(|jobs|, i requires 0 <= i < |jobs| =>
      jobs[i].(workStatus := if jobs[i].work in g.nodes then Some(g.nodes[jobs[i].work].status) else None))
  }

  function Works(jobs: Jobs): set<nat> {
    set j | j in jobs :: j.work
  }

  function Occupying(jobs: Jobs): Jobs {
    if jobs == [] then []
    else (if jobs[0].execution.Stopped? then [] else [jobs[0]]) + Occupying(jobs[1..])
  }

  function NewJob(key: nat, d: Driver): Job
    requires key in d.graph.nodes && key in d.ids
  {
    Job(d.ids[key], key, d.graph.nodes[key].requested, d.graph.fingerprint, d.graph.revision, Unknown, None, None)
  }

  predicate Eligible(key: nat, jobs: Jobs, known: set<nat>, d: Driver)
    requires key in d.graph.nodes
  {
    var node := d.graph.nodes[key];
    && node.ready && key !in known && node.requested != {}
    && forall j <- Occupying(jobs) :: !Paths.Conflicts(node.requested, j.resources)
  }

  function Launched(j: Job, d: Driver): Job {
    j.(execution := if j.id in d.launched then Running else Unknown)
  }

  function DispatchFrom(jobs: Jobs, order: seq<nat>, known: set<nat>, d: Driver, slots: nat): seq<Event>
    requires forall k <- order :: k in d.graph.nodes && k in d.ids
    decreases |order|
  {
    if order == [] || |Occupying(jobs)| >= slots then []
    else if !Eligible(order[0], jobs, known, d) then DispatchFrom(jobs, order[1..], known, d, slots)
    else
      var job := NewJob(order[0], d);
      var jobs' := jobs + [Launched(job, d)];
      [Saved(jobs + [job]), Sent(job), Saved(jobs')] + DispatchFrom(jobs', order[1..], known, d, slots)
  }

  /** Source statuses are recorded, then free slots are filled; an incomplete or invalid graph raises. */
  function FillEvents(jobs: Jobs, d: Driver, slots: nat): seq<Event>
    requires SortedKeys(d.graph) && FreshIds(jobs, d)
  {
    if !d.graph.complete || !d.graph.valid then []
    else
      var current := WithStatus(jobs, d.graph);
      [Saved(current)] + DispatchFrom(current, d.graph.order, Works(current), d, slots)
  }

  function StepEvents(jobs: Jobs, d: Driver, slots: nat): seq<Event>
    requires SortedKeys(d.graph) && FreshIds(jobs, d)
  {
    ObservedIsFresh(jobs, 0, d);
    ObserveFrom(jobs, 0, d) + FillEvents(ObservedFrom(jobs, 0, d), d, slots)
  }

  // ---------------------------------------------------------------- what every run must look like

  /** Two active jobs never hold conflicting resources, and there are at most `slots` of them. */
  ghost predicate WellScheduled(jobs: Jobs, slots: nat) {
    && (forall i, j :: 0 <= i < j < |jobs| ==> jobs[i].work != jobs[j].work && jobs[i].id != jobs[j].id)
    && |Occupying(jobs)| <= slots
    && (forall i, j :: 0 <= i < j < |jobs| && !jobs[i].execution.Stopped? && !jobs[j].execution.Stopped? ==>
          !Paths.Conflicts(jobs[i].resources, jobs[j].resources))
  }

  /** The list only grows, identities stay, and a stopped job stays stopped. */
  ghost predicate Extends(old_: Jobs, new_: Jobs) {
    && |old_| <= |new_|
    && forall i :: 0 <= i < |old_| ==>
         new_[i].Identity() == old_[i].Identity() && (old_[i].execution.Stopped? ==> new_[i].execution.Stopped?)
  }

  /** The observer of a trace: the jobs on disk and everything sent so far. */
  datatype Monitor = Monitor(disk: Jobs, sent: seq<Job>)

  ghost predicate Allowed(m: Monitor, e: Event, slots: nat) {
    match e
    case Saved(jobs) => WellScheduled(jobs, slots) && Extends(m.disk, jobs)
    case Sent(job) =>
      // durable first, and nothing of that work or identity was sent before
      && (exists i :: 0 <= i < |m.disk| && m.disk[i].Identity() == job.Identity())
      && forall j <- m.sent :: j.work != job.work && j.id != job.id
  }

  function Advance(m: Monitor, e: Event): Monitor {
    match e
    case Saved(jobs) => m.(disk := jobs)
    case Sent(job) => m.(sent := m.sent + [job])
  }

  function AdvanceAll(m: Monitor, t: seq<Event>): Monitor
    decreases |t|
  {
    if t == [] then m else AdvanceAll(Advance(m, t[0]), t[1..])
  }

  ghost predicate Accepted(m: Monitor, t: seq<Event>, slots: nat)
    decreases |t|
  {
    t != [] ==> Allowed(m, t[0], slots) && Accepted(Advance(m, t[0]), t[1..], slots)
  }

  /** What was sent is on disk. */
  ghost predicate Inv(m: Monitor, slots: nat) {
    && WellScheduled(m.disk, slots)
    && forall s <- m.sent :: exists i :: 0 <= i < |m.disk| && m.disk[i].Identity() == s.Identity()
  }

  lemma {:induction false} AcceptedConcat(m: Monitor, t: seq<Event>, u: seq<Event>, slots: nat)
    ensures Accepted(m, t + u, slots) <==> Accepted(m, t, slots) && Accepted(AdvanceAll(m, t), u, slots)
    ensures AdvanceAll(m, t + u) == AdvanceAll(AdvanceAll(m, t), u)
    decreases |t|
  {
    if t == [] {
      assert t + u == u;
    } else {
      assert (t + u)[0] == t[0] && (t + u)[1..] == t[1..] + u;
      AcceptedConcat(Advance(m, t[0]), t[1..], u, slots);
    }
  }

  lemma {:induction false} InvKept(m: Monitor, t: seq<Event>, slots: nat)
    requires Inv(m, slots) && Accepted(m, t, slots)
    ensures Inv(AdvanceAll(m, t), slots)
    decreases |t|
  {
    if t != [] {
      var m' := Advance(m, t[0]);
      forall s | s in m'.sent
        ensures exists i :: 0 <= i < |m'.disk| && m'.disk[i].Identity() == s.Identity()
      {
        if s in m.sent {
          var i :| 0 <= i < |m.disk| && m.disk[i].Identity() == s.Identity();
          assert m'.disk[i].Identity() == s.Identity();
        }
      }
      InvKept(m', t[1..], slots);
    }
  }

  // ---------------------------------------------------------------- a step is accepted

  lemma {:induction false} OccupyingOf(jobs: Jobs)
    ensures forall j :: j in Occupying(jobs) <==> j in jobs && !j.execution.Stopped?
  {
    if jobs != [] {
      OccupyingOf(jobs[1..]);
    }
  }

  lemma {:induction false} OccupyingConcat(a: Jobs, b: Jobs)
    ensures Occupying(a + b) == Occupying(a) + Occupying(b)
  {
    if a == [] {
      assert a + b == b;
    } else {
      assert (a + b)[1..] == a[1..] + b;
      OccupyingConcat(a[1..], b);
    }
  }

  lemma {:induction false} UpdateOccupying(jobs: Jobs, i: nat, j: Job)
    requires i < |jobs| && (jobs[i].execution.Stopped? ==> j.execution.Stopped?)
    ensures |Occupying(jobs[i := j])| <= |Occupying(jobs)|
  {
    if i == 0 {
      assert jobs[i := j][1..] == jobs[1..];
    } else {
      assert jobs[i := j][1..] == jobs[1..][i - 1 := j];
      UpdateOccupying(jobs[1..], i - 1, j);
    }
  }

  /** Changing one job without reviving it keeps the schedule. */
  lemma UpdateKeeps(jobs: Jobs, i: nat, j: Job, slots: nat)
    requires WellScheduled(jobs, slots) && i < |jobs|
    requires j.Identity() == jobs[i].Identity() && (jobs[i].execution.Stopped? ==> j.execution.Stopped?)
    ensures WellScheduled(jobs[i := j], slots) && Extends(jobs, jobs[i := j])
  {
    UpdateOccupying(jobs, i, j);
  }

  lemma {:induction false} ObserveAccepted(m: Monitor, i: nat, d: Driver, slots: nat)
    requires WellScheduled(m.disk, slots) && i <= |m.disk|
    ensures Accepted(m, ObserveFrom(m.disk, i, d), slots)
    ensures AdvanceAll(m, ObserveFrom(m.disk, i, d)) == m.(disk := ObservedFrom(m.disk, i, d))
    ensures WellScheduled(ObservedFrom(m.disk, i, d), slots) && Extends(m.disk, ObservedFrom(m.disk, i, d))
    decreases |m.disk| - i
  {
    var jobs := m.disk;
    if i < |jobs| {
      var jobs' := jobs[i := Reobserved(jobs[i], d)];
      UpdateKeeps(jobs, i, Reobserved(jobs[i], d), slots);
      assert jobs[i].execution.Stopped? ==> jobs' == jobs;
      ObserveAccepted(m.(disk := jobs'), i + 1, d, slots);
    }
  }

  lemma {:induction false} StatusKeeps(jobs: Jobs, g: Graph)
    ensures Occupying(WithStatus(jobs, g)) == WithStatus(Occupying(jobs), g)
  {
    if jobs != [] {
      StatusKeeps(jobs[1..], g);
      var all := WithStatus(jobs, g);
      assert all[1..] == WithStatus(jobs[1..], g);
      assert Occupying(jobs) == Occupying([jobs[0]]) + Occupying(jobs[1..]) by {
        assert [jobs[0]][1..] == [];
      }
    }
  }

  /** A free slot, a new work and identity, and no conflict: the new job fits. */
  lemma AppendKeeps(jobs: Jobs, j: Job, slots: nat)
    requires WellScheduled(jobs, slots) && |Occupying(jobs)| < slots
    requires j.work !in Works(jobs) && (forall k <- jobs :: k.id != j.id)
    requires forall k <- Occupying(jobs) :: !Paths.Conflicts(j.resources, k.resources)
    ensures WellScheduled(jobs + [j], slots) && Extends(jobs, jobs + [j])
  {
    OccupyingConcat(jobs, [j]);
    assert [j][1..] == [];
    OccupyingOf(jobs);
    forall i | 0 <= i < |jobs|
      ensures jobs[i].work != j.work && jobs[i].id != j.id
      ensures !jobs[i].execution.Stopped? ==> !Paths.Conflicts(jobs[i].resources, j.resources)
    {
      assert jobs[i] in jobs;
      Paths.ConflictsSymmetric(jobs[i].resources, j.resources);
    }
  }

  lemma Single(m: Monitor, e: Event, slots: nat)
    ensures Accepted(m, [e], slots) <==> Allowed(m, e, slots)
    ensures AdvanceAll(m, [e]) == Advance(m, e)
  {
    assert [e][1..] == [];
  }

  /** Save, send, save again: the shape of one dispatch. */
  lemma LaunchAccepted(m: Monitor, job: Job, launched: Job, slots: nat)
    requires Inv(m, slots) && |Occupying(m.disk)| < slots
    requires job.work !in Works(m.disk) && (forall k <- m.disk :: k.id != job.id)
    requires forall k <- Occupying(m.disk) :: !Paths.Conflicts(job.resources, k.resources)
    requires launched.Identity() == job.Identity() && !launched.execution.Stopped? && !job.execution.Stopped?
    ensures var t := [Saved(m.disk + [job]), Sent(job), Saved(m.disk + [launched])];
      Accepted(m, t, slots) && AdvanceAll(m, t) == Monitor(m.disk + [launched], m.sent + [job])
  {
    var jobs := m.disk;
    AppendKeeps(jobs, job, slots);
    var m1 := m.(disk := jobs + [job]);
    assert m1.disk[|jobs|].Identity() == job.Identity();
    forall s | s in m.sent
      ensures s.work != job.work && s.id != job.id
    {
      var i :| 0 <= i < |jobs| && jobs[i].Identity() == s.Identity();
      assert jobs[i] in jobs;
    }
    var m2 := m1.(sent := m.sent + [job]);
    UpdateKeeps(m1.disk, |jobs|, launched, slots);
    assert m1.disk[|jobs| := launched] == jobs + [launched];
    var e1, e2, e3 := Saved(m1.disk), Sent(job), Saved(jobs + [launched]);
    Single(m, e1, slots);
    Single(m1, e2, slots);
    Single(m2, e3, slots);
    AcceptedConcat(m, [e1], [e2], slots);
    AcceptedConcat(m, [e1] + [e2], [e3], slots);
    assert [e1] + [e2] + [e3] == [e1, e2, e3];
  }

  lemma {:induction false} DispatchAccepted(m: Monitor, order: seq<nat>, known: set<nat>, d: Driver, slots: nat)
    requires Inv(m, slots)
    requires forall k <- order :: k in d.graph.nodes && k in d.ids
    requires forall i, j :: 0 <= i < j < |order| ==> order[i] < order[j]
    requires forall k, l :: k in d.ids && l in d.ids && d.ids[k] == d.ids[l] ==> k == l
    // a job outside `known` was made by this very pass, for an earlier key
    requires forall j <- m.disk :: j.work in known || (j.work in d.ids && j.id == d.ids[j.work] && j.work !in order)
    requires forall j <- m.disk :: j.work in known ==> forall k <- order :: j.id != d.ids[k]
    ensures Accepted(m, DispatchFrom(m.disk, order, known, d, slots), slots)
    decreases |order|
  {
    var jobs := m.disk;
    if order != [] && |Occupying(jobs)| < slots {
      if !Eligible(order[0], jobs, known, d) {
        DispatchAccepted(m, order[1..], known, d, slots);
      } else {
        var job := NewJob(order[0], d);
        LaunchAccepted(m, job, Launched(job, d), slots);
        var m' := Monitor(jobs + [Launched(job, d)], m.sent + [job]);
        var three := [Saved(jobs + [job]), Sent(job), Saved(m'.disk)];
        InvKept(m, three, slots);
        DispatchAccepted(m', order[1..], known, d, slots);
        AcceptedConcat(m, three, DispatchFrom(m'.disk, order[1..], known, d, slots), slots);
      }
    }
  }

  lemma StatusAccepted(m: Monitor, g: Graph, slots: nat)
    requires Inv(m, slots)
    ensures Accepted(m, [Saved(WithStatus(m.disk, g))], slots)
    ensures Inv(m.(disk := WithStatus(m.disk, g)), slots)
  {
    StatusKeeps(m.disk, g);
    Single(m, Saved(WithStatus(m.disk, g)), slots);
    InvKept(m, [Saved(WithStatus(m.disk, g))], slots);
  }

  lemma FillAccepted(m: Monitor, d: Driver, slots: nat)
    requires Inv(m, slots) && SortedKeys(d.graph) && FreshIds(m.disk, d)
    ensures Accepted(m, FillEvents(m.disk, d, slots), slots)
  {
    StatusAccepted(m, d.graph, slots);
    var current := WithStatus(m.disk, d.graph);
    forall j | j in current
      ensures j.work in Works(current) && forall k <- d.graph.order :: j.id != d.ids[k]
    {
      var i :| 0 <= i < |current| && current[i] == j;
      assert m.disk[i] in m.disk;
    }
    DispatchAccepted(m.(disk := current), d.graph.order, Works(current), d, slots);
    Single(m, Saved(current), slots);
    AcceptedConcat(m, [Saved(current)], DispatchFrom(current, d.graph.order, Works(current), d, slots), slots);
  }

  lemma {:induction false} ObservedIsFresh(jobs: Jobs, i: nat, d: Driver)
    requires FreshIds(jobs, d) && i <= |jobs|
    ensures FreshIds(ObservedFrom(jobs, i, d), d)
    decreases |jobs| - i
  {
    if i < |jobs| {
      var jobs' := jobs[i := Reobserved(jobs[i], d)];
      assert jobs[i] in jobs && Reobserved(jobs[i], d).id == jobs[i].id;
      assert forall j <- jobs' :: j in jobs || j == Reobserved(jobs[i], d);
      ObservedIsFresh(jobs', i + 1, d);
    }
  }

  lemma StepAccepted(m: Monitor, d: Driver, slots: nat)
    requires Inv(m, slots) && SortedKeys(d.graph) && FreshIds(m.disk, d)
    ensures Accepted(m, StepEvents(m.disk, d, slots), slots)
  {
    var first := ObserveFrom(m.disk, 0, d);
    ObserveAccepted(m, 0, d, slots);
    InvKept(m, first, slots);
    ObservedIsFresh(m.disk, 0, d);
    var m1 := m.(disk := ObservedFrom(m.disk, 0, d));
    FillAccepted(m1, d, slots);
    AcceptedConcat(m, first, FillEvents(m1.disk, d, slots), slots);
  }

  // ---------------------------------------------------------------- runs

  /** One step killed after `cut` effects. */
  datatype Call = Call(driver: Driver, cut: nat)

  function DiskAfter(jobs: Jobs, t: seq<Event>): Jobs {
    AdvanceAll(Monitor(jobs, []), t).disk
  }

  /** Every step meets a dictionary-shaped graph and fresh identities. */
  predicate Realistic(jobs: Jobs, calls: seq<Call>, slots: nat)
    decreases |calls|
  {
    calls != [] ==>
      var d := calls[0].driver;
      && SortedKeys(d.graph) && FreshIds(jobs, d)
      && Realistic(DiskAfter(jobs, Cut(StepEvents(jobs, d, slots), calls[0].cut)), calls[1..], slots)
  }

  function Trace(jobs: Jobs, calls: seq<Call>, slots: nat): seq<Event>
    requires Realistic(jobs, calls, slots)
    decreases |calls|
  {
    if calls == [] then []
    else
      var kept := Cut(StepEvents(jobs, calls[0].driver, slots), calls[0].cut);
      kept + Trace(DiskAfter(jobs, kept), calls[1..], slots)
  }

  lemma {:induction false} DiskIgnoresSent(m: Monitor, t: seq<Event>)
    ensures AdvanceAll(m, t).disk == DiskAfter(m.disk, t)
    decreases |t|
  {
    if t != [] {
      DiskIgnoresSent(Advance(m, t[0]), t[1..]);
      DiskIgnoresSent(Advance(Monitor(m.disk, []), t[0]), t[1..]);
    }
  }

  lemma {:induction false} RunAccepted(m: Monitor, calls: seq<Call>, slots: nat)
    requires Inv(m, slots) && Realistic(m.disk, calls, slots)
    ensures Accepted(m, Trace(m.disk, calls, slots), slots)
    decreases |calls|
  {
    if calls != [] {
      var d := calls[0].driver;
      var all := StepEvents(m.disk, d, slots);
      var kept := Cut(all, calls[0].cut);
      StepAccepted(m, d, slots);
      assert all == kept + all[|kept|..];
      AcceptedConcat(m, kept, all[|kept|..], slots);
      InvKept(m, kept, slots);
      DiskIgnoresSent(m, kept);
      RunAccepted(AdvanceAll(m, kept), calls[1..], slots);
      AcceptedConcat(m, kept, Trace(DiskAfter(m.disk, kept), calls[1..], slots), slots);
    }
  }

  // ---------------------------------------------------------------- the same, position by position

  lemma {:induction false} AcceptedAt(m: Monitor, t: seq<Event>, i: nat, slots: nat)
    requires Accepted(m, t, slots) && i < |t|
    ensures Allowed(AdvanceAll(m, t[..i]), t[i], slots)
  {
    assert t == t[..i] + t[i..];
    AcceptedConcat(m, t[..i], t[i..], slots);
  }

  lemma {:induction false} SentIsRemembered(m: Monitor, t: seq<Event>, i: nat)
    requires i < |t| && t[i].Sent?
    ensures t[i].job in AdvanceAll(m, t).sent
    decreases |t|
  {
    if i == 0 {
      SentGrows(Advance(m, t[0]), t[1..]);
    } else {
      SentIsRemembered(Advance(m, t[0]), t[1..], i - 1);
    }
  }

  lemma {:induction false} SentGrows(m: Monitor, t: seq<Event>)
    ensures forall j <- m.sent :: j in AdvanceAll(m, t).sent
    decreases |t|
  {
    if t != [] {
      SentGrows(Advance(m, t[0]), t[1..]);
    }
  }

  /** The jobs on disk are the starting ones or those of an earlier save. */
  lemma {:induction false} DiskWasSaved(m: Monitor, t: seq<Event>)
    ensures AdvanceAll(m, t).disk == m.disk || exists i :: 0 <= i < |t| && t[i] == Saved(AdvanceAll(m, t).disk)
    decreases |t|
  {
    if t != [] {
      var m' := Advance(m, t[0]);
      DiskWasSaved(m', t[1..]);
      var e := AdvanceAll(m', t[1..]).disk;
      if exists i :: 0 <= i < |t[1..]| && t[1..][i] == Saved(e) {
        var i :| 0 <= i < |t[1..]| && t[1..][i] == Saved(e);
        assert t[i + 1] == Saved(e);
      } else if t[0].Saved? {
        assert t[0] == Saved(e);
      }
    }
  }

  /**
   Any run of steps from an empty state, each killed anywhere: no work and no identity is dispatched
   twice, every dispatched job was saved before, and every save keeps slots and resources.
   */
  lemma DispatchedAtMostOnceAndDurably(calls: seq<Call>, slots: nat, i: nat)
    requires Realistic([], calls, slots) && i < |Trace([], calls, slots)|
    ensures var t := Trace([], calls, slots);
      && (t[i].Saved? ==> WellScheduled(t[i].jobs, slots))
      && (t[i].Sent? ==>
            && (forall h :: 0 <= h < i && t[h].Sent? ==> t[h].job.work != t[i].job.work && t[h].job.id != t[i].job.id)
            && exists h, k :: 0 <= h < i && t[h].Saved? && 0 <= k < |t[h].jobs| && t[h].jobs[k].Identity() == t[i].job.Identity())
  {
    var m := Monitor([], []);
    RunAccepted(m, calls, slots);
    var t := Trace([], calls, slots);
    AcceptedAt(m, t, i, slots);
    if t[i].Sent? {
      var at := AdvanceAll(m, t[..i]);
      forall h | 0 <= h < i && t[h].Sent?
        ensures t[h].job.work != t[i].job.work && t[h].job.id != t[i].job.id
      {
        SentIsRemembered(m, t[..i], h);
      }
      DiskWasSaved(m, t[..i]);
      var k :| 0 <= k < |at.disk| && at.disk[k].Identity() == t[i].job.Identity();
      var h :| 0 <= h < |t[..i]| && t[..i][h] == Saved(at.disk);
      assert t[h] == Saved(at.disk) && t[h].jobs[k].Identity() == t[i].job.Identity();
    }
  }

  /**
   In every saved state of a run, two jobs that still occupy slots and whose resources come from lists of
   paths reserve disjoint trees: both lists are precise and no path lies under a name of each.
   */
  lemma OccupiedTreesAreDisjoint(
      calls: seq<Call>, slots: nat, i: nat, a: nat, b: nat, left: seq<string>, right: seq<string>, fold: char -> string)
    requires Realistic([], calls, slots) && i < |Trace([], calls, slots)| && Trace([], calls, slots)[i].Saved?
    requires var jobs := Trace([], calls, slots)[i].jobs;
      && a < |jobs| && b < |jobs| && a != b && !jobs[a].execution.Stopped? && !jobs[b].execution.Stopped?
      && jobs[a].resources == Paths.ResourcesOf(left, fold) && jobs[b].resources == Paths.ResourcesOf(right, fold)
    requires Paths.FoldOk(fold)
    ensures !Paths.ReservesWhole(left) && !Paths.ReservesWhole(right)
    ensures forall x: Paths.Segments :: !(Paths.Covers(Paths.Claims(left, fold), x) && Paths.Covers(Paths.Claims(right, fold), x))
  {
    DispatchedAtMostOnceAndDurably(calls, slots, i);
    var jobs := Trace([], calls, slots)[i].jobs;
    Paths.ConflictsSymmetric(jobs[a].resources, jobs[b].resources);
    Paths.NoConflictIffDisjointTrees(left, right, fold);
  }

  lemma {:induction false} LaterSavesExtend(m: Monitor, t: seq<Event>, slots: nat, i: nat)
    requires Accepted(m, t, slots) && i < |t| && t[i].Saved?
    ensures Extends(m.disk, t[i].jobs)
    decreases |t|
  {
    if i > 0 {
      LaterSavesExtend(Advance(m, t[0]), t[1..], slots, i - 1);
    }
  }

  lemma {:induction false} SavesExtend(m: Monitor, t: seq<Event>, slots: nat, h: nat, i: nat)
    requires Accepted(m, t, slots) && h < i < |t| && t[h].Saved? && t[i].Saved?
    ensures Extends(t[h].jobs, t[i].jobs)
    decreases |t|
  {
    if h == 0 {
      LaterSavesExtend(Advance(m, t[0]), t[1..], slots, i - 1);
    } else {
      SavesExtend(Advance(m, t[0]), t[1..], slots, h - 1, i - 1);
    }
  }

  /** Between any two saves of a run the list has only grown, with identities and stopped jobs kept. */
  lemma JobsAreAppendOnly(calls: seq<Call>, slots: nat, h: nat, i: nat)
    requires Realistic([], calls, slots) && h < i < |Trace([], calls, slots)|
    requires Trace([], calls, slots)[h].Saved? && Trace([], calls, slots)[i].Saved?
    ensures Extends(Trace([], calls, slots)[h].jobs, Trace([], calls, slots)[i].jobs)
  {
    RunAccepted(Monitor([], []), calls, slots);
    SavesExtend(Monitor([], []), Trace([], calls, slots), slots, h, i);
  }

  // ---------------------------------------------------------------- the scheduler

  /** `jobs` is the state in memory, `file` the saved one; `trace` lists the effects so far. */
  class Scheduler {
    var jobs: Jobs
    var file: Jobs
    const slots: nat
    ghost var trace: seq<Event>

    constructor (slots: nat)
      requires 1 <= slots <= 64
      ensures this.slots == slots && file == [] && trace == []
    {
      this.slots := slots;
      jobs, file, trace := [], [], [];
    }

    method Save()
      modifies this
      ensures file == jobs == old(jobs) && trace == old(trace) + [Saved(jobs)]
    {
      file := jobs;
      trace := trace + [Saved(jobs)];
    }

    ghost method Send(job: Job)
      modifies this`trace
      ensures trace == old(trace) + [Sent(job)]
    {
      trace := trace + [Sent(job)];
    }

    method ObserveJobs(d: Driver)
      requires file == jobs
      modifies this
      ensures trace == old(trace) + ObserveFrom(old(jobs), 0, d)
      ensures file == jobs == ObservedFrom(old(jobs), 0, d)
    {
      ghost var todo := ObserveFrom(jobs, 0, d);
      for i := 0 to |jobs|
        invariant |jobs| == |old(jobs)| && file == jobs
        invariant trace + ObserveFrom(jobs, i, d) == old(trace) + todo
        invariant ObservedFrom(jobs, i, d) == ObservedFrom(old(jobs), 0, d)
      {
        var job := jobs[i];
        assert job.execution.Stopped? ==> jobs[i := job] == jobs;
        if !job.execution.Stopped? {
          if job.id in d.observed && d.observed[job.id].Observed? {
            job := job.(execution := d.observed[job.id].execution, receipt := Some(d.observed[job.id].receipt));
          } else {
            job := job.(execution := Unknown);
          }
          jobs := jobs[i := job];
          Save();
        }
      }
    }

    method RecordStatus(g: Graph)
      modifies this
      ensures file == jobs == WithStatus(old(jobs), g) && trace == old(trace) + [Saved(jobs)]
    {
      var updated: Jobs := [];
      for i := 0 to |jobs|
        invariant jobs == old(jobs) && trace == old(trace)
        invariant |updated| == i && forall k :: 0 <= k < i ==> updated[k] == WithStatus(jobs, g)[k]
      {
        var status := if jobs[i].work in g.nodes then Some(g.nodes[jobs[i].work].status) else None;
        updated := updated + [jobs[i].(workStatus := status)];
      }
      jobs := updated;
      Save();
    }

    method FillSlots(known: set<nat>, d: Driver)
      requires file == jobs && forall k <- d.graph.order :: k in d.graph.nodes && k in d.ids
      modifies this
      ensures trace == old(trace) + DispatchFrom(old(jobs), d.graph.order, known, d, slots)
      ensures file == jobs
    {
      var order := d.graph.order;
      ghost var todo := DispatchFrom(jobs, order, known, d, slots);
      var occupying := Occupying(jobs);
      var i := 0;
      while i < |order| && |occupying| < slots
        invariant 0 <= i <= |order| && file == jobs
        invariant occupying == Occupying(jobs)
        invariant trace + DispatchFrom(jobs, order[i..], known, d, slots) == old(trace) + todo
      {
        var key := order[i];
        assert order[i..][0] == key && order[i..][1..] == order[i + 1..];
        var node := d.graph.nodes[key];
        i := i + 1;
        if node.ready && key !in known && node.requested != {}
           && !exists o <- occupying :: Paths.Conflicts(node.requested, o.resources) {
          Dispatch(NewJob(key, d), d);
          occupying := occupying + [jobs[|jobs| - 1]];
        }
      }
      assert i < |order| ==> order[i..] != [];
    }

    /** Durable before any side effect; the stable identity is kept even when dispatch raises. */
    method Dispatch(job: Job, d: Driver)
      requires !job.execution.Stopped?
      modifies this
      ensures file == jobs == old(jobs) + [Launched(job, d)]
      ensures trace == old(trace) + [Saved(old(jobs) + [job]), Sent(job), Saved(jobs)]
      ensures Occupying(jobs) == Occupying(old(jobs)) + [Launched(job, d)]
    {
      jobs := jobs + [job];
      Save();
      Send(job);
      var execution := if job.id in d.launched then Running else Unknown;
      jobs := jobs[|jobs| - 1 := job.(execution := execution)];
      Save();
      assert jobs == old(jobs) + [Launched(job, d)];
      OccupyingConcat(old(jobs), [Launched(job, d)]);
      assert [Launched(job, d)][1..] == [];
    }

    method Fill(d: Driver)
      requires SortedKeys(d.graph) && FreshIds(jobs, d) && d.graph.complete && d.graph.valid && file == jobs
      modifies this
      ensures trace == old(trace) + FillEvents(old(jobs), d, slots) && file == jobs
    {
      RecordStatus(d.graph);
      ghost var first, rest := trace, DispatchFrom(jobs, d.graph.order, Works(jobs), d, slots);
      FillSlots(Works(jobs), d);
      assert trace == first + rest;
    }

    method Step(d: Driver) returns (complete: bool)
      requires SortedKeys(d.graph) && FreshIds(file, d)
      modifies this
      ensures trace == old(trace) + StepEvents(old(file), d, slots)
      ensures complete <==> d.graph.complete && d.graph.valid
      ensures file == jobs
    {
      jobs := file;
      ObservedIsFresh(jobs, 0, d);
      ObserveJobs(d);
      complete := d.graph.complete && d.graph.valid;
      ghost var first, seen := trace, jobs;
      if complete {
        Fill(d);
      }
      assert trace == first + FillEvents(seen, d, slots);
    }
  }
}
