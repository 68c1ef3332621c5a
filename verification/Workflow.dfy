/**
 The host's operation journal. A command is described by its effects in order: saves of the journal,
 context fetches, acknowledgements, evidence look-ups, and operations sent to AWR. A crash keeps a
 prefix; the next command reloads the last save. Digests are collision-free, so a recorded digest is
 represented by the content it names.
 */
module Workflow {
  import opened Prelude

  datatype Phase = New | Active | WorkCompleted | Ended

  datatype Op =
    | Begin | Manage | ObserveCompaction | DeferCompaction | Progress | Checkpoint
    | Evidence(key: nat, viaReport: bool) | Run(key: nat) | Complete | End

  /** Operations that require a consumed context. */
  predicate Gated(op: Op) {
    op.Progress? || op.Checkpoint? || op.Run? || op.Complete?
  }

  /** The content of a saved context pack. */
  datatype Delivery = Delivery(session: nat, hash: nat)

  datatype Context = Context(hash: nat, path: nat, content: Delivery, prepared: bool, acknowledged: bool)

  datatype Outcome = NotKnown | Unknown | Returned

  datatype Pending = Pending(id: nat, op: Op, outcome: Outcome)

  datatype Entry = Entry(pending: Pending, reconciled: bool)

  datatype Inspection = Inspection(digest: nat, pendingId: Option<nat>)

  datatype RunRecord = RunRecord(request: nat, operationKey: nat, execution: Option<nat>, collected: bool)

  datatype Report = Report(run: nat, evidence: nat)

  datatype State = State(
    session: Option<nat>, work: Option<nat>, phase: Phase, context: Option<Context>,
    pending: Option<Pending>, history: seq<Entry>, revision: nat, checkpoint: Option<nat>,
    inspection: Option<Inspection>, runs: map<nat, RunRecord>, reports: map<nat, Report>)

  /** `shown` is what the saved context file holds when an operation is sent; `applied`, whether AWR performed it. */
  datatype Event =
    | Saved(state: State)
    | Fetched
    | Acknowledged(hash: nat)
    | Looked(key: nat, missing: bool)
    | Sent(id: nat, op: Op, shown: Option<Delivery>, applied: bool)

  /** AWR's answer: a value, an error, or nothing at all (a lost answer). */
  datatype Reply = Good(revision: nat, ref: nat) | Bad(lost: bool, applied: bool)

  /** A compiled context as the call returned it. */
  datatype Got = Got(session: nat, hash: nat, path: nat, complete: bool, matches: bool, revision: nat)

  datatype Lookup = Exact | Different | Missing | LookupFailed

  /** What a command meets: the files it reads back, generated ids from `id` upwards, and AWR's answers. */
  datatype World = World(files: map<nat, Delivery>, id: nat, first: Reply, second: Reply, third: Reply)

  datatype Effect = Effect(events: seq<Event>, state: State, ok: bool)

  datatype Command =
    | BeginWork(work: nat)
    | Adopt(session: nat, work: nat, valid: bool, revision: nat)
    | Prepare(prepared: bool, got: Option<Got>, record: bool, again: Option<Option<Got>>)
    | Acknowledge(hash: nat)
    | Perform(op: Op)
    | SaveCheckpoint(hash: nat)
    | StartRun(key: nat, request: nat, operationKey: nat, valid: bool, unclaimed: bool, matches: bool)
    | Collect(key: nat, intact: bool, execution: Option<nat>)
    | PrepareReport(key: nat, id: nat, evidence: nat, valid: bool, intact: bool, execution: Option<nat>, preflight: Option<nat>)
    | FinishReport(id: nat, intact: bool, execution: Option<nat>, preflight: Option<nat>, lookup: Lookup)
    | Finish
    | Inspect(readable: bool, digest: nat)
    | Reconcile(digest: nat, intact: bool, chosen: Option<nat>, chosenWork: Option<nat>, valid: bool, live: bool, done: bool, revision: nat)

  // ---------------------------------------------------------------- guards

  predicate Available(s: State) {
    s.pending.None?
  }

  predicate IsActive(s: State) {
    Available(s) && s.phase.Active? && s.session.Some?
  }

  /** The hash names this workflow's delivered context, its file is intact, and it belongs to this session. */
  predicate Delivered(s: State, files: map<nat, Delivery>, hash: nat) {
    && s.context.Some?
    && var c := s.context.value;
      && c.hash == hash && c.path in files && files[c.path] == c.content
      && s.session == Some(c.content.session) && c.content.hash == hash
  }

  predicate Consumed(s: State, files: map<nat, Delivery>) {
    s.context.Some? && Delivered(s, files, s.context.value.hash) && s.context.value.acknowledged
  }

  function Shown(s: State, files: map<nat, Delivery>): Option<Delivery> {
    if s.context.Some? && s.context.value.path in files then Some(files[s.context.value.path]) else None
  }

  // ---------------------------------------------------------------- building blocks

  function Applied(r: Reply): bool {
    r.Good? || r.applied
  }

  /** Save the pending operation, send it, save what came back; an error keeps it pending. */
  function PerformOp(s: State, id: nat, op: Op, files: map<nat, Delivery>, r: Reply): Effect {
    var s1 := s.(pending := Some(Pending(id, op, NotKnown)));
    var s2 := s.(pending := Some(Pending(id, op, if r.Bad? && r.lost then Unknown else Returned)));
    Effect([Saved(s1), Sent(id, op, Shown(s, files), Applied(r)), Saved(s2)], s2, r.Good?)
  }

  /** Move the pending operation to the history. */
  function Settled(s: State, reconciled: bool): State
    requires s.pending.Some?
  {
    s.(history := s.history + [Entry(s.pending.value, reconciled)], pending := None)
  }

  /** The journal after a good answer: the operation recorded, with what the answer decides. */
  function Concluded(s: State, op: Op, r: Reply): State
    requires s.pending.Some? && r.Good?
  {
    s.(history := s.history + [Entry(s.pending.value, false)], pending := None, revision := r.revision,
       phase := if op.Complete? then WorkCompleted else if op.End? then Ended else s.phase,
       checkpoint := if op.Checkpoint? then Some(r.ref) else s.checkpoint)
  }

  /** An operation whose answer completes it. */
  function Whole(s: State, id: nat, op: Op, files: map<nat, Delivery>, r: Reply): Effect {
    var e := PerformOp(s, id, op, files, r);
    if !e.ok then e
    else
      var s' := Concluded(e.state, op, r);
      Effect(e.events + [Saved(s')], s', true)
  }

  function Fetch(s: State, prepared: bool, got: Option<Got>): Effect {
    var s1 := s.(context := None);
    if got.None? || !got.value.complete || !got.value.matches || s.session != Some(got.value.session) then
      Effect([Saved(s1), Fetched], s1, false)
    else
      var g := got.value;
      var s2 := s1.(context := Some(Context(g.hash, g.path, Delivery(g.session, g.hash), prepared, false)), revision := g.revision);
      Effect([Saved(s1), Fetched, Saved(s2)], s2, true)
  }

  /** Complete the work, then end the session: two separate operations. */
  function FinishWork(s: State, w: World, id: nat, complete: Reply, end: Reply): Effect {
    if !Available(s) then Effect([], s, false)
    else if s.phase.Active? then
      if !Consumed(s, w.files) then Effect([], s, false)
      else
        var e := Whole(s, id, Complete, w.files, complete);
        if !e.ok then e
        else
          var e2 := Whole(e.state, id + 1, End, w.files, end);
          Effect(e.events + e2.events, e2.state, e2.ok)
    else if s.phase.WorkCompleted? then Whole(s, id, End, w.files, end)
    else Effect([], s, false)
  }

  function CollectRun(s: State, key: nat, intact: bool, execution: Option<nat>): Effect {
    if key !in s.runs then Effect([], s, false)
    else if s.runs[key].collected || execution.None? then Effect([], s, intact)
    else if !intact then Effect([], s, false)
    else
      var s1 := s.(runs := s.runs[key := s.runs[key].(execution := execution, collected := true)]);
      Effect([Saved(s1)], s1, true)
  }

  /** Register missing evidence through a report, then finish. */
  function Register(s: State, w: World, key: nat): Effect {
    var e := Whole(s, w.id, Evidence(key, true), w.files, w.first);
    if !e.ok then e
    else
      var f := FinishWork(e.state, w, w.id + 1, w.second, w.third);
      Effect(e.events + f.events, f.state, f.ok)
  }

  function AfterLookup(s: State, w: World, key: nat, lookup: Lookup): Effect {
    if lookup.Missing? then Register(s, w, key)
    else if lookup.Exact? then FinishWork(s, w, w.id, w.second, w.third)
    else Effect([], s, false)
  }

  /** Everything `finish_report` does once its report is collected, consumed and checked again. */
  function FileEvidence(s: State, w: World, key: nat, lookup: Lookup): Effect {
    var rest := AfterLookup(s, w, key, lookup);
    Effect([Looked(key, lookup.Missing?)] + rest.events, rest.state, rest.ok)
  }

  // ---------------------------------------------------------------- commands

  function PrepareWork(s: State, c: Command, w: World): Effect
    requires c.Prepare?
  {
    if !IsActive(s) then Effect([], s, false)
    else
      var f := Fetch(s, c.prepared, c.got);
      if !f.ok || !c.record then f
      else
        var e := Whole(f.state, w.id, Manage, w.files, w.first);
        if !e.ok || c.again.None? then Effect(f.events + e.events, e.state, e.ok)
        else
          var g := Fetch(e.state, c.prepared, c.again.value);
          Effect(f.events + e.events + g.events, g.state, g.ok)
  }

  function StartManaged(s: State, c: Command, w: World): Effect
    requires c.StartRun?
  {
    if !IsActive(s) || !Consumed(s, w.files) || !c.valid then Effect([], s, false)
    else if c.key in s.runs then Effect([], s, s.runs[c.key].request == c.request)
    else if !c.unclaimed then Effect([], s, false)
    else
      var s1 := s.(runs := s.runs[c.key := RunRecord(c.request, c.operationKey, None, false)]);
      var e := PerformOp(s1, w.id, Run(c.key), w.files, w.first);
      if !e.ok || !c.matches then Effect([Saved(s1)] + e.events, e.state, false)
      else
        var s2 := Settled(e.state, false).(runs := s1.runs[c.key := s1.runs[c.key].(execution := Some(w.first.ref))]);
        Effect([Saved(s1)] + e.events + [Saved(s2)], s2, true)
  }

  function PrepareRunReport(s: State, c: Command, w: World): Effect
    requires c.PrepareReport?
  {
    if !IsActive(s) || !Consumed(s, w.files) || !c.valid then Effect([], s, false)
    else
      var e := CollectRun(s, c.key, c.intact, c.execution);
      if !e.ok || !e.state.runs[c.key].collected || c.preflight.None? then Effect(e.events, e.state, false)
      else
        var s1 := e.state.(revision := c.preflight.value);
        var s2 := s1.(reports := s1.reports[c.id := Report(c.key, c.evidence)]);
        Effect(e.events + [Saved(s1), Saved(s2)], s2, true)
  }

  /** Save the revision the preflight answered with, then file the evidence. */
  function CheckThenFile(s: State, revision: nat, w: World, key: nat, lookup: Lookup): Effect {
    var s1 := s.(revision := revision);
    var f := FileEvidence(s1, w, key, lookup);
    Effect([Saved(s1)] + f.events, f.state, f.ok)
  }

  /** While the work is active: collect, check the context, check the report again, file the evidence. */
  function FromReport(s: State, c: Command, w: World): Effect
    requires c.FinishReport? && c.id in s.reports
  {
    var e := CollectRun(s, s.reports[c.id].run, c.intact, c.execution);
    if !e.ok || !Consumed(e.state, w.files) || c.preflight.None? then Effect(e.events, e.state, false)
    else
      var f := CheckThenFile(e.state, c.preflight.value, w, s.reports[c.id].evidence, c.lookup);
      Effect(e.events + f.events, f.state, f.ok)
  }

  function FinishRunReport(s: State, c: Command, w: World): Effect
    requires c.FinishReport?
  {
    if !Available(s) || c.id !in s.reports then Effect([], s, false)
    else if s.phase.WorkCompleted? then FinishWork(s, w, w.id, w.second, w.third)
    else if !s.phase.Active? then Effect([], s, false)
    else FromReport(s, c, w)
  }

  function ReconcilePending(s: State, c: Command): Effect
    requires c.Reconcile?
  {
    var session := if c.chosen.Some? then c.chosen else s.session;
    var work := if c.chosenWork.Some? then c.chosenWork else s.work;
    if s.pending.None? || s.inspection.None? || s.inspection.value != Inspection(c.digest, Some(s.pending.value.id))
       || !c.intact || session.None? || work.None? || !c.valid then Effect([], s, false)
    else
      var s1 := Settled(s, true).(
        context := if session == s.session then s.context else None, session := session, work := work,
        phase := if !c.live then Ended else if c.done then WorkCompleted else Active, revision := c.revision);
      Effect([Saved(s1)], s1, true)
  }

  function Execute(s: State, c: Command, w: World): Effect {
    match c
    case BeginWork(work) =>
      if !Available(s) || !s.phase.New? then Effect([], s, false)
      else
        var e := PerformOp(s, w.id, Begin, w.files, w.first);
        if !e.ok then e
        else
          var s1 := Settled(e.state, false).(revision := w.first.revision, session := Some(w.first.ref), work := Some(work), phase := Active);
          Effect(e.events + [Saved(s1)], s1, true)
    case Adopt(session, work, valid, revision) =>
      if !Available(s) || !s.phase.New? || !valid then Effect([], s, false)
      else
        var s1 := s.(session := Some(session), work := Some(work), phase := Active, revision := revision);
        Effect([Saved(s1)], s1, true)
    case Prepare(_, _, _, _) => PrepareWork(s, c, w)
    case Acknowledge(hash) =>
      if !IsActive(s) || !Delivered(s, w.files, hash) then Effect([], s, false)
      else
        var s1 := s.(context := Some(s.context.value.(acknowledged := true)));
        Effect([Acknowledged(hash), Saved(s1)], s1, true)
    case Perform(op) =>
      // progress needs a consumed context; evidence and compaction records only an active session
      if !IsActive(s) || !(op.Progress? || op.ObserveCompaction? || op.DeferCompaction? || (op.Evidence? && !op.viaReport))
         || (op.Progress? && !Consumed(s, w.files)) then Effect([], s, false)
      else Whole(s, w.id, op, w.files, w.first)
    case SaveCheckpoint(hash) =>
      if !IsActive(s) || !Delivered(s, w.files, hash) || !s.context.value.acknowledged then Effect([], s, false)
      else Whole(s, w.id, Checkpoint, w.files, w.first)
    case StartRun(_, _, _, _, _, _) => StartManaged(s, c, w)
    case Collect(key, intact, execution) => CollectRun(s, key, intact, execution)
    case PrepareReport(_, _, _, _, _, _, _) => PrepareRunReport(s, c, w)
    case FinishReport(_, _, _, _, _) => FinishRunReport(s, c, w)
    case Finish => FinishWork(s, w, w.id, w.first, w.second)
    case Inspect(readable, digest) =>
      if !readable then Effect([], s, false)
      else
        var s1 := s.(inspection := Some(Inspection(digest, if s.pending.Some? then Some(s.pending.value.id) else None)));
        Effect([Saved(s1)], s1, true)
    case Reconcile(_, _, _, _, _, _, _, _) => ReconcilePending(s, c)
  }

  // ---------------------------------------------------------------- the observer of a trace

  /**
   The journal on disk, the ids and run keys sent so far, the hash acknowledged since the last fetch,
   and the evidence key last found missing.
   */
  datatype Monitor = Monitor(
    disk: State, sent: set<nat>, runs: set<nat>, acknowledged: Option<nat>, missing: Option<nat>)

  function Ids(history: seq<Entry>): set<nat> {
    set e | e in history :: e.pending.id
  }

  predicate DistinctIds(history: seq<Entry>) {
    forall i, j :: 0 <= i < j < |history| ==> history[i].pending.id != history[j].pending.id
  }

  /** The journal is a proper one: every id once, in the history or pending; the context is this session's. */
  ghost predicate WellKept(s: State) {
    && DistinctIds(s.history)
    && (s.pending.Some? ==> s.pending.value.id !in Ids(s.history))
    && (s.context.Some? ==> s.session == Some(s.context.value.content.session) && s.context.value.hash == s.context.value.content.hash)
    && (s.phase.New? ==> s.session.None?)
  }

  /** A save starts an operation only when none is pending, and ends the pending one only by recording it. */
  ghost predicate Continues(old_: State, new_: State) {
    && (if old_.pending.None? then new_.history == old_.history
        else if new_.pending.Some? then
          && new_.history == old_.history
          && new_.pending.value.id == old_.pending.value.id && new_.pending.value.op == old_.pending.value.op
        else exists r: bool :: new_.history == old_.history + [Entry(old_.pending.value, r)])
    // a run key stays bound to its request and runtime key
    && forall k <- old_.runs :: k in new_.runs && new_.runs[k].request == old_.runs[k].request
         && new_.runs[k].operationKey == old_.runs[k].operationKey
  }

  /** The stored context is this session's, intact, and acknowledged since it was last fetched. */
  ghost predicate Ready(m: Monitor, shown: Option<Delivery>) {
    && m.disk.context.Some?
    && var c := m.disk.context.value;
      && m.disk.session == Some(c.content.session) && shown == Some(c.content)
      && c.acknowledged && m.acknowledged == Some(c.hash)
  }

  ghost predicate Allowed(m: Monitor, e: Event) {
    match e
    case Saved(s) =>
      && WellKept(s) && Continues(m.disk, s)
      && (s.context.Some? && s.context.value.acknowledged ==> m.acknowledged == Some(s.context.value.hash))
    case Sent(id, op, shown, _) =>
      && m.disk.pending == Some(Pending(id, op, NotKnown)) && id !in m.sent
      && (Gated(op) ==> Ready(m, shown))
      && (op.Run? ==> op.key in m.disk.runs && op.key !in m.runs)
      && (op.Evidence? && op.viaReport ==> m.missing == Some(op.key))
    case Fetched => m.disk.context.None?
    case Acknowledged(hash) => m.disk.context.Some? && m.disk.context.value.hash == hash
    case Looked(_, _) => true
  }

  function Advance(m: Monitor, e: Event): Monitor {
    match e
    case Saved(s) => m.(disk := s)
    case Fetched => m.(acknowledged := None)
    case Acknowledged(hash) => m.(acknowledged := Some(hash))
    case Looked(key, missing) => m.(missing := if missing then Some(key) else None)
    case Sent(id, op, _, _) =>
      m.(sent := m.sent + {id}, runs := if op.Run? then m.runs + {op.key} else m.runs,
         missing := if op.Evidence? then None else m.missing)
  }

  function AdvanceAll(m: Monitor, t: seq<Event>): Monitor
    decreases |t|
  {
    if t == [] then m else AdvanceAll(Advance(m, t[0]), t[1..])
  }

  ghost predicate Accepted(m: Monitor, t: seq<Event>)
    decreases |t|
  {
    t != [] ==> Allowed(m, t[0]) && Accepted(Advance(m, t[0]), t[1..])
  }

  /** What was sent is recorded; an acknowledged context was acknowledged since its fetch. */
  ghost predicate Inv(m: Monitor) {
    && WellKept(m.disk)
    && (forall id <- m.sent :: id in Ids(m.disk.history) || (m.disk.pending.Some? && m.disk.pending.value.id == id))
    && m.runs <= m.disk.runs.Keys
    && (m.disk.context.Some? && m.disk.context.value.acknowledged ==> m.acknowledged == Some(m.disk.context.value.hash))
  }

  /** Generated ids are new: from `id` upwards nothing is recorded or sent. */
  ghost predicate FreshFrom(m: Monitor, id: nat) {
    && (forall i <- m.sent :: i < id) && (forall i <- Ids(m.disk.history) :: i < id)
    && (m.disk.pending.Some? ==> m.disk.pending.value.id < id)
  }

  lemma {:induction false} AcceptedConcat(m: Monitor, t: seq<Event>, u: seq<Event>)
    ensures Accepted(m, t + u) <==> Accepted(m, t) && Accepted(AdvanceAll(m, t), u)
    ensures AdvanceAll(m, t + u) == AdvanceAll(AdvanceAll(m, t), u)
    decreases |t|
  {
    if t == [] {
      assert t + u == u;
    } else {
      assert (t + u)[0] == t[0] && (t + u)[1..] == t[1..] + u;
      AcceptedConcat(Advance(m, t[0]), t[1..], u);
    }
  }

  lemma Single(m: Monitor, e: Event)
    ensures Accepted(m, [e]) <==> Allowed(m, e)
    ensures AdvanceAll(m, [e]) == Advance(m, e)
  {
    assert [e][1..] == [];
  }

  lemma IdsSettle(h: seq<Entry>, e: Entry)
    ensures Ids(h + [e]) == Ids(h) + {e.pending.id}
  {
    assert forall x <- h + [e] :: x in h || x == e;
    assert e in h + [e] && forall x <- h :: x in h + [e];
  }

  // ---------------------------------------------------------------- every command is accepted

  /** An effect the observer accepts, ending in a journal where ids from `id` upwards are still new. */
  ghost predicate Sound(m: Monitor, e: Effect, id: nat) {
    var m' := AdvanceAll(m, e.events);
    Accepted(m, e.events) && Inv(m') && m'.disk == e.state && FreshFrom(m', id)
  }

  lemma Chain(m: Monitor, first: Effect, second: Effect, id: nat, next: nat)
    requires Sound(m, first, id) && Sound(AdvanceAll(m, first.events), second, next)
    ensures Sound(m, Effect(first.events + second.events, second.state, second.ok), next)
  {
    AcceptedConcat(m, first.events, second.events);
  }

  /** An operation that needs a consumed context, a recorded run or a missing look-up has it. */
  predicate MaySend(m: Monitor, op: Op, files: map<nat, Delivery>) {
    && (Gated(op) ==> Consumed(m.disk, files))
    && (op.Run? ==> op.key in m.disk.runs && op.key !in m.runs)
    && (op.Evidence? && op.viaReport ==> m.missing == Some(op.key))
  }

  predicate IsSent(t: seq<Event>, i: nat) {
    i < |t| && t[i].Sent?
  }

  lemma SaveSound(m: Monitor, s: State, ok: bool, id: nat)
    requires Inv(m) && FreshFrom(m, id)
    requires WellKept(s) && Continues(m.disk, s) && (s.pending.Some? ==> s.pending.value.id < id)
    requires s.context.Some? && s.context.value.acknowledged ==> m.acknowledged == Some(s.context.value.hash)
    ensures Sound(m, Effect([Saved(s)], s, ok), id)
  {
    Single(m, Saved(s));
    if m.disk.pending.Some? && s.pending.None? {
      var r :| s.history == m.disk.history + [Entry(m.disk.pending.value, r)];
      IdsSettle(m.disk.history, Entry(m.disk.pending.value, r));
    }
  }

  /** Save, then send. */
  lemma SaveAndSendSound(m: Monitor, id: nat, op: Op, files: map<nat, Delivery>, applied: bool)
    requires Inv(m) && FreshFrom(m, id) && m.disk.pending.None?
    requires MaySend(m, op, files)
    ensures var s1 := m.disk.(pending := Some(Pending(id, op, NotKnown)));
      Sound(m, Effect([Saved(s1)] + [Sent(id, op, Shown(m.disk, files), applied)], s1, true), id + 1)
  {
    var s1 := m.disk.(pending := Some(Pending(id, op, NotKnown)));
    SaveSound(m, s1, true, id + 1);
    Single(m, Saved(s1));
    Chain(m, Effect([Saved(s1)], s1, true), Effect([Sent(id, op, Shown(s1, files), applied)], s1, true), id + 1, id + 1);
  }

  lemma PerformSound(m: Monitor, id: nat, op: Op, files: map<nat, Delivery>, r: Reply)
    requires Inv(m) && FreshFrom(m, id) && m.disk.pending.None?
    requires MaySend(m, op, files)
    ensures Sound(m, PerformOp(m.disk, id, op, files, r), id + 1)
  {
    var e := PerformOp(m.disk, id, op, files, r);
    var s1 := m.disk.(pending := Some(Pending(id, op, NotKnown)));
    var both := Effect([Saved(s1)] + [Sent(id, op, Shown(m.disk, files), Applied(r))], s1, true);
    SaveAndSendSound(m, id, op, files, Applied(r));
    SaveSound(AdvanceAll(m, both.events), e.state, e.ok, id + 1);
    Chain(m, both, Effect([Saved(e.state)], e.state, e.ok), id + 1, id + 1);
    assert e.events == both.events + [Saved(e.state)];
  }

  lemma SettleKeeps(m: Monitor, s: State, id: nat, ok: bool, reconciled: bool)
    requires Inv(m) && FreshFrom(m, id) && m.disk.pending.Some?
    requires s.history == Settled(m.disk, reconciled).history && s.pending.None?
    requires s.runs.Keys >= m.disk.runs.Keys
    requires forall k <- m.disk.runs :: s.runs[k].request == m.disk.runs[k].request && s.runs[k].operationKey == m.disk.runs[k].operationKey
    requires s.context == m.disk.context || s.context.None?
    requires s.context.Some? ==> s.session == m.disk.session
    requires s.phase.New? ==> s.session.None?
    ensures Sound(m, Effect([Saved(s)], s, ok), id)
  {
    assert s.history == m.disk.history + [Entry(m.disk.pending.value, reconciled)];
    assert forall x <- m.disk.history :: x.pending.id in Ids(m.disk.history);
    SaveSound(m, s, ok, id);
  }

  lemma WholeSound(m: Monitor, id: nat, op: Op, files: map<nat, Delivery>, r: Reply)
    requires Inv(m) && FreshFrom(m, id) && m.disk.pending.None? && !op.Begin? && !m.disk.phase.New?
    requires MaySend(m, op, files) && !op.Run?
    ensures Sound(m, Whole(m.disk, id, op, files, r), id + 1)
    ensures Whole(m.disk, id, op, files, r).ok ==> Whole(m.disk, id, op, files, r).state.pending.None?
    ensures Whole(m.disk, id, op, files, r).state.context == m.disk.context
  {
    PerformSound(m, id, op, files, r);
    var e := PerformOp(m.disk, id, op, files, r);
    if e.ok {
      var m1 := AdvanceAll(m, e.events);
      var s := Whole(m.disk, id, op, files, r).state;
      SettleKeeps(m1, s, id + 1, true, false);
      Chain(m, e, Effect([Saved(s)], s, true), id + 1, id + 1);
    }
  }

  lemma FetchSound(m: Monitor, prepared: bool, got: Option<Got>, id: nat)
    requires Inv(m) && FreshFrom(m, id) && m.disk.pending.None? && m.disk.session.Some? && !m.disk.phase.New?
    ensures Sound(m, Fetch(m.disk, prepared, got), id)
  {
    var e := Fetch(m.disk, prepared, got);
    var s1 := m.disk.(context := None);
    SaveSound(m, s1, false, id);
    Single(m, Saved(s1));
    var m1 := Advance(m, Saved(s1));
    Single(m1, Fetched);
    var m2 := Advance(m1, Fetched);
    AcceptedConcat(m, [Saved(s1)], [Fetched]);
    assert [Saved(s1), Fetched] == [Saved(s1)] + [Fetched];
    if e.ok {
      SaveSound(m2, e.state, true, id);
      AcceptedConcat(m, [Saved(s1), Fetched], [Saved(e.state)]);
      assert e.events == [Saved(s1), Fetched] + [Saved(e.state)];
    }
  }

  lemma CompleteSound(m: Monitor, w: World, id: nat, complete: Reply, end: Reply)
    requires Inv(m) && FreshFrom(m, id) && IsActive(m.disk) && Consumed(m.disk, w.files)
    ensures Sound(m, FinishWork(m.disk, w, id, complete, end), id + 2)
  {
    WholeSound(m, id, Complete, w.files, complete);
    var e := Whole(m.disk, id, Complete, w.files, complete);
    if e.ok {
      var m1 := AdvanceAll(m, e.events);
      WholeSound(m1, id + 1, End, w.files, end);
      Chain(m, e, Whole(m1.disk, id + 1, End, w.files, end), id + 1, id + 2);
    }
  }

  lemma FinishSound(m: Monitor, w: World, id: nat, complete: Reply, end: Reply)
    requires Inv(m) && FreshFrom(m, id)
    ensures Sound(m, FinishWork(m.disk, w, id, complete, end), id + 2)
  {
    var s := m.disk;
    if Available(s) && s.phase.Active? && Consumed(s, w.files) {
      CompleteSound(m, w, id, complete, end);
    } else if Available(s) && s.phase.WorkCompleted? {
      WholeSound(m, id, End, w.files, end);
    } else {
    }
  }

  lemma CollectSound(m: Monitor, key: nat, intact: bool, execution: Option<nat>, id: nat)
    requires Inv(m) && FreshFrom(m, id) && m.disk.pending.None?
    ensures Sound(m, CollectRun(m.disk, key, intact, execution), id)
    ensures CollectRun(m.disk, key, intact, execution).state == m.disk.(runs := CollectRun(m.disk, key, intact, execution).state.runs)
  {
    var e := CollectRun(m.disk, key, intact, execution);
    if e.events == [] {
    } else {
      SaveSound(m, e.state, true, id);
    }
  }

  lemma ThenFinishSound(m: Monitor, first: Effect, w: World, id: nat, complete: Reply, end: Reply)
    requires Sound(m, first, id)
    ensures var f := FinishWork(first.state, w, id, complete, end);
      Sound(m, Effect(first.events + f.events, f.state, f.ok), id + 2)
  {
    FinishSound(AdvanceAll(m, first.events), w, id, complete, end);
    Chain(m, first, FinishWork(first.state, w, id, complete, end), id, id + 2);
  }

  lemma RegisterSound(m: Monitor, w: World, key: nat)
    requires Inv(m) && FreshFrom(m, w.id) && m.disk.pending.None? && !m.disk.phase.New? && m.missing == Some(key)
    ensures Sound(m, Register(m.disk, w, key), w.id + 3)
  {
    var e := Whole(m.disk, w.id, Evidence(key, true), w.files, w.first);
    WholeSound(m, w.id, Evidence(key, true), w.files, w.first);
    if e.ok {
      ThenFinishSound(m, e, w, w.id + 1, w.second, w.third);
    } else {
      assert Register(m.disk, w, key) == e;
    }
  }

  lemma LookSound(m: Monitor, look: Event, rest: Effect, id: nat)
    requires Inv(m) && look.Looked? && Sound(Advance(m, look), rest, id)
    ensures Sound(m, Effect([look] + rest.events, rest.state, rest.ok), id)
  {
    Single(m, look);
    AcceptedConcat(m, [look], rest.events);
  }

  lemma FileSound(m: Monitor, w: World, key: nat, lookup: Lookup)
    requires Inv(m) && FreshFrom(m, w.id) && m.disk.pending.None? && !m.disk.phase.New?
    ensures Sound(m, FileEvidence(m.disk, w, key, lookup), w.id + 3)
  {
    var look := Looked(key, lookup.Missing?);
    if lookup.Missing? {
      RegisterSound(Advance(m, look), w, key);
      LookSound(m, look, Register(m.disk, w, key), w.id + 3);
    } else if lookup.Exact? {
      FinishSound(Advance(m, look), w, w.id, w.second, w.third);
      LookSound(m, look, FinishWork(m.disk, w, w.id, w.second, w.third), w.id + 2);
    } else {
      LookSound(m, look, Effect([], m.disk, false), w.id);
    }
  }

  /** Recording the reassessment, then fetching the context again when asked to. */
  lemma RecordSound(m: Monitor, c: Command, w: World)
    requires Inv(m) && FreshFrom(m, w.id) && c.Prepare? && m.disk.pending.None? && m.disk.session.Some? && m.disk.phase.Active?
    ensures var e := Whole(m.disk, w.id, Manage, w.files, w.first);
      if e.ok && c.again.Some? then
        var g := Fetch(e.state, c.prepared, c.again.value);
        Sound(m, Effect(e.events + g.events, g.state, g.ok), w.id + 1)
      else Sound(m, e, w.id + 1)
  {
    WholeSound(m, w.id, Manage, w.files, w.first);
    var e := Whole(m.disk, w.id, Manage, w.files, w.first);
    if e.ok && c.again.Some? {
      FetchSound(AdvanceAll(m, e.events), c.prepared, c.again.value, w.id + 1);
      Chain(m, e, Fetch(e.state, c.prepared, c.again.value), w.id + 1, w.id + 1);
    }
  }

  lemma PrepareSound(m: Monitor, c: Command, w: World)
    requires Inv(m) && FreshFrom(m, w.id) && c.Prepare?
    ensures Sound(m, PrepareWork(m.disk, c, w), w.id + 1)
  {
    if IsActive(m.disk) {
      PrepareActiveSound(m, c, w);
    } else {
    }
  }

  lemma PrepareActiveSound(m: Monitor, c: Command, w: World)
    requires Inv(m) && FreshFrom(m, w.id) && c.Prepare? && IsActive(m.disk)
    ensures Sound(m, PrepareWork(m.disk, c, w), w.id + 1)
  {
    var f := Fetch(m.disk, c.prepared, c.got);
    FetchSound(m, c.prepared, c.got, w.id);
    if f.ok && c.record {
      RecordSound(AdvanceAll(m, f.events), c, w);
      var e := Whole(f.state, w.id, Manage, w.files, w.first);
      if e.ok && c.again.Some? {
        var g := Fetch(e.state, c.prepared, c.again.value);
        Chain(m, f, Effect(e.events + g.events, g.state, g.ok), w.id, w.id + 1);
        Regroup(f.events, e.events, g.events);
      } else {
        Chain(m, f, e, w.id, w.id + 1);
      }
    }
  }

  lemma RunSound(m: Monitor, c: Command, w: World)
    requires Inv(m) && FreshFrom(m, w.id) && c.StartRun?
    ensures Sound(m, StartManaged(m.disk, c, w), w.id + 1)
  {
    var s := m.disk;
    var e := StartManaged(s, c, w);
    if e.events == [] {
    } else {
      var s1 := s.(runs := s.runs[c.key := RunRecord(c.request, c.operationKey, None, false)]);
      SaveSound(m, s1, true, w.id);
      var first := Effect([Saved(s1)], s1, true);
      var m1 := AdvanceAll(m, first.events);
      Single(m, Saved(s1));
      PerformSound(m1, w.id, Run(c.key), w.files, w.first);
      var sent := PerformOp(s1, w.id, Run(c.key), w.files, w.first);
      Chain(m, first, sent, w.id, w.id + 1);
      var both := Effect(first.events + sent.events, sent.state, sent.ok);
      if e.ok {
        SettleKeeps(AdvanceAll(m, both.events), e.state, w.id + 1, true, false);
        Chain(m, both, Effect([Saved(e.state)], e.state, true), w.id + 1, w.id + 1);
      }
    }
  }

  lemma PrepareReportSound(m: Monitor, c: Command, w: World)
    requires Inv(m) && FreshFrom(m, w.id) && c.PrepareReport?
    ensures Sound(m, PrepareRunReport(m.disk, c, w), w.id)
  {
    var s := m.disk;
    if IsActive(s) && Consumed(s, w.files) && c.valid {
      CollectSound(m, c.key, c.intact, c.execution, w.id);
      var e := CollectRun(s, c.key, c.intact, c.execution);
      if e.ok && e.state.runs[c.key].collected && c.preflight.Some? {
        var m1 := AdvanceAll(m, e.events);
        var s1 := e.state.(revision := c.preflight.value);
        var s2 := s1.(reports := s1.reports[c.id := Report(c.key, c.evidence)]);
        SaveSound(m1, s1, true, w.id);
        Single(m1, Saved(s1));
        SaveSound(Advance(m1, Saved(s1)), s2, true, w.id);
        Chain(m1, Effect([Saved(s1)], s1, true), Effect([Saved(s2)], s2, true), w.id, w.id);
        assert [Saved(s1)] + [Saved(s2)] == [Saved(s1), Saved(s2)];
        Chain(m, e, Effect([Saved(s1), Saved(s2)], s2, true), w.id, w.id);
      }
    }
  }

  lemma CheckThenFileSound(m: Monitor, revision: nat, w: World, key: nat, lookup: Lookup)
    requires Inv(m) && FreshFrom(m, w.id) && m.disk.pending.None? && !m.disk.phase.New?
    ensures Sound(m, CheckThenFile(m.disk, revision, w, key, lookup), w.id + 3)
  {
    var s := m.disk.(revision := revision);
    SaveSound(m, s, true, w.id);
    Single(m, Saved(s));
    FileSound(Advance(m, Saved(s)), w, key, lookup);
    Chain(m, Effect([Saved(s)], s, true), FileEvidence(s, w, key, lookup), w.id, w.id + 3);
  }

  lemma FinishCollectedSound(m: Monitor, c: Command, w: World)
    requires Inv(m) && FreshFrom(m, w.id) && c.FinishReport? && Available(m.disk) && m.disk.phase.Active? && c.id in m.disk.reports
    ensures Sound(m, FromReport(m.disk, c, w), w.id + 3)
  {
    var report := m.disk.reports[c.id];
    CollectSound(m, report.run, c.intact, c.execution, w.id);
    var e := CollectRun(m.disk, report.run, c.intact, c.execution);
    if e.ok && Consumed(e.state, w.files) && c.preflight.Some? {
      CheckThenFileSound(AdvanceAll(m, e.events), c.preflight.value, w, report.evidence, c.lookup);
      Chain(m, e, CheckThenFile(e.state, c.preflight.value, w, report.evidence, c.lookup), w.id, w.id + 3);
    }
  }

  lemma FinishReportSound(m: Monitor, c: Command, w: World)
    requires Inv(m) && FreshFrom(m, w.id) && c.FinishReport?
    ensures Sound(m, FinishRunReport(m.disk, c, w), w.id + 3)
  {
    var s := m.disk;
    if !Available(s) || c.id !in s.reports {
    } else if s.phase.WorkCompleted? {
      FinishSound(m, w, w.id, w.second, w.third);
    } else if !s.phase.Active? {
    } else {
      FinishCollectedSound(m, c, w);
    }
  }

  lemma BeginSound(m: Monitor, work: nat, w: World)
    requires Inv(m) && FreshFrom(m, w.id)
    ensures Sound(m, Execute(m.disk, BeginWork(work), w), w.id + 1)
  {
    var s := m.disk;
    var r := Execute(s, BeginWork(work), w);
    if Available(s) && s.phase.New? {
      PerformSound(m, w.id, Begin, w.files, w.first);
      var e := PerformOp(s, w.id, Begin, w.files, w.first);
      if e.ok {
        SettleKeeps(AdvanceAll(m, e.events), r.state, w.id + 1, true, false);
        Chain(m, e, Effect([Saved(r.state)], r.state, true), w.id + 1, w.id + 1);
      }
    }
  }

  lemma AcknowledgeSound(m: Monitor, hash: nat, w: World)
    requires Inv(m) && FreshFrom(m, w.id)
    ensures Sound(m, Execute(m.disk, Acknowledge(hash), w), w.id)
  {
    var s := m.disk;
    if IsActive(s) && Delivered(s, w.files, hash) {
      var s1 := s.(context := Some(s.context.value.(acknowledged := true)));
      var ack := Acknowledged(hash);
      Single(m, ack);
      SaveSound(Advance(m, ack), s1, true, w.id);
      Chain(m, Effect([ack], s, true), Effect([Saved(s1)], s1, true), w.id, w.id);
      assert [ack] + [Saved(s1)] == [ack, Saved(s1)];
    }
  }

  lemma ReconcileSound(m: Monitor, c: Command, id: nat)
    requires Inv(m) && FreshFrom(m, id) && c.Reconcile?
    ensures Sound(m, ReconcilePending(m.disk, c), id)
    ensures forall e <- ReconcilePending(m.disk, c).events :: e.Saved?
  {
    var e := ReconcilePending(m.disk, c);
    if e.events == [] {
    } else {
      SettleKeeps(m, e.state, id, true, true);
    }
  }

  /** Every command, in every journal a run can reach, does only what the observer allows. */
  lemma CommandAccepted(m: Monitor, c: Command, w: World)
    requires Inv(m) && FreshFrom(m, w.id)
    ensures Accepted(m, Execute(m.disk, c, w).events)
    ensures AdvanceAll(m, Execute(m.disk, c, w).events).disk == Execute(m.disk, c, w).state
  {
    var s := m.disk;
    match c {
      case BeginWork(work) => BeginSound(m, work, w);
      case Prepare(_, _, _, _) => PrepareSound(m, c, w);
      case Acknowledge(hash) => AcknowledgeSound(m, hash, w);
      case StartRun(_, _, _, _, _, _) => RunSound(m, c, w);
      case PrepareReport(_, _, _, _, _, _, _) => PrepareReportSound(m, c, w);
      case FinishReport(_, _, _, _, _) => FinishReportSound(m, c, w);
      case Finish => FinishSound(m, w, w.id, w.first, w.second);
      case Reconcile(_, _, _, _, _, _, _, _) => ReconcileSound(m, c, w.id);
      case Perform(op) =>
        if Execute(s, c, w).events != [] {
          WholeSound(m, w.id, op, w.files, w.first);
        }
      case SaveCheckpoint(hash) =>
        if Execute(s, c, w).events != [] {
          WholeSound(m, w.id, Checkpoint, w.files, w.first);
        }
      case Collect(key, intact, execution) => CollectAnywhere(m, key, intact, execution, w.id);
      case Adopt(_, _, _, _) =>
        if Execute(s, c, w).events != [] {
          SaveSound(m, Execute(s, c, w).state, true, w.id);
        }
      case Inspect(readable, _) =>
        if readable {
          InspectSound(m, c, w);
        }
    }
  }

  /** Collecting and inspecting stay available while an operation is pending, and leave it pending. */
  lemma CollectAnywhere(m: Monitor, key: nat, intact: bool, execution: Option<nat>, id: nat)
    requires Inv(m) && FreshFrom(m, id)
    ensures Sound(m, CollectRun(m.disk, key, intact, execution), id)
  {
    var e := CollectRun(m.disk, key, intact, execution);
    if e.events == [] {
    } else {
      SaveSound(m, e.state, true, id);
    }
  }

  lemma InspectSound(m: Monitor, c: Command, w: World)
    requires Inv(m) && FreshFrom(m, w.id) && c.Inspect?
    ensures Sound(m, Execute(m.disk, c, w), w.id)
  {
    SaveSound(m, Execute(m.disk, c, w).state, true, w.id);
  }

  // ---------------------------------------------------------------- runs

  lemma SavedKeepsInv(m: Monitor, s: State)
    requires Inv(m) && Allowed(m, Saved(s))
    ensures Inv(Advance(m, Saved(s)))
  {
    if m.disk.pending.Some? && s.pending.None? {
      var r :| s.history == m.disk.history + [Entry(m.disk.pending.value, r)];
      IdsSettle(m.disk.history, Entry(m.disk.pending.value, r));
    }
  }

  lemma {:induction false} InvKept(m: Monitor, t: seq<Event>)
    requires Inv(m) && Accepted(m, t)
    ensures Inv(AdvanceAll(m, t))
    decreases |t|
  {
    if t != [] {
      if t[0].Saved? {
        SavedKeepsInv(m, t[0].state);
      }
      InvKept(Advance(m, t[0]), t[1..]);
    }
  }

  /** One command, killed after `cut` of its effects; the next one starts from the journal it left. */
  datatype Call = Call(command: Command, world: World, cut: nat)

  function Kept(m: Monitor, call: Call): seq<Event> {
    Cut(Execute(m.disk, call.command, call.world).events, call.cut)
  }

  /** Generated ids never repeat. */
  ghost predicate Realistic(m: Monitor, calls: seq<Call>)
    decreases |calls|
  {
    calls != [] ==> FreshFrom(m, calls[0].world.id) && Realistic(AdvanceAll(m, Kept(m, calls[0])), calls[1..])
  }

  function TraceFrom(m: Monitor, calls: seq<Call>): seq<Event>
    decreases |calls|
  {
    if calls == [] then []
    else Kept(m, calls[0]) + TraceFrom(AdvanceAll(m, Kept(m, calls[0])), calls[1..])
  }

  lemma {:induction false} RunAccepted(m: Monitor, calls: seq<Call>)
    requires Inv(m) && Realistic(m, calls)
    ensures Accepted(m, TraceFrom(m, calls))
    decreases |calls|
  {
    if calls != [] {
      var all := Execute(m.disk, calls[0].command, calls[0].world).events;
      var kept := Kept(m, calls[0]);
      CommandAccepted(m, calls[0].command, calls[0].world);
      assert all == kept + all[|kept|..];
      AcceptedConcat(m, kept, all[|kept|..]);
      InvKept(m, kept);
      RunAccepted(AdvanceAll(m, kept), calls[1..]);
      AcceptedConcat(m, kept, TraceFrom(AdvanceAll(m, kept), calls[1..]));
    }
  }

  /** The journal created for a project at this revision. */
  function Start(revision: nat): Monitor {
    Monitor(State(None, None, New, None, None, [], revision, None, None, map[], map[]), {}, {}, None, None)
  }

  lemma StartKept(revision: nat, id: nat)
    ensures Inv(Start(revision)) && FreshFrom(Start(revision), id)
  {
  }

  /** A trace of some run of commands from a new journal, each killed anywhere. */
  ghost predicate IsRun(t: seq<Event>, revision: nat) {
    exists calls: seq<Call> :: Realistic(Start(revision), calls) && t == TraceFrom(Start(revision), calls)
  }

  // ---------------------------------------------------------------- the same, position by position

  /** The journal on disk before position `i`: the last save, or the new journal. */
  function JournalAt(t: seq<Event>, i: nat, revision: nat): State
    requires i <= |t|
  {
    if i == 0 then Start(revision).disk
    else if t[i - 1].Saved? then t[i - 1].state
    else JournalAt(t, i - 1, revision)
  }

  ghost predicate AcknowledgedSince(t: seq<Event>, a: nat, i: nat, hash: nat)
    requires i <= |t|
  {
    a < i && t[a] == Acknowledged(hash) && forall k :: a < k < i ==> !t[k].Fetched?
  }

  ghost predicate MissingSince(t: seq<Event>, a: nat, i: nat, key: nat)
    requires i <= |t|
  {
    && a < i && t[a] == Looked(key, true)
    && forall k :: a < k < i ==> !t[k].Looked? && !(t[k].Sent? && t[k].op.Evidence?)
  }

  function At(t: seq<Event>, i: nat, revision: nat): Monitor
    requires i <= |t|
  {
    AdvanceAll(Start(revision), t[..i])
  }

  lemma AtNext(t: seq<Event>, i: nat, revision: nat)
    requires i < |t|
    ensures At(t, i + 1, revision) == Advance(At(t, i, revision), t[i])
  {
    assert t[..i + 1] == t[..i] + [t[i]];
    AcceptedConcat(Start(revision), t[..i], [t[i]]);
    Single(At(t, i, revision), t[i]);
  }

  lemma RunAt(t: seq<Event>, i: nat, revision: nat)
    requires IsRun(t, revision) && i <= |t|
    ensures Inv(At(t, i, revision)) && (i < |t| ==> Allowed(At(t, i, revision), t[i]))
  {
    var m := Start(revision);
    var calls :| Realistic(m, calls) && t == TraceFrom(m, calls);
    RunAccepted(m, calls);
    assert t == t[..i] + t[i..];
    AcceptedConcat(m, t[..i], t[i..]);
    InvKept(m, t[..i]);
  }

  lemma {:induction false} DiskAt(t: seq<Event>, i: nat, revision: nat)
    requires i <= |t|
    ensures At(t, i, revision).disk == JournalAt(t, i, revision)
  {
    if i > 0 {
      DiskAt(t, i - 1, revision);
      AtNext(t, i - 1, revision);
    }
  }

  lemma {:induction false} SentAt(t: seq<Event>, i: nat, h: nat, revision: nat)
    requires h < i <= |t| && t[h].Sent?
    ensures t[h].id in At(t, i, revision).sent
    ensures t[h].op.Run? ==> t[h].op.key in At(t, i, revision).runs
  {
    AtNext(t, i - 1, revision);
    if h < i - 1 {
      SentAt(t, i - 1, h, revision);
    }
  }

  lemma {:induction false} AcknowledgedAt(t: seq<Event>, i: nat, revision: nat)
    requires i <= |t| && At(t, i, revision).acknowledged.Some?
    ensures exists a: nat :: AcknowledgedSince(t, a, i, At(t, i, revision).acknowledged.value)
  {
    if i > 0 {
      AtNext(t, i - 1, revision);
      var hash := At(t, i, revision).acknowledged.value;
      if t[i - 1].Acknowledged? {
        assert AcknowledgedSince(t, i - 1, i, hash);
      } else {
        AcknowledgedAt(t, i - 1, revision);
        var a: nat :| AcknowledgedSince(t, a, i - 1, hash);
        assert AcknowledgedSince(t, a, i, hash);
      }
    }
  }

  lemma {:induction false} MissingAt(t: seq<Event>, i: nat, revision: nat)
    requires i <= |t| && At(t, i, revision).missing.Some?
    ensures exists a: nat :: MissingSince(t, a, i, At(t, i, revision).missing.value)
  {
    if i > 0 {
      AtNext(t, i - 1, revision);
      var key := At(t, i, revision).missing.value;
      if t[i - 1].Looked? {
        assert MissingSince(t, i - 1, i, key);
      } else {
        MissingAt(t, i - 1, revision);
        var a: nat :| MissingSince(t, a, i - 1, key);
        assert MissingSince(t, a, i, key);
      }
    }
  }

  /**
   Over every run with crashes and reconciliations: an operation is sent only while the saved journal
   holds it as the pending one, its id was never sent before, and everything sent before is settled.
   */
  lemma SentOnceAndSavedFirst(t: seq<Event>, revision: nat, i: nat)
    requires IsRun(t, revision) && IsSent(t, i)
    ensures JournalAt(t, i, revision).pending == Some(Pending(t[i].id, t[i].op, NotKnown))
    ensures forall h :: 0 <= h < i && t[h].Sent? ==>
      t[h].id != t[i].id && t[h].id in Ids(JournalAt(t, i, revision).history)
  {
    RunAt(t, i, revision);
    DiskAt(t, i, revision);
    forall h | 0 <= h < i && t[h].Sent?
      ensures t[h].id != t[i].id && t[h].id in Ids(JournalAt(t, i, revision).history)
    {
      SentAt(t, i, h, revision);
    }
  }

  /** In every journal on disk each id occurs once, and every id sent is in exactly one of history and pending. */
  lemma EveryOperationAccountedFor(t: seq<Event>, revision: nat, i: nat)
    requires IsRun(t, revision) && i <= |t|
    ensures var s := JournalAt(t, i, revision);
      && DistinctIds(s.history)
      && forall h :: 0 <= h < i && t[h].Sent? ==>
           (t[h].id in Ids(s.history)) != (s.pending.Some? && s.pending.value.id == t[h].id)
  {
    RunAt(t, i, revision);
    DiskAt(t, i, revision);
    var s := JournalAt(t, i, revision);
    forall h | 0 <= h < i && t[h].Sent?
      ensures (t[h].id in Ids(s.history)) != (s.pending.Some? && s.pending.value.id == t[h].id)
    {
      SentAt(t, i, h, revision);
    }
  }

  /** Between two moments of a run the history only grew and every run key kept its request and runtime key. */
  lemma {:induction false} JournalOnlyGrows(t: seq<Event>, revision: nat, h: nat, i: nat)
    requires IsRun(t, revision) && h <= i <= |t|
    ensures var s, s' := JournalAt(t, h, revision), JournalAt(t, i, revision);
      && s.history <= s'.history
      && forall k <- s.runs :: k in s'.runs && s'.runs[k].request == s.runs[k].request && s'.runs[k].operationKey == s.runs[k].operationKey
    decreases i
  {
    if h < i {
      JournalOnlyGrows(t, revision, h, i - 1);
      RunAt(t, i - 1, revision);
      DiskAt(t, i - 1, revision);
    }
  }

  /** A run key is recorded before it is dispatched and dispatched at most once, whatever was reconciled. */
  lemma RunKeyDispatchedOnce(t: seq<Event>, revision: nat, i: nat)
    requires IsRun(t, revision) && IsSent(t, i) && t[i].op.Run?
    ensures t[i].op.key in JournalAt(t, i, revision).runs
    ensures forall h :: 0 <= h < i && t[h].Sent? && t[h].op.Run? ==> t[h].op.key != t[i].op.key
  {
    RunAt(t, i, revision);
    DiskAt(t, i, revision);
    forall h | 0 <= h < i && t[h].Sent? && t[h].op.Run?
      ensures t[h].op.key != t[i].op.key
    {
      SentAt(t, i, h, revision);
    }
  }

  /**
   Progress, checkpoint, run and complete reach AWR only while the journal's context is this session's,
   its file is intact, and it was acknowledged after the last fetch.
   */
  lemma GatedNeedsAcknowledgedContext(t: seq<Event>, revision: nat, i: nat)
    requires IsRun(t, revision) && IsSent(t, i) && Gated(t[i].op)
    ensures var s := JournalAt(t, i, revision);
      && s.context.Some? && s.session == Some(s.context.value.content.session)
      && t[i].shown == Some(s.context.value.content)
      && exists a: nat :: AcknowledgedSince(t, a, i, s.context.value.hash)
  {
    RunAt(t, i, revision);
    DiskAt(t, i, revision);
    AcknowledgedAt(t, i, revision);
  }

  /** Every evidence look-up that answers "missing" is right about the evidence this journal added. */
  ghost predicate LookupsAccurate(t: seq<Event>) {
    forall h, i :: 0 <= h < i < |t| && t[i].Looked? && t[i].missing && t[h].Sent? && t[h].op.Evidence? && t[h].applied
      ==> t[h].op.key != t[i].key
  }

  /**
   A report's evidence is sent only after the latest look-up found that key missing; when look-ups are
   accurate, the key had not been applied before, so it is added at most once.
   */
  lemma ReportEvidenceAddedOnce(t: seq<Event>, revision: nat, i: nat)
    requires IsRun(t, revision) && IsSent(t, i) && t[i].op.Evidence? && t[i].op.viaReport
    ensures exists a: nat :: MissingSince(t, a, i, t[i].op.key)
    ensures LookupsAccurate(t) ==>
      forall h :: 0 <= h < i && t[h].Sent? && t[h].op.Evidence? && t[h].applied ==> t[h].op.key != t[i].op.key
  {
    RunAt(t, i, revision);
    MissingAt(t, i, revision);
    var a: nat :| MissingSince(t, a, i, t[i].op.key);
    forall h | LookupsAccurate(t) && 0 <= h < i && t[h].Sent? && t[h].op.Evidence? && t[h].applied
      ensures t[h].op.key != t[i].op.key
    {
      assert h < a;
    }
  }

  // ---------------------------------------------------------------- the journal

  lemma Regroup(a: seq<Event>, b: seq<Event>, c: seq<Event>)
    ensures a + b + c == a + (b + c)
  {
  }

  /** `state` is the copy in memory, `file` the saved one; `trace` lists the effects so far. */
  class OperationJournal {
    var state: State
    var file: State
    ghost var trace: seq<Event>

    constructor (revision: nat)
      ensures state == file == Start(revision).disk && trace == []
    {
      state := State(None, None, New, None, None, [], revision, None, None, map[], map[]);
      file := state;
      trace := [];
    }

    method Save()
      modifies this
      ensures state == file == old(state) && trace == old(trace) + [Saved(state)]
    {
      file := state;
      trace := trace + [Saved(state)];
    }

    ghost method Note(e: Event)
      modifies this`trace
      ensures trace == old(trace) + [e]
    {
      trace := trace + [e];
    }

    /** Save before any possible side effect; an error or a lost answer keeps the operation pending. */
    method Perform(id: nat, op: Op, files: map<nat, Delivery>, r: Reply) returns (ok: bool)
      requires state == file
      modifies this
      ensures var e := PerformOp(old(state), id, op, files, r);
        trace == old(trace) + e.events && state == file == e.state && ok == e.ok
    {
      ghost var shown := Shown(state, files);
      state := state.(pending := Some(Pending(id, op, NotKnown)));
      Save();
      Note(Sent(id, op, shown, Applied(r)));
      var outcome := if r.Bad? && r.lost then Unknown else Returned;
      state := state.(pending := Some(state.pending.value.(outcome := outcome)));
      Save();
      ok := r.Good?;
    }

    method Completed(revision: nat, phase: Phase, checkpoint: Option<nat>)
      requires state.pending.Some?
      modifies this
      ensures state == file == Settled(old(state), false).(revision := revision, phase := phase, checkpoint := checkpoint)
      ensures trace == old(trace) + [Saved(state)]
    {
      state := state.(history := state.history + [Entry(state.pending.value, false)], pending := None);
      state := state.(revision := revision, phase := phase, checkpoint := checkpoint);
      Save();
    }

    method PerformAndComplete(id: nat, op: Op, files: map<nat, Delivery>, r: Reply) returns (ok: bool)
      requires state == file
      modifies this
      ensures var e := Whole(old(state), id, op, files, r);
        trace == old(trace) + e.events && state == file == e.state && ok == e.ok
    {
      ok := Perform(id, op, files, r);
      if ok {
        var phase := if op.Complete? then WorkCompleted else if op.End? then Ended else state.phase;
        var checkpoint := if op.Checkpoint? then Some(r.ref) else state.checkpoint;
        Completed(r.revision, phase, checkpoint);
      }
    }

    method Begin(work: nat, w: World) returns (ok: bool)
      requires state == file
      modifies this
      ensures var e := Execute(old(state), BeginWork(work), w);
        trace == old(trace) + e.events && state == file == e.state && ok == e.ok
    {
      ok := Available(state) && state.phase.New?;
      if ok {
        ok := Perform(w.id, Op.Begin, w.files, w.first);
        if ok {
          state := Settled(state, false).(
            revision := w.first.revision, session := Some(w.first.ref), work := Some(work), phase := Active);
          Save();
        }
      }
    }

    method FetchContext(prepared: bool, got: Option<Got>) returns (ok: bool)
      requires state == file
      modifies this
      ensures var e := Fetch(old(state), prepared, got);
        trace == old(trace) + e.events && state == file == e.state && ok == e.ok
    {
      state := state.(context := None);
      Save();
      Note(Fetched);
      ok := got.Some? && got.value.complete && got.value.matches && state.session == Some(got.value.session);
      if ok {
        var g := got.value;
        state := state.(context := Some(Context(g.hash, g.path, Delivery(g.session, g.hash), prepared, false)), revision := g.revision);
        Save();
      }
    }

    method PrepareContext(c: Command, w: World) returns (ok: bool)
      requires state == file && c.Prepare?
      modifies this
      ensures var e := PrepareWork(old(state), c, w);
        trace == old(trace) + e.events && state == file == e.state && ok == e.ok
    {
      ok := IsActive(state);
      if ok {
        ok := FetchContext(c.prepared, c.got);
        if ok && c.record {
          ok := PerformAndComplete(w.id, Manage, w.files, w.first);
          if ok && c.again.Some? {
            ok := FetchContext(c.prepared, c.again.value);
          }
        }
      }
    }

    method AcknowledgeContext(hash: nat, w: World) returns (ok: bool)
      requires state == file
      modifies this
      ensures var e := Execute(old(state), Acknowledge(hash), w);
        trace == old(trace) + e.events && state == file == e.state && ok == e.ok
    {
      ok := IsActive(state) && Delivered(state, w.files, hash);
      if ok {
        Note(Acknowledged(hash));
        state := state.(context := Some(state.context.value.(acknowledged := true)));
        Save();
      }
    }

    method SubmitCheckpoint(hash: nat, w: World) returns (ok: bool)
      requires state == file
      modifies this
      ensures var e := Execute(old(state), SaveCheckpoint(hash), w);
        trace == old(trace) + e.events && state == file == e.state && ok == e.ok
    {
      ok := IsActive(state) && Delivered(state, w.files, hash) && state.context.value.acknowledged;
      if ok {
        ok := PerformAndComplete(w.id, Checkpoint, w.files, w.first);
      }
    }

    method FinishSession(w: World, id: nat, complete: Reply, end: Reply) returns (ok: bool)
      requires state == file
      modifies this
      ensures var e := FinishWork(old(state), w, id, complete, end);
        trace == old(trace) + e.events && state == file == e.state && ok == e.ok
    {
      ok := Available(state);
      var next, reply := id, end;
      if ok && state.phase.Active? {
        ok := Consumed(state, w.files);
        if ok {
          ok := PerformAndComplete(id, Complete, w.files, complete);
          next := id + 1;
        }
      } else if ok {
        ok := state.phase.WorkCompleted?;
      }
      if ok {
        ok := PerformAndComplete(next, End, w.files, reply);
      }
    }

    method CollectExecution(key: nat, intact: bool, execution: Option<nat>) returns (ok: bool)
      requires state == file
      modifies this
      ensures var e := CollectRun(old(state), key, intact, execution);
        trace == old(trace) + e.events && state == file == e.state && ok == e.ok
    {
      ok := key in state.runs && intact;
      if ok && !state.runs[key].collected && execution.Some? {
        state := state.(runs := state.runs[key := state.runs[key].(execution := execution, collected := true)]);
        Save();
      }
    }

    /** The request and its runtime key are saved before dispatch; a known key is only queried. */
    method RunManaged(c: Command, w: World) returns (ok: bool)
      requires state == file && c.StartRun?
      modifies this
      ensures var e := StartManaged(old(state), c, w);
        trace == old(trace) + e.events && state == file == e.state && ok == e.ok
    {
      ok := IsActive(state) && Consumed(state, w.files) && c.valid;
      if ok {
        if c.key in state.runs {
          ok := state.runs[c.key].request == c.request;
        } else if !c.unclaimed {
          ok := false;
        } else {
          var record := RunRecord(c.request, c.operationKey, None, false);
          state := state.(runs := state.runs[c.key := record]);
          Save();
          ok := Perform(w.id, Run(c.key), w.files, w.first);
          ok := ok && c.matches;
          if ok {
            state := Settled(state, false).(runs := state.runs[c.key := record.(execution := Some(w.first.ref))]);
            Save();
          }
        }
      }
    }

    method Preflight(revision: nat)
      modifies this
      ensures state == file == old(state).(revision := revision) && trace == old(trace) + [Saved(state)]
    {
      state := state.(revision := revision);
      Save();
    }

    method RecordReport(c: Command, w: World) returns (ok: bool)
      requires state == file && c.PrepareReport?
      modifies this
      ensures var e := PrepareRunReport(old(state), c, w);
        trace == old(trace) + e.events && state == file == e.state && ok == e.ok
    {
      ok := IsActive(state) && Consumed(state, w.files) && c.valid;
      if ok {
        ok := CollectExecution(c.key, c.intact, c.execution);
        ok := ok && state.runs[c.key].collected && c.preflight.Some?;
        if ok {
          Preflight(c.preflight.value);
          state := state.(reports := state.reports[c.id := Report(c.key, c.evidence)]);
          Save();
        }
      }
    }

    method RegisterAndFinish(w: World, key: nat) returns (ok: bool)
      requires state == file
      modifies this
      ensures var e := Register(old(state), w, key);
        trace == old(trace) + e.events && state == file == e.state && ok == e.ok
    {
      ok := PerformAndComplete(w.id, Evidence(key, true), w.files, w.first);
      if ok {
        ok := FinishSession(w, w.id + 1, w.second, w.third);
      }
    }

    /** The exact key is looked up first, so that a lost answer does not lead to a second registration. */
    method File(w: World, key: nat, lookup: Lookup) returns (ok: bool)
      requires state == file
      modifies this
      ensures var e := FileEvidence(old(state), w, key, lookup);
        trace == old(trace) + e.events && state == file == e.state && ok == e.ok
    {
      Note(Looked(key, lookup.Missing?));
      ok := FinishAsFound(w, key, lookup);
      Regroup(old(trace), [Looked(key, lookup.Missing?)], AfterLookup(old(state), w, key, lookup).events);
    }

    method FinishAsFound(w: World, key: nat, lookup: Lookup) returns (ok: bool)
      requires state == file
      modifies this
      ensures var e := AfterLookup(old(state), w, key, lookup);
        trace == old(trace) + e.events && state == file == e.state && ok == e.ok
    {
      if lookup.Exact? {
        ok := FinishSession(w, w.id, w.second, w.third);
      } else if lookup.Missing? {
        ok := RegisterAndFinish(w, key);
      } else {
        ok := false;
      }
    }

    method FinishWithReport(c: Command, w: World) returns (ok: bool)
      requires state == file && c.FinishReport?
      modifies this
      ensures var e := FinishRunReport(old(state), c, w);
        trace == old(trace) + e.events && state == file == e.state && ok == e.ok
    {
      ok := Available(state) && c.id in state.reports;
      if ok {
        if state.phase.WorkCompleted? {
          ok := FinishSession(w, w.id, w.second, w.third);
        } else if state.phase.Active? {
          ok := FinishFromReport(c, w);
        } else {
          ok := false;
        }
      }
    }

    method FinishFromReport(c: Command, w: World) returns (ok: bool)
      requires state == file && c.FinishReport? && Available(state) && state.phase.Active? && c.id in state.reports
      modifies this
      ensures var e := FromReport(old(state), c, w);
        trace == old(trace) + e.events && state == file == e.state && ok == e.ok
    {
      var report := state.reports[c.id];
      ok := CollectExecution(report.run, c.intact, c.execution);
      ok := ok && Consumed(state, w.files) && c.preflight.Some?;
      if ok {
        ghost var collected := state;
        ok := CheckAndFile(c.preflight.value, w, report.evidence, c.lookup);
        Regroup(old(trace), CollectRun(old(state), report.run, c.intact, c.execution).events,
                CheckThenFile(collected, c.preflight.value, w, report.evidence, c.lookup).events);
      }
    }

    method CheckAndFile(revision: nat, w: World, key: nat, lookup: Lookup) returns (ok: bool)
      requires state == file
      modifies this
      ensures var e := CheckThenFile(old(state), revision, w, key, lookup);
        trace == old(trace) + e.events && state == file == e.state && ok == e.ok
    {
      ghost var saved := state.(revision := revision);
      Preflight(revision);
      ok := File(w, key, lookup);
      Regroup(old(trace), [Saved(saved)], FileEvidence(saved, w, key, lookup).events);
    }

    method InspectPending(readable: bool, digest: nat, w: World) returns (ok: bool)
      requires state == file
      modifies this
      ensures var e := Execute(old(state), Inspect(readable, digest), w);
        trace == old(trace) + e.events && state == file == e.state && ok == e.ok
    {
      ok := readable;
      if ok {
        var id := if state.pending.Some? then Some(state.pending.value.id) else None;
        state := state.(inspection := Some(Inspection(digest, id)));
        Save();
      }
    }

    /** The operator's decision on the inspected pending operation; nothing is sent. */
    method ReconcileInspected(c: Command) returns (ok: bool)
      requires state == file && c.Reconcile?
      modifies this
      ensures var e := ReconcilePending(old(state), c);
        trace == old(trace) + e.events && state == file == e.state && ok == e.ok
    {
      var session := if c.chosen.Some? then c.chosen else state.session;
      var work := if c.chosenWork.Some? then c.chosenWork else state.work;
      ok := state.pending.Some? && state.inspection.Some?
            && state.inspection.value == Inspection(c.digest, Some(state.pending.value.id))
            && c.intact && session.Some? && work.Some? && c.valid;
      if ok {
        state := state.(history := state.history + [Entry(state.pending.value, true)]);
        if session != state.session {
          state := state.(context := None);
        }
        var phase := if !c.live then Ended else if c.done then WorkCompleted else Active;
        state := state.(pending := None, session := session, work := work, phase := phase, revision := c.revision);
        Save();
      }
    }
  }
}
