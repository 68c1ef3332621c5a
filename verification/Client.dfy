/**
 Hook deliveries of one client conversation. The conversation's lock admits one command at a time;
 other processes commit to the same store between any two accesses. A command is the sequence of
 stores it sees and makes; a crash keeps a prefix. Sessions and checkpoints are named by position.
 */
module Client {
  import opened Prelude

  /** `own`: opened under this conversation's agent name. `worked`: revision of its last work event. */
  datatype Session = Session(work: Option<nat>, active: bool, own: bool, branch: nat, worked: nat)

  /** What the host says about an event; `turn` is its native turn id, if it has one. */
  datatype Notice = Notice(event: nat, turn: Option<nat>, trigger: nat)

  /** A delivery key is the digest of these fields; digests do not collide. */
  datatype Key = Key(notice: Notice, progress: nat, sources: nat, worked: nat)

  datatype Checkpoint = Checkpoint(session: nat, key: Option<Key>)

  datatype Binding = Binding(session: nat, revision: nat, progress: nat, key: Option<Key>, checkpoint: Option<nat>)

  /** `branch`: the project's current work branch. */
  datatype Store = Store(
    revision: nat, sources: nat, branch: nat, sessions: seq<Session>, binding: Option<Binding>,
    checkpoints: seq<Checkpoint>, deliveries: set<Key>)

  /** What other processes committed: new source state, a switched branch, ended sessions, work events, sessions and checkpoints. */
  datatype Gap = Gap(
    commits: nat, sources: nat, branch: Option<nat>, ended: set<nat>, worked: map<nat, nat>,
    started: seq<Option<nat>>, noted: seq<nat>)

  const QUIET := Gap(0, 0, None, {}, map[], [], [])

  /** `states` are the stores seen and made, in order; `store` is the last one. */
  datatype Effect = Effect(states: seq<Store>, store: Store, ok: bool)

  datatype Choice = Orphan | Chosen(session: nat) | Resumed

  // ---------------------------------------------------------------- the store

  function Get(xs: seq<Session>, id: nat): Session {
    if id < |xs| then xs[id] else Session(None, false, false, 0, 0)
  }

  function Touched(x: Session, i: nat, g: Gap): Session {
    x.(active := x.active && i !in g.ended, worked := if i in g.worked then g.worked[i] else x.worked)
  }

  function TouchAll(xs: seq<Session>, g: Gap): (ys: seq<Session>)
    ensures |ys| == |xs| && forall i :: 0 <= i < |xs| ==> ys[i] == Touched(xs[i], i, g)
  {
    seq(|xs|, i requires 0 <= i < |xs| => Touched(xs[i], i, g))
  }

  function Opened(works: seq<Option<nat>>): (ys: seq<Session>)
    ensures |ys| == |works| && forall i :: 0 <= i < |works| ==> ys[i] == Session(works[i], true, false, 0, 0)
  {
    seq(|works|, i requires 0 <= i < |works| => Session(works[i], true, false, 0, 0))
  }

  function Noted(sessions: seq<nat>): (cs: seq<Checkpoint>)
    ensures |cs| == |sessions| && forall i :: 0 <= i < |cs| ==> cs[i].key.None?
  {
    seq(|sessions|, i requires 0 <= i < |sessions| => Checkpoint(sessions[i], None))
  }

  /** Every change by others moves the project revision; a switch keeps the sessions of the branch it leaves. */
  function Meanwhile(s: Store, g: Gap): Store {
    if g.commits == 0 then s
    else s.(revision := s.revision + g.commits, sources := g.sources,
            branch := if g.branch.Some? then g.branch.value else s.branch,
            sessions := TouchAll(s.sessions, g) + Opened(g.started), checkpoints := s.checkpoints + Noted(g.noted))
  }

  function At(gaps: seq<Gap>, i: nat): Gap {
    if i < |gaps| then gaps[i] else QUIET
  }

  predicate Has(s: Store, key: Key) {
    exists c :: 0 <= c < |s.checkpoints| && s.checkpoints[c].key == Some(key)
  }

  /** The first checkpoint of this session and key, or the number of checkpoints. */
  function Find(cs: seq<Checkpoint>, session: nat, key: Key): (c: nat)
    ensures c <= |cs|
    ensures c < |cs| ==> cs[c] == Checkpoint(session, Some(key))
    ensures forall i :: 0 <= i < c ==> cs[i] != Checkpoint(session, Some(key))
  {
    if cs == [] then 0 else if cs[0] == Checkpoint(session, Some(key)) then 0 else 1 + Find(cs[1..], session, key)
  }

  predicate OwnActive(x: Session) {
    x.own && x.active
  }

  predicate OwnOn(x: Session, branch: nat) {
    OwnActive(x) && x.branch == branch
  }

  /** The first active session of this conversation's agent on a branch, at or after `i`, or the number of sessions. */
  function FirstOwn(xs: seq<Session>, branch: nat, i: nat): (k: nat)
    requires i <= |xs|
    ensures i <= k <= |xs| && (k < |xs| ==> OwnOn(xs[k], branch))
    ensures forall j :: i <= j < k ==> !OwnOn(xs[j], branch)
    decreases |xs| - i
  {
    if i == |xs| || OwnOn(xs[i], branch) then i else FirstOwn(xs, branch, i + 1)
  }

  // ---------------------------------------------------------------- saving the binding

  /** The transaction's own checks on a binding. */
  predicate Savable(s: Store, b: Binding) {
    && (if s.binding.None? then b.revision == 0
        else b.revision == s.binding.value.revision && b.session == s.binding.value.session)
    && b.session < |s.sessions| && Get(s.sessions, b.session).work.Some?
    && (b.checkpoint.Some? ==> b.checkpoint.value < |s.checkpoints| && s.checkpoints[b.checkpoint.value].session == b.session)
  }

  /** The first save of a conversation is a plain binding, whatever it was meant to be. */
  function Stored(s: Store, b: Binding, delivery: bool): Store {
    var b' := b.(revision := s.revision + 1);
    s.(revision := s.revision + 1, binding := Some(b'),
       deliveries := if delivery && s.binding.Some? && b.key.Some? then s.deliveries + {b.key.value} else s.deliveries)
  }

  const ATTEMPTS: nat := 8

  /** Up to `n` attempts, each reading the revision and then committing with it. */
  function Saves(s: Store, b: Binding, delivery: bool, gaps: seq<Gap>, i: nat, n: nat): (e: Effect)
    ensures e.ok ==> e.store.binding.Some?
    decreases |gaps|, n
  {
    if n == 0 then Effect([], s, false)
    else
      var s1 := Meanwhile(s, At(gaps, i));
      var s2 := Meanwhile(s1, At(gaps, i + 1));
      if s2.revision != s1.revision then
        var e := Saves(s2, b, delivery, gaps, i + 2, n - 1);
        Effect([s1, s2] + e.states, e.store, e.ok)
      else if !Savable(s2, b) then Effect([s1, s2], s2, false)
      else Effect([s1, s2, Stored(s2, b, delivery)], Stored(s2, b, delivery), true)
  }

  // ---------------------------------------------------------------- binding a conversation

  /**
   Open a session under this agent, on the given branch or else the current one, with the revision read
   just before; an intervening commit is a conflict.
   */
  function Start(s: Store, branch: Option<nat>, work: nat, gaps: seq<Gap>): Effect {
    var s1 := Meanwhile(s, At(gaps, 3));
    var s2 := Meanwhile(s1, At(gaps, 4));
    if s2.revision != s1.revision then Effect([s1, s2], s2, false)
    else
      var s3 := WithSession(s2, if branch.Some? then branch.value else s1.branch, work);
      Effect([s1, s2, s3], s3, true)
  }

  function WithSession(s: Store, branch: nat, work: nat): Store {
    s.(revision := s.revision + 1, sessions := s.sessions + [Session(Some(work), true, true, branch, s.revision + 1)])
  }

  datatype Picked = Picked(effect: Effect, session: nat)

  /**
   The session an unbound conversation gets: the chosen one, a resumed one, the orphan an interrupted hook
   left on the branch read when the project was opened, or a new one on that branch.
   */
  function Pick(s: Store, branch: nat, choice: Choice, work: nat, gaps: seq<Gap>): Picked {
    var s1 := Meanwhile(s, At(gaps, 2));
    match choice
    case Chosen(id) =>
      Picked(Effect([s1], s1, Get(s1.sessions, id).active && Get(s1.sessions, id).work == Some(work)), id)
    case Resumed =>
      var e := Start(s1, None, work, gaps);
      Picked(Effect([s1] + e.states, e.store, e.ok), |e.store.sessions| - if e.ok then 1 else 0)
    case Orphan =>
      var k := FirstOwn(s1.sessions, branch, 0);
      if k < |s1.sessions| then
        Picked(Effect([s1], s1, FirstOwn(s1.sessions, branch, k + 1) == |s1.sessions| && Get(s1.sessions, k).work == Some(work)), k)
      else
        var e := Start(s1, Some(branch), work, gaps);
        Picked(Effect([s1] + e.states, e.store, e.ok), |e.store.sessions| - if e.ok then 1 else 0)
  }

  /** `compiled`: the picked session's context could be put together. */
  function FirstBinding(s: Store, branch: nat, choice: Choice, work: nat, compiled: bool, gaps: seq<Gap>): (e: Effect)
    ensures e.ok ==> e.store.binding.Some?
  {
    var p := Pick(s, branch, choice, work, gaps);
    if !p.effect.ok || !compiled then Effect(p.effect.states, p.effect.store, false)
    else
      var e := Saves(p.effect.store, Binding(p.session, 0, 0, None, None), false, gaps, 5, ATTEMPTS);
      Effect(p.effect.states + e.states, e.store, e.ok)
  }

  /** A bound conversation keeps its binding, or is refused; any other gets one. */
  function Attach(s: Store, branch: nat, choice: Choice, work: nat, compiled: bool, gaps: seq<Gap>): (e: Effect)
    ensures e.ok ==> e.store.binding.Some?
  {
    var s0 := Meanwhile(s, At(gaps, 1));
    if s0.binding.Some? then
      var b := s0.binding.value;
      var bound := Get(s0.sessions, b.session);
      Effect([s0], s0, !(choice.Chosen? && choice.session != b.session) && bound.work == Some(work) && bound.active)
    else
      var e := FirstBinding(s0, branch, choice, work, compiled, gaps);
      Effect([s0] + e.states, e.store, e.ok)
  }

  /** Opening the project reads the current branch once, before anything else. */
  function NewBinding(s: Store, choice: Choice, work: nat, compiled: bool, gaps: seq<Gap>): (e: Effect)
    ensures e.ok ==> e.store.binding.Some?
  {
    var entry := Meanwhile(s, At(gaps, 0));
    var e := Attach(entry, entry.branch, choice, work, compiled, gaps);
    Effect([entry] + e.states, e.store, e.ok)
  }

  // ---------------------------------------------------------------- delivering an event

  function KeyOf(s: Store, b: Binding, notice: Notice): Key {
    Key(notice, b.progress, s.sources, Get(s.sessions, b.session).worked)
  }

  /** The start receipt of a checkpoint and its completion; a commit in between voids it. */
  function Completion(s: Store, session: nat, key: Key, gaps: seq<Gap>): Effect {
    var s1 := s.(revision := s.revision + 1);
    var s2 := Meanwhile(s1, At(gaps, 24));
    if s2.revision != s1.revision then Effect([s1, s2], s2, false)
    else
      var s3 := s2.(revision := s2.revision + 1, checkpoints := s2.checkpoints + [Checkpoint(session, Some(key))]);
      Effect([s1, s2, s3], s3, true)
  }

  function Checkpointed(s: Store, session: nat, key: Key, gaps: seq<Gap>): (e: Effect)
    ensures e.ok ==> |e.store.checkpoints| > 0
  {
    var s1 := Meanwhile(s, At(gaps, 22));
    var s2 := Meanwhile(s1, At(gaps, 23));
    if s2.revision != s1.revision || !Get(s2.sessions, session).active then Effect([s1, s2], s2, false)
    else
      var e := Completion(s2, session, key, gaps);
      Effect([s1, s2] + e.states, e.store, e.ok)
  }

  /** A checkpoint, then the binding that names it. */
  function NewCheckpoint(s: Store, b: Binding, key: Key, gaps: seq<Gap>): Effect {
    var c := Checkpointed(s, b.session, key, gaps);
    if !c.ok then c
    else
      var e := Saves(c.store, b.(key := Some(key), checkpoint := Some(|c.store.checkpoints| - 1)), true, gaps, 25, ATTEMPTS);
      Effect(c.states + e.states, e.store, e.ok)
  }

  /** The delivery of a bound conversation's event: known, recovered, or new. */
  function Record(s: Store, b: Binding, notice: Notice, gaps: seq<Gap>): Effect {
    var s1 := Meanwhile(s, At(gaps, 21));
    var key := KeyOf(s1, b, notice);
    if key in s1.deliveries then Effect([s1], s1, true)
    else
      var found := Find(s1.checkpoints, b.session, key);
      var e :=
        if found < |s1.checkpoints| then Saves(s1, b.(key := Some(key), checkpoint := Some(found)), true, gaps, 25, ATTEMPTS)
        else NewCheckpoint(s1, b, key, gaps);
      Effect([s1] + e.states, e.store, e.ok)
  }

  datatype Command =
    | Bind(choice: Choice, work: nat, compiled: bool)
    | Progress
    | Deliver(notice: Notice, work: nat, compiled: bool)

  function Execute(s: Store, c: Command, gaps: seq<Gap>): Effect {
    match c
    case Bind(choice, work, compiled) =>
      // binding also stores the context the conversation starts from
      var e := NewBinding(s, choice, work, compiled, gaps);
      if !e.ok then e
      else
        var f := Saves(e.store, e.store.binding.value, false, gaps, 25, ATTEMPTS);
        Effect(e.states + f.states, f.store, f.ok)
    case Progress =>
      // a note of the conversation's progress stores the revision it was made at
      var s0 := Meanwhile(s, At(gaps, 0));
      if s0.binding.None? then Effect([s0], s0, false)
      else
        var f := Saves(s0, s0.binding.value.(progress := s0.revision), false, gaps, 25, ATTEMPTS);
        Effect([s0] + f.states, f.store, f.ok)
    case Deliver(notice, work, compiled) =>
      var e := NewBinding(s, Orphan, work, compiled, gaps);
      if !e.ok then e
      else
        var f := Record(e.store, e.store.binding.value, notice, gaps);
        Effect(e.states + f.states, f.store, f.ok)
  }

  // ---------------------------------------------------------------- what every store keeps

  ghost predicate OneOwn(xs: seq<Session>) {
    forall i, j :: 0 <= i < j < |xs| ==> !(OwnActive(xs[i]) && OwnActive(xs[j]))
  }

  ghost predicate OnePerBranch(xs: seq<Session>) {
    forall i, j :: 0 <= i < j < |xs| && OwnActive(xs[i]) && OwnActive(xs[j]) ==> xs[i].branch != xs[j].branch
  }

  /** An unbound conversation's own active session on another branch than the current one. */
  ghost predicate Stray(s: Store) {
    s.binding.None? && exists i :: 0 <= i < |s.sessions| && OwnActive(s.sessions[i]) && s.sessions[i].branch != s.branch
  }

  /**
   What a path may rely on. `single`: the conversation never resumed a predecessor. `read`: the branch that
   was current when the one command of the path opened the project.
   */
  datatype Mode = Mode(single: bool, read: Option<nat>)

  const FREE := Mode(false, None)
  const SINGLE := Mode(true, None)

  ghost predicate Bound(s: Store) {
    s.binding.Some? ==>
      var b := s.binding.value;
      && b.session < |s.sessions| && s.sessions[b.session].work.Some?
      && (b.checkpoint.Some? ==> b.checkpoint.value < |s.checkpoints| && s.checkpoints[b.checkpoint.value].session == b.session)
  }

  /** No key has two checkpoints, and keyed checkpoints belong to the bound session. */
  ghost predicate OncePerKey(s: Store) {
    && (forall i, j :: 0 <= i < j < |s.checkpoints| && s.checkpoints[i].key.Some? ==> s.checkpoints[i].key != s.checkpoints[j].key)
    && (forall i :: 0 <= i < |s.checkpoints| && s.checkpoints[i].key.Some? ==>
          s.binding.Some? && s.checkpoints[i].session == s.binding.value.session)
  }

  ghost predicate Inv(s: Store, m: Mode) {
    && Bound(s) && OncePerKey(s)
    && (forall k <- s.deliveries :: Has(s, k))
    && (m.single ==> OnePerBranch(s.sessions))
  }

  /** Nothing recorded is lost, the conversation's session never changes, and once it has one it opens no other. */
  ghost predicate Grows(s: Store, s': Store) {
    && s.revision <= s'.revision && s.checkpoints <= s'.checkpoints && s.deliveries <= s'.deliveries
    && |s.sessions| <= |s'.sessions|
    && (forall i :: 0 <= i < |s.sessions| ==>
          s'.sessions[i].work == s.sessions[i].work && s'.sessions[i].own == s.sessions[i].own
          && s'.sessions[i].branch == s.sessions[i].branch
          && (s'.sessions[i].active ==> s.sessions[i].active))
    && (s.binding.Some? ==> s'.binding.Some? && s'.binding.value.session == s.binding.value.session)
    && (s.binding.Some? ==> forall i :: |s.sessions| <= i < |s'.sessions| ==> !s'.sessions[i].own)
  }

  /** Binding opens no session, and a new session of the conversation is on the branch that was read. */
  ghost predicate Next(s: Store, s': Store, m: Mode) {
    && Grows(s, s')
    && (s.binding.None? && s'.binding.Some? ==> s'.sessions == s.sessions)
    && (m.read.Some? ==> forall i :: |s.sessions| <= i < |s'.sessions| && s'.sessions[i].own ==> s'.sessions[i].branch == m.read.value)
  }

  ghost predicate Path(s: Store, t: seq<Store>, m: Mode)
    decreases |t|
  {
    t != [] ==> Inv(t[0], m) && Next(s, t[0], m) && Path(t[0], t[1..], m)
  }

  ghost predicate Sound(s: Store, e: Effect, m: Mode) {
    Path(s, e.states, m) && e.store == LastOf(s, e.states) && Inv(e.store, m)
  }

  lemma {:induction false} PathConcat(s: Store, t: seq<Store>, u: seq<Store>, m: Mode)
    ensures Path(s, t + u, m) <==> Path(s, t, m) && Path(LastOf(s, t), u, m)
    decreases |t|
  {
    if t == [] {
      assert t + u == u;
    } else {
      assert (t + u)[0] == t[0] && (t + u)[1..] == t[1..] + u;
      PathConcat(t[0], t[1..], u, m);
    }
  }

  lemma Chain(s: Store, first: Effect, second: Effect, m: Mode)
    requires Sound(s, first, m) && Sound(first.store, second, m)
    ensures Sound(s, Effect(first.states + second.states, second.store, second.ok), m)
  {
    PathConcat(s, first.states, second.states, m);
  }

  lemma HasGrows(s: Store, s': Store, key: Key)
    requires Has(s, key) && s.checkpoints <= s'.checkpoints
    ensures Has(s', key)
  {
    var c :| 0 <= c < |s.checkpoints| && s.checkpoints[c].key == Some(key);
    assert s'.checkpoints[c] == s.checkpoints[c];
  }

  /** The key a delivery's binding names has its checkpoint. */
  ghost predicate Named(s: Store, b: Binding, delivery: bool) {
    delivery && b.key.Some? ==> Has(s, b.key.value)
  }

  predicate NoOwn(s: Store, branch: nat) {
    FirstOwn(s.sessions, branch, 0) == |s.sessions|
  }

  lemma MeanwhileKeeps(s: Store, g: Gap, m: Mode)
    requires Inv(s, m)
    ensures Inv(Meanwhile(s, g), m) && Next(s, Meanwhile(s, g), m)
    ensures Meanwhile(s, g).binding == s.binding && Meanwhile(s, g).deliveries == s.deliveries
    ensures forall k :: Has(Meanwhile(s, g), k) <==> Has(s, k)
  {
    var s' := Meanwhile(s, g);
    forall k
      ensures Has(s', k) <==> Has(s, k)
    {
      if Has(s, k) {
        HasGrows(s, s', k);
      }
    }
  }

  lemma AddCheckpointKeeps(s: Store, key: Key, m: Mode)
    requires Inv(s, m) && s.binding.Some? && !Has(s, key)
    ensures var s' := s.(revision := s.revision + 1, checkpoints := s.checkpoints + [Checkpoint(s.binding.value.session, Some(key))]);
      Inv(s', m) && Next(s, s', m)
  {
    var s' := s.(revision := s.revision + 1, checkpoints := s.checkpoints + [Checkpoint(s.binding.value.session, Some(key))]);
    forall k | k in s'.deliveries
      ensures Has(s', k)
    {
      HasGrows(s, s', k);
    }
  }

  lemma WaitSound(s: Store, g: Gap, m: Mode, ok: bool)
    requires Inv(s, m)
    ensures Sound(s, Effect([Meanwhile(s, g)], Meanwhile(s, g), ok), m)
  {
    MeanwhileKeeps(s, g, m);
  }

  lemma WaitTwiceSound(s: Store, g: Gap, h: Gap, m: Mode, ok: bool)
    requires Inv(s, m)
    ensures var s1 := Meanwhile(s, g);
      Sound(s, Effect([s1, Meanwhile(s1, h)], Meanwhile(s1, h), ok), m)
  {
    var s1 := Meanwhile(s, g);
    WaitSound(s, g, m, ok);
    WaitSound(s1, h, m, ok);
    Chain(s, Effect([s1], s1, ok), Effect([Meanwhile(s1, h)], Meanwhile(s1, h), ok), m);
    assert [s1] + [Meanwhile(s1, h)] == [s1, Meanwhile(s1, h)];
  }

  lemma SavableKept(s: Store, g: Gap, b: Binding, m: Mode)
    requires Inv(s, m) && Savable(s, b)
    ensures Savable(Meanwhile(s, g), b)
  {
  }

  /** Two reads later a savable binding is still savable, and so is what it refers to. */
  lemma StillSavable(s: Store, g: Gap, h: Gap, b: Binding, m: Mode)
    requires Inv(s, m) && Savable(s, b)
    ensures var s2 := Meanwhile(Meanwhile(s, g), h);
      && Inv(s2, m) && Savable(s2, b) && s2.binding == s.binding && s2.deliveries == s.deliveries
      && forall k :: Has(s2, k) <==> Has(s, k)
  {
    MeanwhileKeeps(s, g, m);
    SavableKept(s, g, b, m);
    MeanwhileKeeps(Meanwhile(s, g), h, m);
    SavableKept(Meanwhile(s, g), h, b, m);
  }

  lemma {:induction false} SavesSound(s: Store, b: Binding, delivery: bool, gaps: seq<Gap>, i: nat, n: nat, m: Mode)
    requires Inv(s, m) && Savable(s, b)
    requires Named(s, b, delivery)
    ensures Sound(s, Saves(s, b, delivery, gaps, i, n), m)
    decreases n
  {
    if n > 0 {
      var s1 := Meanwhile(s, At(gaps, i));
      var s2 := Meanwhile(s1, At(gaps, i + 1));
      var both := Effect([s1, s2], s2, true);
      WaitTwiceSound(s, At(gaps, i), At(gaps, i + 1), m, true);
      StillSavable(s, At(gaps, i), At(gaps, i + 1), b, m);
      if s2.revision != s1.revision {
        SavesSound(s2, b, delivery, gaps, i + 2, n - 1, m);
        Chain(s, both, Saves(s2, b, delivery, gaps, i + 2, n - 1), m);
      } else {
        CommitSound(s2, b, delivery, m);
        Chain(s, both, Effect([Stored(s2, b, delivery)], Stored(s2, b, delivery), true), m);
        assert both.states + [Stored(s2, b, delivery)] == [s1, s2, Stored(s2, b, delivery)];
      }
    }
  }

  lemma CommitSound(s: Store, b: Binding, delivery: bool, m: Mode)
    requires Inv(s, m) && Savable(s, b)
    requires Named(s, b, delivery)
    ensures Sound(s, Effect([Stored(s, b, delivery)], Stored(s, b, delivery), true), m)
  {
  }

  /** A binding is saved exactly when one of the attempts meets no commit between its read and its write. */
  lemma {:induction false} SavesWhenQuiet(s: Store, b: Binding, delivery: bool, gaps: seq<Gap>, i: nat, n: nat, m: Mode)
    requires Inv(s, m) && Savable(s, b)
    ensures Saves(s, b, delivery, gaps, i, n).ok <==> exists k :: 0 <= k < n && At(gaps, i + 2 * k + 1).commits == 0
    decreases n
  {
    if n > 0 {
      var s1 := Meanwhile(s, At(gaps, i));
      var s2 := Meanwhile(s1, At(gaps, i + 1));
      StillSavable(s, At(gaps, i), At(gaps, i + 1), b, m);
      if s2.revision != s1.revision {
        SavesWhenQuiet(s2, b, delivery, gaps, i + 2, n - 1, m);
        Shifted(gaps, i, n);
      } else {
        assert At(gaps, i + 2 * 0 + 1).commits == 0;
      }
    }
  }

  /** It is stored once, as it is, with the revision of its own commit; a failed save leaves binding and deliveries alone. */
  lemma {:induction false} SavesOnce(s: Store, b: Binding, delivery: bool, gaps: seq<Gap>, i: nat, n: nat, m: Mode)
    requires Inv(s, m) && Savable(s, b)
    ensures var e := Saves(s, b, delivery, gaps, i, n);
      && e.store.binding == (if e.ok then Some(b.(revision := e.store.revision)) else s.binding)
      && e.store.deliveries == s.deliveries + (if e.ok && delivery && s.binding.Some? && b.key.Some? then {b.key.value} else {})
    decreases n
  {
    if n > 0 {
      var s1 := Meanwhile(s, At(gaps, i));
      var s2 := Meanwhile(s1, At(gaps, i + 1));
      StillSavable(s, At(gaps, i), At(gaps, i + 1), b, m);
      if s2.revision != s1.revision {
        SavesOnce(s2, b, delivery, gaps, i + 2, n - 1, m);
      }
    }
  }

  /** Attempt `k` of the rest is attempt `k + 1` of the whole. */
  lemma Shifted(gaps: seq<Gap>, i: nat, n: nat)
    requires n > 0 && At(gaps, i + 1).commits != 0
    ensures (exists k :: 0 <= k < n - 1 && At(gaps, i + 2 + 2 * k + 1).commits == 0)
       <==> (exists k :: 0 <= k < n && At(gaps, i + 2 * k + 1).commits == 0)
  {
    if exists k :: 0 <= k < n - 1 && At(gaps, i + 2 + 2 * k + 1).commits == 0 {
      var k :| 0 <= k < n - 1 && At(gaps, i + 2 + 2 * k + 1).commits == 0;
      assert At(gaps, i + 2 * (k + 1) + 1).commits == 0;
    }
    if exists k :: 0 <= k < n && At(gaps, i + 2 * k + 1).commits == 0 {
      var k :| 0 <= k < n && At(gaps, i + 2 * k + 1).commits == 0;
      assert k > 0 && At(gaps, i + 2 + 2 * (k - 1) + 1).commits == 0;
    }
  }

  // ---------------------------------------------------------------- every command is sound

  lemma NoOwnKept(s: Store, g: Gap, branch: nat)
    requires NoOwn(s, branch)
    ensures NoOwn(Meanwhile(s, g), branch)
  {
  }

  /** A session may be opened where the conversation has none active. */
  ghost predicate MayOpen(s: Store, branch: Option<nat>, m: Mode) {
    m.single || m.read.Some? ==> branch.Some? && NoOwn(s, branch.value) && (m.read.Some? ==> branch == m.read)
  }

  lemma StartSound(s: Store, branch: Option<nat>, work: nat, gaps: seq<Gap>, m: Mode)
    requires Inv(s, m) && s.binding.None? && MayOpen(s, branch, m)
    ensures var e := Start(s, branch, work, gaps);
      && Sound(s, e, m) && e.store.binding == s.binding
      && (e.ok ==> |e.store.sessions| > 0 && Get(e.store.sessions, |e.store.sessions| - 1).work == Some(work))
  {
    var s1 := Meanwhile(s, At(gaps, 3));
    var s2 := Meanwhile(s1, At(gaps, 4));
    WaitTwiceSound(s, At(gaps, 3), At(gaps, 4), m, true);
    if branch.Some? && NoOwn(s, branch.value) {
      NoOwnKept(s, At(gaps, 3), branch.value);
      NoOwnKept(s1, At(gaps, 4), branch.value);
    }
    var on := if branch.Some? then branch.value else s1.branch;
    var s3 := WithSession(s2, on, work);
    OpenKeeps(s2, on, work, m);
    Chain(s, Effect([s1, s2], s2, true), Effect([s3], s3, true), m);
    assert [s1, s2] + [s3] == [s1, s2, s3];
  }

  lemma OpenKeeps(s: Store, branch: nat, work: nat, m: Mode)
    requires Inv(s, m) && s.binding.None? && (m.single ==> NoOwn(s, branch)) && (m.read.Some? ==> branch == m.read.value)
    ensures Inv(WithSession(s, branch, work), m) && Next(s, WithSession(s, branch, work), m)
  {
    var s' := WithSession(s, branch, work);
    forall k | k in s'.deliveries
      ensures Has(s', k)
    {
      HasGrows(s, s', k);
    }
  }

  lemma PickSound(s: Store, branch: nat, choice: Choice, work: nat, gaps: seq<Gap>, m: Mode)
    requires Inv(s, m) && s.binding.None? && Permitted(branch, choice, m)
    ensures var p := Pick(s, branch, choice, work, gaps);
      && Sound(s, p.effect, m) && p.effect.store.binding.None?
      && (p.effect.ok ==> p.session < |p.effect.store.sessions| && Get(p.effect.store.sessions, p.session).work == Some(work))
  {
    var s1 := Meanwhile(s, At(gaps, 2));
    WaitSound(s, At(gaps, 2), m, Pick(s, branch, choice, work, gaps).effect.ok);
    var on := if choice.Resumed? then None else Some(branch);
    if choice.Resumed? || (choice.Orphan? && NoOwn(s1, branch)) {
      StartSound(s1, on, work, gaps, m);
      Chain(s, Effect([s1], s1, Pick(s, branch, choice, work, gaps).effect.ok), Start(s1, on, work, gaps), m);
    }
  }

  /** What a path relies on is so of a command with this choice, on the branch it read. */
  predicate Permitted(branch: nat, choice: Choice, m: Mode) {
    && (m.single || m.read.Some? ==> !choice.Resumed?)
    && (m.read.Some? ==> m.read.value == branch)
  }

  lemma FirstBindingSound(s: Store, branch: nat, choice: Choice, work: nat, compiled: bool, gaps: seq<Gap>, m: Mode)
    requires Inv(s, m) && s.binding.None? && Permitted(branch, choice, m)
    ensures Sound(s, FirstBinding(s, branch, choice, work, compiled, gaps), m)
  {
    PickSound(s, branch, choice, work, gaps, m);
    var p := Pick(s, branch, choice, work, gaps);
    if p.effect.ok && compiled {
      var b := Binding(p.session, 0, 0, None, None);
      SavesSound(p.effect.store, b, false, gaps, 5, ATTEMPTS, m);
      Chain(s, p.effect, Saves(p.effect.store, b, false, gaps, 5, ATTEMPTS), m);
    }
  }

  lemma AttachSound(s: Store, branch: nat, choice: Choice, work: nat, compiled: bool, gaps: seq<Gap>, m: Mode)
    requires Inv(s, m) && Permitted(branch, choice, m)
    ensures Sound(s, Attach(s, branch, choice, work, compiled, gaps), m)
  {
    var s0 := Meanwhile(s, At(gaps, 1));
    WaitSound(s, At(gaps, 1), m, Attach(s, branch, choice, work, compiled, gaps).ok);
    if s0.binding.None? {
      FirstBindingSound(s0, branch, choice, work, compiled, gaps, m);
      Chain(s, Effect([s0], s0, true), FirstBinding(s0, branch, choice, work, compiled, gaps), m);
    }
  }

  lemma NewBindingSound(s: Store, choice: Choice, work: nat, compiled: bool, gaps: seq<Gap>, m: Mode)
    requires Inv(s, m) && Permitted(Meanwhile(s, At(gaps, 0)).branch, choice, m)
    ensures Sound(s, NewBinding(s, choice, work, compiled, gaps), m)
  {
    var entry := Meanwhile(s, At(gaps, 0));
    WaitSound(s, At(gaps, 0), m, true);
    AttachSound(entry, entry.branch, choice, work, compiled, gaps, m);
    Chain(s, Effect([entry], entry, true), Attach(entry, entry.branch, choice, work, compiled, gaps), m);
  }

  /** In a store kept so far, looking a key up in the bound session finds it if it is anywhere. */
  lemma FindComplete(s: Store, key: Key, m: Mode)
    requires Inv(s, m) && s.binding.Some?
    ensures Has(s, key) <==> Find(s.checkpoints, s.binding.value.session, key) < |s.checkpoints|
  {
    if Has(s, key) {
      var c :| 0 <= c < |s.checkpoints| && s.checkpoints[c].key == Some(key);
      assert s.checkpoints[c] == Checkpoint(s.binding.value.session, Some(key));
    }
  }

  lemma CheckpointedSound(s: Store, key: Key, gaps: seq<Gap>, m: Mode)
    requires Inv(s, m) && s.binding.Some? && !Has(s, key)
    ensures var e := Checkpointed(s, s.binding.value.session, key, gaps);
      && Sound(s, e, m) && e.store.binding == s.binding
      && (e.ok ==> LastOf(Checkpoint(0, None), e.store.checkpoints) == Checkpoint(s.binding.value.session, Some(key)))
  {
    var session := s.binding.value.session;
    var e := Checkpointed(s, session, key, gaps);
    var s1 := Meanwhile(s, At(gaps, 22));
    var s2 := Meanwhile(s1, At(gaps, 23));
    WaitTwiceSound(s, At(gaps, 22), At(gaps, 23), m, true);
    MeanwhileKeeps(s, At(gaps, 22), m);
    MeanwhileKeeps(s1, At(gaps, 23), m);
    if s2.revision == s1.revision && Get(s2.sessions, session).active {
      CompletedSound(s2, key, gaps, m);
      var rest := Completion(s2, session, key, gaps);
      Chain(s, Effect([s1, s2], s2, true), rest, m);
      assert e.states == [s1, s2] + rest.states;
    }
  }

  lemma ReceiptKeeps(s: Store, m: Mode)
    requires Inv(s, m)
    ensures var s' := s.(revision := s.revision + 1);
      Inv(s', m) && Next(s, s', m) && forall k :: Has(s', k) <==> Has(s, k)
  {
  }

  lemma KeyedSound(s: Store, key: Key, m: Mode)
    requires Inv(s, m) && s.binding.Some? && !Has(s, key)
    ensures var s' := s.(revision := s.revision + 1, checkpoints := s.checkpoints + [Checkpoint(s.binding.value.session, Some(key))]);
      Sound(s, Effect([s'], s', true), m)
  {
    AddCheckpointKeeps(s, key, m);
  }

  lemma ReceiptSound(s: Store, g: Gap, m: Mode)
    requires Inv(s, m)
    ensures var s1 := s.(revision := s.revision + 1);
      var s2 := Meanwhile(s1, g);
      && Sound(s, Effect([s1, s2], s2, true), m) && s2.binding == s.binding
      && forall k :: Has(s2, k) <==> Has(s, k)
  {
    var s1 := s.(revision := s.revision + 1);
    var s2 := Meanwhile(s1, g);
    ReceiptKeeps(s, m);
    WaitSound(s1, g, m, true);
    MeanwhileKeeps(s1, g, m);
    Chain(s, Effect([s1], s1, true), Effect([s2], s2, true), m);
    assert [s1] + [s2] == [s1, s2];
  }

  lemma ThenKeyedSound(s: Store, first: Effect, key: Key, m: Mode)
    requires Sound(s, first, m) && first.store.binding.Some? && !Has(first.store, key)
    ensures var t := first.store;
      var s' := t.(revision := t.revision + 1, checkpoints := t.checkpoints + [Checkpoint(t.binding.value.session, Some(key))]);
      Sound(s, Effect(first.states + [s'], s', true), m)
  {
    var t := first.store;
    var s' := t.(revision := t.revision + 1, checkpoints := t.checkpoints + [Checkpoint(t.binding.value.session, Some(key))]);
    KeyedSound(t, key, m);
    Chain(s, first, Effect([s'], s', true), m);
  }

  lemma CompletedSound(s: Store, key: Key, gaps: seq<Gap>, m: Mode)
    requires Inv(s, m) && s.binding.Some? && !Has(s, key)
    ensures Sound(s, Completion(s, s.binding.value.session, key, gaps), m)
  {
    var s1 := s.(revision := s.revision + 1);
    var s2 := Meanwhile(s1, At(gaps, 24));
    ReceiptSound(s, At(gaps, 24), m);
    if s2.revision == s1.revision {
      ThenKeyedSound(s, Effect([s1, s2], s2, true), key, m);
      assert [s1, s2] + [Completion(s, s.binding.value.session, key, gaps).store]
        == Completion(s, s.binding.value.session, key, gaps).states;
    }
  }

  /** A delivery that succeeds leaves its key delivered. */
  lemma RecordSound(s: Store, notice: Notice, gaps: seq<Gap>, m: Mode)
    requires Inv(s, m) && s.binding.Some?
    ensures var e := Record(s, s.binding.value, notice, gaps);
      && Sound(s, e, m)
      && (e.ok ==> KeyOf(Meanwhile(s, At(gaps, 21)), s.binding.value, notice) in e.store.deliveries)
  {
    var b := s.binding.value;
    var s1 := Meanwhile(s, At(gaps, 21));
    var key := KeyOf(s1, b, notice);
    WaitSound(s, At(gaps, 21), m, true);
    MeanwhileKeeps(s, At(gaps, 21), m);
    if key !in s1.deliveries {
      FindComplete(s1, key, m);
      if Has(s1, key) {
        var b' := b.(key := Some(key), checkpoint := Some(Find(s1.checkpoints, b.session, key)));
        SavesSound(s1, b', true, gaps, 25, ATTEMPTS, m);
        SavesOnce(s1, b', true, gaps, 25, ATTEMPTS, m);
        Chain(s, Effect([s1], s1, true), Saves(s1, b', true, gaps, 25, ATTEMPTS), m);
      } else {
        NewCheckpointSound(s1, key, gaps, m);
        Chain(s, Effect([s1], s1, true), NewCheckpoint(s1, b, key, gaps), m);
      }
    }
  }

  lemma NewCheckpointSound(s: Store, key: Key, gaps: seq<Gap>, m: Mode)
    requires Inv(s, m) && s.binding.Some? && !Has(s, key)
    ensures var e := NewCheckpoint(s, s.binding.value, key, gaps);
      Sound(s, e, m) && (e.ok ==> key in e.store.deliveries)
  {
    CheckpointedSound(s, key, gaps, m);
    var c := Checkpointed(s, s.binding.value.session, key, gaps);
    if c.ok {
      ThenNamedSound(s, c, s.binding.value, key, gaps, m);
    }
  }

  lemma ThenNamedSound(s: Store, c: Effect, b: Binding, key: Key, gaps: seq<Gap>, m: Mode)
    requires Sound(s, c, m) && c.store.binding == Some(b) && |c.store.checkpoints| > 0
    requires c.store.checkpoints[|c.store.checkpoints| - 1] == Checkpoint(b.session, Some(key))
    ensures var e := Saves(c.store, b.(key := Some(key), checkpoint := Some(|c.store.checkpoints| - 1)), true, gaps, 25, ATTEMPTS);
      Sound(s, Effect(c.states + e.states, e.store, e.ok), m) && (e.ok ==> key in e.store.deliveries)
  {
    NamedSound(c.store, b, key, gaps, m);
    var b' := b.(key := Some(key), checkpoint := Some(|c.store.checkpoints| - 1));
    Chain(s, c, Saves(c.store, b', true, gaps, 25, ATTEMPTS), m);
  }

  /** Saving the binding that names the checkpoint just made. */
  lemma NamedSound(s: Store, b: Binding, key: Key, gaps: seq<Gap>, m: Mode)
    requires Inv(s, m) && s.binding == Some(b) && |s.checkpoints| > 0
    requires s.checkpoints[|s.checkpoints| - 1] == Checkpoint(b.session, Some(key))
    ensures var e := Saves(s, b.(key := Some(key), checkpoint := Some(|s.checkpoints| - 1)), true, gaps, 25, ATTEMPTS);
      Sound(s, e, m) && (e.ok ==> key in e.store.deliveries)
  {
    var b' := b.(key := Some(key), checkpoint := Some(|s.checkpoints| - 1));
    assert Has(s, key);
    SavesSound(s, b', true, gaps, 25, ATTEMPTS, m);
    SavesOnce(s, b', true, gaps, 25, ATTEMPTS, m);
  }

  function ChoiceOf(c: Command): Choice {
    if c.Bind? then c.choice else Orphan
  }

  lemma ExecuteSound(s: Store, c: Command, gaps: seq<Gap>, m: Mode)
    requires Inv(s, m) && Permitted(Meanwhile(s, At(gaps, 0)).branch, ChoiceOf(c), m)
    ensures Sound(s, Execute(s, c, gaps), m)
  {
    match c
    case Bind(choice, work, compiled) =>
      NewBindingSound(s, choice, work, compiled, gaps, m);
      var e := NewBinding(s, choice, work, compiled, gaps);
      if e.ok {
        SavesSound(e.store, e.store.binding.value, false, gaps, 25, ATTEMPTS, m);
        Chain(s, e, Saves(e.store, e.store.binding.value, false, gaps, 25, ATTEMPTS), m);
      }
    case Progress =>
      var s0 := Meanwhile(s, At(gaps, 0));
      WaitSound(s, At(gaps, 0), m, Execute(s, c, gaps).ok);
      if s0.binding.Some? {
        var b := s0.binding.value.(progress := s0.revision);
        SavesSound(s0, b, false, gaps, 25, ATTEMPTS, m);
        Chain(s, Effect([s0], s0, Execute(s, c, gaps).ok), Saves(s0, b, false, gaps, 25, ATTEMPTS), m);
      }
    case Deliver(notice, work, compiled) =>
      NewBindingSound(s, Orphan, work, compiled, gaps, m);
      var e := NewBinding(s, Orphan, work, compiled, gaps);
      if e.ok {
        RecordSound(e.store, notice, gaps, m);
        Chain(s, e, Record(e.store, e.store.binding.value, notice, gaps), m);
      }
  }

  // ---------------------------------------------------------------- runs

  /** One command, killed after `cut` of the stores it sees or makes. */
  datatype Call = Call(command: Command, gaps: seq<Gap>, cut: nat)

  function Trace(s: Store, calls: seq<Call>): seq<Store>
    decreases |calls|
  {
    if calls == [] then []
    else
      var kept := Cut(Execute(s, calls[0].command, calls[0].gaps).states, calls[0].cut);
      kept + Trace(LastOf(s, kept), calls[1..])
  }

  ghost predicate NeverResumed(calls: seq<Call>) {
    forall c <- calls :: !(c.command.Bind? && c.command.choice.Resumed?)
  }

  lemma {:induction false} PathPrefix(s: Store, t: seq<Store>, n: nat, m: Mode)
    requires Inv(s, m) && Path(s, t, m) && n <= |t|
    ensures Path(s, t[..n], m) && Inv(LastOf(s, t[..n]), m)
  {
    assert t == t[..n] + t[n..];
    PathConcat(s, t[..n], t[n..], m);
    PathEnd(s, t[..n], m);
  }

  lemma {:induction false} PathEnd(s: Store, t: seq<Store>, m: Mode)
    requires Inv(s, m) && Path(s, t, m)
    ensures Inv(LastOf(s, t), m) && Grows(s, LastOf(s, t))
    decreases |t|
  {
    if t != [] {
      PathEnd(t[0], t[1..], m);
    }
  }

  lemma {:induction false} RunSound(s: Store, calls: seq<Call>, m: Mode)
    requires Inv(s, m) && m.read.None? && (m.single ==> NeverResumed(calls))
    ensures Path(s, Trace(s, calls), m)
    decreases |calls|
  {
    if calls != [] {
      var e := Execute(s, calls[0].command, calls[0].gaps);
      var kept := Cut(e.states, calls[0].cut);
      ExecuteSound(s, calls[0].command, calls[0].gaps, m);
      PathPrefix(s, e.states, |kept|, m);
      RunSound(LastOf(s, kept), calls[1..], m);
      PathConcat(s, kept, Trace(LastOf(s, kept), calls[1..]), m);
    }
  }

  lemma {:induction false} PathBetween(s: Store, t: seq<Store>, h: nat, i: nat, m: Mode)
    requires Inv(s, m) && Path(s, t, m) && h <= i < |t|
    ensures Inv(t[i], m) && Grows(t[h], t[i])
    decreases |t|
  {
    if h == 0 {
      assert t[1..][..i] == t[1..i + 1];
      PathPrefix(t[0], t[1..], i, m);
      PathEnd(t[0], t[1..][..i], m);
    } else {
      PathBetween(t[0], t[1..], h - 1, i - 1, m);
    }
  }

  /** A project in which this conversation has not appeared yet. */
  predicate Unseen(s: Store) {
    && s.binding.None? && s.deliveries == {}
    && (forall c <- s.checkpoints :: c.key.None?) && (forall x <- s.sessions :: !x.own)
  }

  ghost predicate ExactlyOne(s: Store, key: Key) {
    exists c :: 0 <= c < |s.checkpoints| && s.checkpoints[c].key == Some(key)
      && forall d :: 0 <= d < |s.checkpoints| && s.checkpoints[d].key == Some(key) ==> d == c
  }

  /**
   Whatever commands were run, interrupted and interfered with: in every store no key has two
   checkpoints, a delivered key has exactly one, and both stay so; the session never changes.
   */
  lemma CheckpointOncePerKey(s: Store, calls: seq<Call>, h: nat, i: nat, key: Key)
    requires Unseen(s) && h <= i < |Trace(s, calls)|
    ensures var t := Trace(s, calls);
      && (Has(t[i], key) ==> ExactlyOne(t[i], key))
      && (key in t[h].deliveries ==> key in t[i].deliveries && ExactlyOne(t[i], key))
      && t[h].checkpoints <= t[i].checkpoints
      && (t[h].binding.Some? ==> t[i].binding.Some? && t[i].binding.value.session == t[h].binding.value.session)
  {
    var t := Trace(s, calls);
    RunSound(s, calls, FREE);
    PathBetween(s, t, h, i, FREE);
    if Has(t[i], key) {
      var c :| 0 <= c < |t[i].checkpoints| && t[i].checkpoints[c].key == Some(key);
      assert forall d :: 0 <= d < |t[i].checkpoints| && t[i].checkpoints[d].key == Some(key) ==> d == c;
    }
  }

  /** Without resuming a predecessor the conversation never has two active sessions of its own on one branch. */
  lemma OneSessionPerBranch(s: Store, calls: seq<Call>, i: nat)
    requires Unseen(s) && NeverResumed(calls) && i < |Trace(s, calls)|
    ensures OnePerBranch(Trace(s, calls)[i].sessions)
  {
    RunSound(s, calls, SINGLE);
    PathBetween(s, Trace(s, calls), i, i, SINGLE);
  }

  lemma {:induction false} PathOne(s: Store, t: seq<Store>, i: nat)
    requires Inv(s, SINGLE) && Path(s, t, SINGLE) && OneOwn(s.sessions) && i < |t|
    requires forall h :: 0 <= h <= i ==> !Stray(t[h])
    ensures OneOwn(t[i].sessions)
    decreases |t|
  {
    NextOne(s, t[0]);
    if i > 0 {
      forall h | 0 <= h <= i - 1
        ensures !Stray(t[1..][h])
      {
        assert t[1..][h] == t[h + 1];
      }
      PathOne(t[0], t[1..], i - 1);
    }
  }

  lemma NextOne(s: Store, s': Store)
    requires Inv(s', SINGLE) && Next(s, s', SINGLE) && OneOwn(s.sessions) && !Stray(s')
    ensures OneOwn(s'.sessions)
  {
    if s'.binding.Some? {
      assert forall i :: 0 <= i < |s'.sessions| && OwnActive(s'.sessions[i]) ==> i < |s.sessions| && OwnActive(s.sessions[i]);
    } else {
      assert forall i :: 0 <= i < |s'.sessions| && OwnActive(s'.sessions[i]) ==> s'.sessions[i].branch == s'.branch;
    }
  }

  /** As long as no store is stray the conversation never has two active sessions of its own, on any branches. */
  lemma OneSessionUnlessStray(s: Store, calls: seq<Call>, i: nat)
    requires Unseen(s) && NeverResumed(calls) && i < |Trace(s, calls)|
    requires forall h :: 0 <= h <= i ==> !Stray(Trace(s, calls)[h])
    ensures OneOwn(Trace(s, calls)[i].sessions)
  {
    RunSound(s, calls, SINGLE);
    PathOne(s, Trace(s, calls), i);
  }

  /** From a store with at most one, the next undisturbed hook opens a second session if and only if the store is stray. */
  lemma SecondSessionIff(s: Store, notice: Notice, work: nat, compiled: bool)
    requires Inv(s, SINGLE) && OneOwn(s.sessions)
    ensures !OneOwn(Execute(s, Deliver(notice, work, compiled), []).store.sessions) <==> Stray(s)
  {
    QuietExecute(s, notice, work, compiled);
    if s.binding.None? && NoOwn(s, s.branch) {
      var s3 := WithSession(s, s.branch, work);
      if Stray(s) {
        var i :| 0 <= i < |s.sessions| && OwnActive(s.sessions[i]);
        assert OwnActive(s3.sessions[i]) && OwnActive(s3.sessions[|s.sessions|]);
      } else {
        assert forall i :: 0 <= i < |s.sessions| ==> !OwnActive(s.sessions[i]);
      }
    }
  }

  lemma QuietSavesSessions(s: Store, b: Binding, delivery: bool, i: nat)
    ensures Saves(s, b, delivery, [], i, ATTEMPTS).store.sessions == s.sessions
  {
  }

  lemma QuietRecordSessions(s: Store, b: Binding, notice: Notice)
    ensures Record(s, b, notice, []).store.sessions == s.sessions
  {
    var key := KeyOf(s, b, notice);
    var found := Find(s.checkpoints, b.session, key);
    if found < |s.checkpoints| {
      QuietSavesSessions(s, b.(key := Some(key), checkpoint := Some(found)), true, 25);
    } else {
      var c := Checkpointed(s, b.session, key, []);
      if c.ok {
        QuietSavesSessions(c.store, b.(key := Some(key), checkpoint := Some(|c.store.checkpoints| - 1)), true, 25);
      }
    }
  }

  /** The sessions an undisturbed delivery leaves. */
  lemma QuietExecute(s: Store, notice: Notice, work: nat, compiled: bool)
    ensures var sessions := Execute(s, Deliver(notice, work, compiled), []).store.sessions;
      sessions == if s.binding.None? && NoOwn(s, s.branch) then WithSession(s, s.branch, work).sessions else s.sessions
  {
    var e := NewBinding(s, Orphan, work, compiled, []);
    var p := Pick(s, s.branch, Orphan, work, []);
    QuietSavesSessions(p.effect.store, Binding(p.session, 0, 0, None, None), false, 5);
    if e.ok {
      QuietRecordSessions(e.store, e.store.binding.value, notice);
    }
  }

  ghost predicate AnyOwn(s: Store) {
    exists i :: 0 <= i < |s.sessions| && OwnActive(s.sessions[i])
  }

  /**
   The stores of one command of an unbound conversation: while it has an active session the current
   branch is the one read when the command opened the project, as it was when the session was left behind.
   */
  ghost predicate Unswitched(s: Store, t: seq<Store>) {
    s.binding.None? && t != [] ==>
      && (AnyOwn(t[0]) ==> t[0].branch == s.branch)
      && forall x <- t :: x.binding.None? && AnyOwn(x) ==> x.branch == t[0].branch
  }

  /** No switch of the branch falls between reading it for a session and saving the session's binding. */
  ghost predicate Steady(s: Store, calls: seq<Call>)
    decreases |calls|
  {
    calls != [] ==>
      var kept := Cut(Execute(s, calls[0].command, calls[0].gaps).states, calls[0].cut);
      Unswitched(s, kept) && Steady(LastOf(s, kept), calls[1..])
  }

  ghost predicate Home(s: Store, branch: nat) {
    s.binding.None? ==> forall i :: 0 <= i < |s.sessions| && OwnActive(s.sessions[i]) ==> s.sessions[i].branch == branch
  }

  lemma {:induction false} PathHome(s: Store, t: seq<Store>, m: Mode, i: nat)
    requires m.read.Some? && Home(s, m.read.value) && Path(s, t, m) && i < |t|
    ensures Home(t[i], m.read.value)
    decreases |t|
  {
    assert Home(t[0], m.read.value);
    if i > 0 {
      PathHome(t[0], t[1..], m, i - 1);
    }
  }

  /** A command keeps a store from being stray if and only if no switch falls in between. */
  lemma CallStraysIff(s: Store, c: Command, gaps: seq<Gap>, cut: nat)
    requires Inv(s, SINGLE) && !Stray(s) && !ChoiceOf(c).Resumed?
    ensures var kept := Cut(Execute(s, c, gaps).states, cut);
      (forall x <- kept :: !Stray(x)) <==> Unswitched(s, kept)
  {
    var e := Execute(s, c, gaps);
    var kept := Cut(e.states, cut);
    if kept != [] && s.binding.None? {
      var first := Meanwhile(s, At(gaps, 0));
      var m := Mode(true, Some(first.branch));
      assert kept[0] == first;
      ExecuteSound(s, c, gaps, m);
      PathPrefix(s, e.states, |kept|, m);
      if !AnyOwn(first) || first.branch == s.branch {
        assert Home(first, first.branch);
        forall i | 0 <= i < |kept|
          ensures Stray(kept[i]) <==> kept[i].binding.None? && AnyOwn(kept[i]) && kept[i].branch != first.branch
        {
          FirstHome(kept, m, i);
        }
      } else {
        assert Stray(first);
      }
    } else if s.binding.Some? {
      AfterBinding(s, c, gaps, cut);
    }
  }

  lemma FirstHome(t: seq<Store>, m: Mode, i: nat)
    requires i < |t| && m.read.Some? && Home(t[0], m.read.value) && Path(t[0], t[1..], m)
    ensures Stray(t[i]) <==> t[i].binding.None? && AnyOwn(t[i]) && t[i].branch != m.read.value
  {
    if i > 0 {
      PathHome(t[0], t[1..], m, i - 1);
    }
  }

  lemma AfterBinding(s: Store, c: Command, gaps: seq<Gap>, cut: nat)
    requires Inv(s, SINGLE) && s.binding.Some? && !ChoiceOf(c).Resumed?
    ensures forall x <- Cut(Execute(s, c, gaps).states, cut) :: !Stray(x)
  {
    var e := Execute(s, c, gaps);
    ExecuteSound(s, c, gaps, SINGLE);
    forall i | 0 <= i < |e.states|
      ensures e.states[i].binding.Some?
    {
      PathPrefix(s, e.states, i + 1, SINGLE);
      PathEnd(s, e.states[..i + 1], SINGLE);
    }
  }

  /** A run has no stray store if and only if no switch falls in between. */
  lemma {:induction false} StraysIff(s: Store, calls: seq<Call>)
    requires Inv(s, SINGLE) && !Stray(s) && NeverResumed(calls)
    ensures (forall x <- Trace(s, calls) :: !Stray(x)) <==> Steady(s, calls)
    decreases |calls|
  {
    if calls != [] {
      var c := calls[0];
      assert c in calls;
      var e := Execute(s, c.command, c.gaps);
      var kept := Cut(e.states, c.cut);
      CallStraysIff(s, c.command, c.gaps, c.cut);
      ExecuteSound(s, c.command, c.gaps, SINGLE);
      PathPrefix(s, e.states, |kept|, SINGLE);
      if !Stray(LastOf(s, kept)) {
        StraysIff(LastOf(s, kept), calls[1..]);
      } else {
        assert LastOf(s, kept) in kept;
      }
      assert forall x :: x in Trace(s, calls) <==> x in kept || x in Trace(LastOf(s, kept), calls[1..]);
    }
  }

  /**
   In a run without resuming, no store has two active sessions of the conversation and none gets two from
   the next hook, if and only if no switch of the branch falls between reading it for a session and saving
   the session's binding.
   */
  lemma NeverASecondSessionIff(s: Store, calls: seq<Call>, notice: Notice, work: nat, compiled: bool)
    requires Unseen(s) && NeverResumed(calls)
    ensures Steady(s, calls) <==>
      forall x <- Trace(s, calls) ::
        OneOwn(x.sessions) && OneOwn(Execute(x, Deliver(notice, work, compiled), []).store.sessions)
  {
    var t := Trace(s, calls);
    RunSound(s, calls, SINGLE);
    StraysIff(s, calls);
    forall i | 0 <= i < |t|
      ensures Inv(t[i], SINGLE)
      ensures OneOwn(t[i].sessions) ==>
        (!OneOwn(Execute(t[i], Deliver(notice, work, compiled), []).store.sessions) <==> Stray(t[i]))
    {
      PathBetween(s, t, i, i, SINGLE);
      if OneOwn(t[i].sessions) {
        SecondSessionIff(t[i], notice, work, compiled);
      }
    }
    if Steady(s, calls) {
      forall i | 0 <= i < |t|
        ensures OneOwn(t[i].sessions)
      {
        OneSessionUnlessStray(s, calls, i);
      }
    }
  }

  /** One hook killed after opening its session, a switch of the branch, and another hook. */
  function SwitchedAway(notice: Notice, work: nat): seq<Call> {
    var switch := Gap(1, 0, Some(1), {}, map[], [], []);
    [Call(Deliver(notice, work, true), [], 6), Call(Deliver(notice, work, true), [switch], 6)]
  }

  /** A hook that meets others' commits only before opening the project opens its session with its fifth store. */
  lemma FirstStores(s: Store, notice: Notice, work: nat, gaps: seq<Gap>)
    requires |gaps| <= 1 && s.binding.None? && NoOwn(Meanwhile(s, At(gaps, 0)), Meanwhile(s, At(gaps, 0)).branch)
    ensures var x := Meanwhile(s, At(gaps, 0));
      Cut(Execute(s, Deliver(notice, work, true), gaps).states, 6) == [x, x, x, x, x, WithSession(x, x.branch, work)]
  {
  }

  lemma TwoCalls(s: Store, a: Call, b: Call)
    ensures var s1 := LastOf(s, Cut(Execute(s, a.command, a.gaps).states, a.cut));
      LastOf(s, Trace(s, [a, b])) == LastOf(s1, Cut(Execute(s1, b.command, b.gaps).states, b.cut))
  {
    var first := Cut(Execute(s, a.command, a.gaps).states, a.cut);
    var s1 := LastOf(s, first);
    var second := Cut(Execute(s1, b.command, b.gaps).states, b.cut);
    assert [a, b][1..] == [b];
    assert Trace(s1, [b]) == second + Trace(LastOf(s1, second), []);
    assert second + [] == second;
  }

  lemma SwitchedAwayOpensTwo(notice: Notice, work: nat)
    ensures var s := Store(0, 0, 0, [], None, [], {});
      var x := LastOf(s, Trace(s, SwitchedAway(notice, work)));
      Unseen(s) && x.sessions == [Session(Some(work), true, true, 0, 1), Session(Some(work), true, true, 1, 3)]
  {
    var s := Store(0, 0, 0, [], None, [], {});
    var calls := SwitchedAway(notice, work);
    var s1 := WithSession(s, 0, work);
    FirstStores(s, notice, work, []);
    FirstStores(s1, notice, work, calls[1].gaps);
    TwoCalls(s, calls[0], calls[1]);
  }

  /** A delivery that reports success has recorded its event under a key, with exactly one checkpoint. */
  lemma DeliveredExactlyOnce(s: Store, notice: Notice, work: nat, compiled: bool, gaps: seq<Gap>)
    requires Inv(s, FREE) && Execute(s, Deliver(notice, work, compiled), gaps).ok
    ensures var s' := Execute(s, Deliver(notice, work, compiled), gaps).store;
      exists key: Key :: key.notice == notice && key in s'.deliveries && ExactlyOne(s', key)
  {
    var e := NewBinding(s, Orphan, work, compiled, gaps);
    var s' := Execute(s, Deliver(notice, work, compiled), gaps).store;
    NewBindingSound(s, Orphan, work, compiled, gaps, FREE);
    RecordSound(e.store, notice, gaps, FREE);
    var key := KeyOf(Meanwhile(e.store, At(gaps, 21)), e.store.binding.value, notice);
    assert key in s'.deliveries;
    var c :| 0 <= c < |s'.checkpoints| && s'.checkpoints[c].key == Some(key);
    assert forall d :: 0 <= d < |s'.checkpoints| && s'.checkpoints[d].key == Some(key) ==> d == c;
  }

  // ---------------------------------------------------------------- recovery

  /** The conversation can be bound to this work: its session is active, or there is at most one orphan on the current branch and it is on this work. */
  predicate Ready(s: Store, work: nat) {
    if s.binding.Some? then
      var x := Get(s.sessions, s.binding.value.session);
      x.active && x.work == Some(work)
    else
      var k := FirstOwn(s.sessions, s.branch, 0);
      k < |s.sessions| ==> FirstOwn(s.sessions, s.branch, k + 1) == |s.sessions| && s.sessions[k].work == Some(work)
  }

  /** The session and the key an undisturbed delivery ends up with. */
  function OwnSession(s: Store): nat {
    if s.binding.Some? then s.binding.value.session else FirstOwn(s.sessions, s.branch, 0)
  }

  function OwnKey(s: Store, notice: Notice): Key {
    if s.binding.Some? then KeyOf(s, s.binding.value, notice)
    else if OwnSession(s) < |s.sessions| then Key(notice, 0, s.sources, s.sessions[OwnSession(s)].worked)
    else Key(notice, 0, s.sources, s.revision + 1)
  }

  /** The checkpoints it leaves: one more, unless its key has one already. */
  ghost function Recorded(s: Store, notice: Notice): seq<Checkpoint> {
    if Has(s, OwnKey(s, notice)) then s.checkpoints
    else s.checkpoints + [Checkpoint(OwnSession(s), Some(OwnKey(s, notice)))]
  }

  /** From `s'` an undisturbed delivery still leads to the same place as from `s`. */
  ghost predicate SameEnd(s: Store, s': Store, notice: Notice, work: nat) {
    Inv(s', FREE) && Ready(s', work) && OwnKey(s', notice) == OwnKey(s, notice) && Recorded(s', notice) == Recorded(s, notice)
  }

  ghost predicate AllSameEnd(s: Store, t: seq<Store>, notice: Notice, work: nat) {
    forall x <- t :: SameEnd(s, x, notice, work)
  }

  lemma QuietSaves(s: Store, b: Binding, delivery: bool, i: nat)
    requires Savable(s, b)
    ensures Saves(s, b, delivery, [], i, ATTEMPTS) == Effect([s, s, Stored(s, b, delivery)], Stored(s, b, delivery), true)
  {
  }

  /** The orphan of an interrupted hook: found again, and bound. */
  lemma QuietOrphan(s: Store, notice: Notice, work: nat)
    requires Inv(s, FREE) && s.binding.None? && Ready(s, work) && FirstOwn(s.sessions, s.branch, 0) < |s.sessions|
    ensures var e := NewBinding(s, Orphan, work, true, []);
      && e.ok && e.store.binding.Some? && AllSameEnd(s, e.states, notice, work) && SameEnd(s, e.store, notice, work)
  {
    var k := FirstOwn(s.sessions, s.branch, 0);
    var b := Binding(k, 0, 0, None, None);
    QuietSaves(s, b, false, 5);
    QuietBind(s, k, notice, work);
  }

  lemma QuietStart(s: Store, notice: Notice, work: nat)
    requires Inv(s, FREE) && s.binding.None? && NoOwn(s, s.branch)
    ensures SameEnd(s, WithSession(s, s.branch, work), notice, work)
  {
    OpenKeeps(s, s.branch, work, FREE);
    OnlyOwn(s.sessions, s.branch, Session(Some(work), true, true, s.branch, s.revision + 1));
  }

  /** No session yet: one is opened, and from there it is as with an orphan. */
  lemma QuietFirst(s: Store, notice: Notice, work: nat)
    requires Inv(s, FREE) && s.binding.None? && NoOwn(s, s.branch)
    ensures var e := NewBinding(s, Orphan, work, true, []);
      && e.ok && e.store.binding.Some? && AllSameEnd(s, e.states, notice, work) && SameEnd(s, e.store, notice, work)
  {
    QuietFirstStates(s, work);
    QuietStart(s, notice, work);
    QuietBind(WithSession(s, s.branch, work), |s.sessions|, notice, work);
  }

  lemma QuietFirstStates(s: Store, work: nat)
    requires s.binding.None? && NoOwn(s, s.branch)
    ensures var s3 := WithSession(s, s.branch, work);
      var end := Stored(s3, Binding(|s.sessions|, 0, 0, None, None), false);
      NewBinding(s, Orphan, work, true, []) == Effect([s, s, s, s, s, s3, s3, s3, end], end, true)
  {
    QuietSaves(WithSession(s, s.branch, work), Binding(|s.sessions|, 0, 0, None, None), false, 5);
  }

  lemma QuietBind(s: Store, id: nat, notice: Notice, work: nat)
    requires Inv(s, FREE) && s.binding.None? && Ready(s, work) && id == FirstOwn(s.sessions, s.branch, 0) < |s.sessions|
    ensures SameEnd(s, Stored(s, Binding(id, 0, 0, None, None), false), notice, work)
  {
  }

  lemma OnlyOwn(xs: seq<Session>, branch: nat, x: Session)
    requires FirstOwn(xs, branch, 0) == |xs| && OwnOn(x, branch)
    ensures FirstOwn(xs + [x], branch, 0) == |xs| && FirstOwn(xs + [x], branch, |xs| + 1) == |xs| + 1
  {
    assert OwnOn((xs + [x])[|xs|], branch);
    assert forall j :: 0 <= j < |xs| ==> (xs + [x])[j] == xs[j];
  }

  lemma QuietBinding(s: Store, notice: Notice, work: nat)
    requires Inv(s, FREE) && Ready(s, work)
    ensures var e := NewBinding(s, Orphan, work, true, []);
      && e.ok && e.store.binding.Some? && AllSameEnd(s, e.states, notice, work) && SameEnd(s, e.store, notice, work)
  {
    if s.binding.None? {
      if FirstOwn(s.sessions, s.branch, 0) < |s.sessions| {
        QuietOrphan(s, notice, work);
      } else {
        QuietFirst(s, notice, work);
      }
    }
  }

  /** An interrupted delivery left its checkpoint, or none: either way the binding comes to name the only one. */
  lemma QuietSaveOfKnown(s: Store, notice: Notice, work: nat, b: Binding)
    requires Inv(s, FREE) && s.binding.Some? && Ready(s, work) && Savable(s, b) && b.key == Some(OwnKey(s, notice))
    requires b.progress == s.binding.value.progress && Has(s, OwnKey(s, notice))
    ensures var e := Saves(s, b, true, [], 25, ATTEMPTS);
      && e.ok && AllSameEnd(s, e.states, notice, work) && SameEnd(s, e.store, notice, work)
      && OwnKey(s, notice) in e.store.deliveries && e.store.checkpoints == s.checkpoints
  {
    var s' := Stored(s, b, true);
    QuietSaves(s, b, true, 25);
    assert forall k :: Has(s', k) <==> Has(s, k);
  }

  lemma QuietNewCheckpoint(s: Store, notice: Notice, work: nat)
    requires Inv(s, FREE) && s.binding.Some? && Ready(s, work) && !Has(s, OwnKey(s, notice))
    ensures var e := NewCheckpoint(s, s.binding.value, OwnKey(s, notice), []);
      && e.ok && AllSameEnd(s, e.states, notice, work)
      && OwnKey(s, notice) in e.store.deliveries && e.store.checkpoints == Recorded(s, notice)
  {
    var b, key := s.binding.value, OwnKey(s, notice);
    var s1 := s.(revision := s.revision + 1);
    var s2 := s1.(revision := s1.revision + 1, checkpoints := s.checkpoints + [Checkpoint(b.session, Some(key))]);
    ReceiptKeeps(s, FREE);
    assert SameEnd(s, s1, notice, work);
    AddCheckpointKeeps(s1, key, FREE);
    assert s2.checkpoints[|s.checkpoints|].key == Some(key);
    assert Has(s2, key);
    assert SameEnd(s, s2, notice, work);
    assert Checkpointed(s, b.session, key, []) == Effect([s, s] + [s1, s1, s2], s2, true);
    QuietSaveOfKnown(s2, notice, work, b.(key := Some(key), checkpoint := Some(|s.checkpoints|)));
  }

  lemma QuietRecord(s: Store, notice: Notice, work: nat)
    requires Inv(s, FREE) && s.binding.Some? && Ready(s, work)
    ensures var e := Record(s, s.binding.value, notice, []);
      && e.ok && AllSameEnd(s, e.states, notice, work)
      && OwnKey(s, notice) in e.store.deliveries && e.store.checkpoints == Recorded(s, notice)
  {
    var b, key := s.binding.value, OwnKey(s, notice);
    if key !in s.deliveries {
      FindComplete(s, key, FREE);
      if Has(s, key) {
        QuietSaveOfKnown(s, notice, work, b.(key := Some(key), checkpoint := Some(Find(s.checkpoints, b.session, key))));
      } else {
        QuietNewCheckpoint(s, notice, work);
      }
    }
  }

  /** An undisturbed delivery succeeds exactly when the conversation can be bound, and records its event once. */
  lemma UndisturbedDelivery(s: Store, notice: Notice, work: nat)
    requires Inv(s, FREE)
    ensures var e := Execute(s, Deliver(notice, work, true), []);
      && (e.ok <==> Ready(s, work))
      && (e.ok ==> OwnKey(s, notice) in e.store.deliveries && e.store.checkpoints == Recorded(s, notice)
                   && AllSameEnd(s, e.states, notice, work))
  {
    if Ready(s, work) {
      QuietBinding(s, notice, work);
      var e := NewBinding(s, Orphan, work, true, []);
      QuietRecord(e.store, notice, work);
    }
  }

  /**
   A delivery killed anywhere and repeated ends with the checkpoints of one that was not killed,
   whatever the first had already written.
   */
  lemma CrashedDeliveryCompletes(s: Store, notice: Notice, work: nat, cut: nat)
    requires Inv(s, FREE) && Ready(s, work)
    ensures var e := Execute(s, Deliver(notice, work, true), []);
      var again := Execute(LastOf(s, Cut(e.states, cut)), Deliver(notice, work, true), []);
      && again.ok && again.store.checkpoints == e.store.checkpoints && OwnKey(s, notice) in again.store.deliveries
  {
    var e := Execute(s, Deliver(notice, work, true), []);
    UndisturbedDelivery(s, notice, work);
    var kept := Cut(e.states, cut);
    var s' := LastOf(s, kept);
    if kept != [] {
      assert s' in e.states;
    }
    UndisturbedDelivery(s', notice, work);
  }

  /**
   The key covers the source state, the noted progress and the session's work revision even when the
   host gives a turn id. A repeated notice adds no checkpoint if and only if this notice was already
   recorded with them as they are now; so after others change the sources, the same turn is recorded again.
   */
  lemma RepeatIsDuplicateIff(s: Store, notice: Notice, work: nat)
    requires Inv(s, FREE) && s.binding.Some? && Ready(s, work)
    ensures var e := Execute(s, Deliver(notice, work, true), []);
      e.store.checkpoints == s.checkpoints <==> Has(s, Key(notice, s.binding.value.progress, s.sources, Get(s.sessions, s.binding.value.session).worked))
  {
    UndisturbedDelivery(s, notice, work);
  }

  lemma SameTurnTwice(revision: nat, turn: nat)
    ensures var b := Binding(0, revision, 0, None, None);
      var s := Store(revision, 0, 0, [Session(Some(0), true, true, 0, 0)], Some(b), [], {});
      var notice := Notice(0, Some(turn), 0);
      var first := Execute(s, Deliver(notice, 0, true), []).store;
      var second := Execute(Meanwhile(first, Gap(1, 1, None, {}, map[], [], [])), Deliver(notice, 0, true), []).store;
      |second.checkpoints| == 2
      && second.checkpoints[0].key.Some? && second.checkpoints[0].key.value.notice == notice
      && second.checkpoints[1].key.Some? && second.checkpoints[1].key.value.notice == notice
  {
    var b := Binding(0, revision, 0, None, None);
    var s := Store(revision, 0, 0, [Session(Some(0), true, true, 0, 0)], Some(b), [], {});
    var notice := Notice(0, Some(turn), 0);
    UndisturbedDelivery(s, notice, 0);
    var e := Execute(s, Deliver(notice, 0, true), []);
    var g := Gap(1, 1, None, {}, map[], [], []);
    ExecuteSound(s, Deliver(notice, 0, true), [], FREE);
    PathEnd(s, e.states, FREE);
    BoundDelivery(s, notice, 0);
    MeanwhileKeeps(e.store, g, FREE);
    UndisturbedDelivery(Meanwhile(e.store, g), notice, 0);
  }

  /** Delivering to a bound conversation leaves sessions, sources and progress as they were. */
  lemma BoundDelivery(s: Store, notice: Notice, work: nat)
    requires Inv(s, FREE) && s.binding.Some? && Ready(s, work)
    ensures var s' := Execute(s, Deliver(notice, work, true), []).store;
      s'.sessions == s.sessions && s'.sources == s.sources && s'.binding.Some?
      && s'.binding.value.session == s.binding.value.session && s'.binding.value.progress == s.binding.value.progress
  {
    var b, key := s.binding.value, OwnKey(s, notice);
    if key !in s.deliveries {
      FindComplete(s, key, FREE);
      if Has(s, key) {
        QuietSaves(s, b.(key := Some(key), checkpoint := Some(Find(s.checkpoints, b.session, key))), true, 25);
      } else {
        var s2 := s.(revision := s.revision + 2, checkpoints := s.checkpoints + [Checkpoint(b.session, Some(key))]);
        QuietSaves(s2, b.(key := Some(key), checkpoint := Some(|s.checkpoints|)), true, 25);
      }
    }
  }

  lemma Regroup(a: seq<Store>, b: seq<Store>, c: seq<Store>)
    ensures a + b + c == a + (b + c)
  {
  }

  /** One conversation's commands under its lock; `history` lists the stores seen and made. */
  class Conversation {
    var store: Store
    ghost var history: seq<Store>

    constructor (store: Store)
      ensures this.store == store && history == []
    {
      this.store := store;
      history := [];
    }

    /** The next access, after whatever others committed. */
    method Access(g: Gap) returns (revision: nat)
      modifies this
      ensures store == Meanwhile(old(store), g) && history == old(history) + [store] && revision == store.revision
    {
      store := Meanwhile(store, g);
      history := history + [store];
      revision := store.revision;
    }

    method Commit(next: Store)
      modifies this
      ensures store == next && history == old(history) + [next]
    {
      store := next;
      history := history + [next];
    }

    method Attempt(b: Binding, delivery: bool, g: Gap, h: Gap) returns (conflict: bool, ok: bool)
      modifies this
      ensures var s1 := Meanwhile(old(store), g);
        var s2 := Meanwhile(s1, h);
        && conflict == (s2.revision != s1.revision)
        && ok == (!conflict && Savable(s2, b))
        && store == (if ok then Stored(s2, b, delivery) else s2)
        && history == old(history) + (if ok then [s1, s2, Stored(s2, b, delivery)] else [s1, s2])
    {
      var expected := Access(g);
      var actual := Access(h);
      conflict := actual != expected;
      ok := !conflict && Savable(store, b);
      if ok {
        Commit(Stored(store, b, delivery));
      }
    }

    method SaveBinding(b: Binding, delivery: bool, gaps: seq<Gap>, i: nat) returns (ok: bool)
      modifies this
      ensures var e := Saves(old(store), b, delivery, gaps, i, ATTEMPTS);
        history == old(history) + e.states && store == e.store && ok == e.ok
    {
      ghost var all := Saves(store, b, delivery, gaps, i, ATTEMPTS);
      for k := 0 to ATTEMPTS
        invariant history + Saves(store, b, delivery, gaps, i + 2 * k, ATTEMPTS - k).states == old(history) + all.states
        invariant Saves(store, b, delivery, gaps, i + 2 * k, ATTEMPTS - k).store == all.store
        invariant Saves(store, b, delivery, gaps, i + 2 * k, ATTEMPTS - k).ok == all.ok
      {
        ghost var before, rest := history, Saves(store, b, delivery, gaps, i + 2 * k, ATTEMPTS - k);
        var conflict;
        conflict, ok := Attempt(b, delivery, At(gaps, i + 2 * k), At(gaps, i + 2 * k + 1));
        if !conflict {
          return;
        }
        Regroup(before, history[|before|..], Saves(store, b, delivery, gaps, i + 2 * k + 2, ATTEMPTS - k - 1).states);
      }
      ok := false;
    }

    method StartSession(branch: Option<nat>, work: nat, gaps: seq<Gap>) returns (ok: bool)
      modifies this
      ensures var e := Start(old(store), branch, work, gaps);
        history == old(history) + e.states && store == e.store && ok == e.ok
    {
      var expected := Access(At(gaps, 3));
      var current := store.branch;
      var actual := Access(At(gaps, 4));
      ok := actual == expected;
      if ok {
        Commit(WithSession(store, if branch.Some? then branch.value else current, work));
      }
    }

    method PickSession(branch: nat, choice: Choice, work: nat, gaps: seq<Gap>) returns (ok: bool, session: nat)
      modifies this
      ensures var p := Pick(old(store), branch, choice, work, gaps);
        history == old(history) + p.effect.states && store == p.effect.store && ok == p.effect.ok && session == p.session
    {
      var _ := Access(At(gaps, 2));
      if choice.Chosen? {
        session := choice.session;
        ok := Get(store.sessions, session).active && Get(store.sessions, session).work == Some(work);
        return;
      }
      session := FirstOwn(store.sessions, branch, 0);
      if choice.Orphan? && session < |store.sessions| {
        ok := FirstOwn(store.sessions, branch, session + 1) == |store.sessions| && store.sessions[session].work == Some(work);
      } else {
        ok := StartSession(if choice.Resumed? then None else Some(branch), work, gaps);
        session := |store.sessions| - if ok then 1 else 0;
      }
    }

    method AttachConversation(choice: Choice, work: nat, compiled: bool, gaps: seq<Gap>) returns (ok: bool)
      modifies this
      ensures var e := NewBinding(old(store), choice, work, compiled, gaps);
        history == old(history) + e.states && store == e.store && ok == e.ok
    {
      var _ := Access(At(gaps, 0));
      ghost var entry := store;
      ok := AttachOpened(store.branch, choice, work, compiled, gaps);
      Regroup(old(history), [entry], Attach(entry, entry.branch, choice, work, compiled, gaps).states);
    }

    method AttachOpened(branch: nat, choice: Choice, work: nat, compiled: bool, gaps: seq<Gap>) returns (ok: bool)
      modifies this
      ensures var e := Attach(old(store), branch, choice, work, compiled, gaps);
        history == old(history) + e.states && store == e.store && ok == e.ok
    {
      var _ := Access(At(gaps, 1));
      if store.binding.Some? {
        var b := store.binding.value;
        var bound := Get(store.sessions, b.session);
        ok := !(choice.Chosen? && choice.session != b.session) && bound.work == Some(work) && bound.active;
      } else {
        ghost var s0 := store;
        ok := BindFirst(branch, choice, work, compiled, gaps);
        Regroup(old(history), [s0], FirstBinding(s0, branch, choice, work, compiled, gaps).states);
      }
    }

    method BindFirst(branch: nat, choice: Choice, work: nat, compiled: bool, gaps: seq<Gap>) returns (ok: bool)
      modifies this
      ensures var e := FirstBinding(old(store), branch, choice, work, compiled, gaps);
        history == old(history) + e.states && store == e.store && ok == e.ok
    {
      var session;
      ok, session := PickSession(branch, choice, work, gaps);
      ok := ok && compiled;
      if ok {
        ghost var picked := Pick(old(store), branch, choice, work, gaps).effect;
        ok := SaveBinding(Binding(session, 0, 0, None, None), false, gaps, 5);
        Regroup(old(history), picked.states,
                Saves(picked.store, Binding(session, 0, 0, None, None), false, gaps, 5, ATTEMPTS).states);
      }
    }

    method SaveCheckpoint(session: nat, key: Key, gaps: seq<Gap>) returns (ok: bool)
      modifies this
      ensures var e := Checkpointed(old(store), session, key, gaps);
        history == old(history) + e.states && store == e.store && ok == e.ok
    {
      var expected := Access(At(gaps, 22));
      var actual := Access(At(gaps, 23));
      ok := actual == expected && Get(store.sessions, session).active;
      if ok {
        Commit(store.(revision := actual + 1));
        var latest := Access(At(gaps, 24));
        ok := latest == actual + 1;
        if ok {
          Commit(store.(revision := latest + 1, checkpoints := store.checkpoints + [Checkpoint(session, Some(key))]));
        }
      }
    }

    method RecordEvent(b: Binding, notice: Notice, gaps: seq<Gap>) returns (ok: bool)
      modifies this
      ensures var e := Record(old(store), b, notice, gaps);
        history == old(history) + e.states && store == e.store && ok == e.ok
    {
      var _ := Access(At(gaps, 21));
      var key := KeyOf(store, b, notice);
      if key in store.deliveries {
        return true;
      }
      var found := Find(store.checkpoints, b.session, key);
      ghost var s1 := store;
      if found == |store.checkpoints| {
        ok := RecordNew(b, key, gaps);
        Regroup(old(history), [s1], NewCheckpoint(s1, b, key, gaps).states);
      } else {
        ok := SaveBinding(b.(key := Some(key), checkpoint := Some(found)), true, gaps, 25);
        Regroup(old(history), [s1], Saves(s1, b.(key := Some(key), checkpoint := Some(found)), true, gaps, 25, ATTEMPTS).states);
      }
    }

    method RecordNew(b: Binding, key: Key, gaps: seq<Gap>) returns (ok: bool)
      modifies this
      ensures var e := NewCheckpoint(old(store), b, key, gaps);
        history == old(history) + e.states && store == e.store && ok == e.ok
    {
      ok := SaveCheckpoint(b.session, key, gaps);
      if ok {
        ghost var made := Checkpointed(old(store), b.session, key, gaps);
        var b' := b.(key := Some(key), checkpoint := Some(|store.checkpoints| - 1));
        ok := SaveBinding(b', true, gaps, 25);
        Regroup(old(history), made.states, Saves(made.store, b', true, gaps, 25, ATTEMPTS).states);
      }
    }

    method DeliverEvent(notice: Notice, work: nat, compiled: bool, gaps: seq<Gap>) returns (ok: bool)
      modifies this
      ensures var e := Execute(old(store), Deliver(notice, work, compiled), gaps);
        history == old(history) + e.states && store == e.store && ok == e.ok
    {
      ok := AttachConversation(Orphan, work, compiled, gaps);
      if ok {
        ghost var bound := NewBinding(old(store), Orphan, work, compiled, gaps);
        var b := store.binding.value;
        ok := RecordEvent(b, notice, gaps);
        Regroup(old(history), bound.states, Record(bound.store, b, notice, gaps).states);
      }
    }
  }
}
