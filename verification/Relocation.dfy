/**
 Relocation of one registered source: receipt and marker, database binding, and manifest are three
 resources with no common transaction. A call is described by the durable states it writes, in order;
 a crash keeps a prefix. A relocation key is the collision-free fingerprint of its reviewed plan, so
 the plan itself serves as the key.
 */
module Relocation {
  import opened Prelude

  type Locator = nat

  /** The source row of the database. */
  datatype Binding = Binding(locator: Locator, config: nat, content: Bytes, revision: nat)

  /** The manifest file: where it maps this source, and everything else it says. */
  datatype Manifest = Manifest(locator: Locator, rest: nat)

  datatype Plan = Plan(source: Binding, before: Manifest, target: Locator, targetConfig: nat, content: Bytes, after: Manifest)

  datatype Outcome = Pending | BindingRelocated | ConfigurationRelocated | Completed

  datatype Receipt = Receipt(outcome: Outcome, ok: Option<bool>)

  /** `dirs[k]` is the directory of relocation k; None is a directory without its receipt. */
  datatype Disk = Disk(binding: Binding, manifest: Manifest, dirs: map<Plan, Option<Receipt>>, marker: Option<Plan>)

  datatype Index = IndexRefused | Indexed(ok: bool, seen: Option<Bytes>, revision: nat)

  /**
   What a call observes and does not control: the project identity, the destination's bytes at the
   check and at the end, the original file (absent or its bytes), manifest permissions at both checks,
   a retained source already owning the destination, a foreign edit of the manifest, the index pass.
   */
  datatype World = World(
    project: bool, target: Option<Bytes>, original: Option<Bytes>, readOnly: bool, readOnlyLater: bool,
    collision: bool, foreign: Option<Manifest>, index: Index, targetAtEnd: Option<Bytes>, projects: bool)

  datatype Effect = Effect(writes: seq<Disk>, ok: bool)

  // ---------------------------------------------------------------- planning

  /** The plan a preview computes now, given that k is the one the caller reviewed. */
  predicate Planned(d: Disk, k: Plan, w: World) {
    && k.source == d.binding && k.before == d.manifest
    && k.before.locator == k.source.locator
    && (w.original.None? || w.original.value == k.source.content)
    && w.target == Some(k.source.content) && k.content == k.source.content
    && k.target != k.source.locator && !w.collision
    && k.after == k.before.(locator := k.target)
    && w.projects
  }

  // ---------------------------------------------------------------- finishing

  function Saved(d: Disk, k: Plan, r: Receipt): Disk {
    d.(dirs := d.dirs[k := Some(r)])
  }

  function Failed(d: Disk, k: Plan, outcome: Outcome): Disk {
    Saved(d, k, Receipt(outcome, Some(false)))
  }

  function Relocated(b: Binding, k: Plan): Binding {
    Binding(k.target, k.targetConfig, b.content, b.revision + 1)
  }

  predicate AtTarget(b: Binding, k: Plan) {
    b.locator == k.target && b.config == k.targetConfig
  }

  /** The read-only checks made before the first write. */
  predicate Checks(d: Disk, k: Plan, w: World) {
    && w.project
    && (d.marker.None? || d.marker == Some(k))
    && w.target == Some(k.content)
    && (w.original.None? || w.original.value == k.source.content)
    && (d.manifest == k.before || d.manifest == k.after)
    && (d.manifest == k.after || !w.readOnly)
    && (if d.binding.locator == k.source.locator then d.binding == k.source
        else AtTarget(d.binding, k) && d.binding.content == k.content)
  }

  /** Index pass, last look at the destination, completed receipt, marker removal. */
  function IndexPhase(d: Disk, k: Plan, w: World): Effect {
    if w.index.IndexRefused? then Effect([Failed(d, k, ConfigurationRelocated)], false)
    else
      var seen := if w.index.seen.Some? then w.index.seen.value else d.binding.content;
      var d1 := d.(binding := d.binding.(content := seen, revision := d.binding.revision + w.index.revision));
      if !w.index.ok || w.targetAtEnd != Some(k.content) then
        Effect([d1, Failed(d1, k, ConfigurationRelocated)], false)
      else
        var d2 := Saved(d1, k, Receipt(Completed, Some(true)));
        Effect([d1, d2, d2.(marker := None)], true)
  }

  function ManifestPhase(d: Disk, k: Plan, ok: Option<bool>, w: World): Effect {
    if d.manifest == k.after then
      var d1 := Saved(d, k, Receipt(ConfigurationRelocated, ok));
      var rest := IndexPhase(d1, k, w);
      Effect([d1] + rest.writes, rest.ok)
    else if w.readOnlyLater then Effect([Failed(d, k, BindingRelocated)], false)
    else if w.foreign.Some? && w.foreign.value != d.manifest then
      var d1 := d.(manifest := w.foreign.value);
      Effect([d1, Failed(d1, k, BindingRelocated)], false)
    else
      var d1 := d.(manifest := k.after);
      var d2 := Saved(d1, k, Receipt(ConfigurationRelocated, ok));
      var rest := IndexPhase(d2, k, w);
      Effect([d1, d2] + rest.writes, rest.ok)
  }

  function BindingPhase(d: Disk, k: Plan, r: Receipt, w: World): Effect {
    if d.binding.locator == k.source.locator && w.collision then Effect([Failed(d, k, r.outcome)], false)
    else
      var moves := d.binding.locator == k.source.locator;
      var d1 := if moves then d.(binding := Relocated(d.binding, k)) else d;
      var d2 := Saved(d1, k, r.(outcome := BindingRelocated));
      var rest := ManifestPhase(d2, k, r.ok, w);
      Effect((if moves then [d1, d2] else [d2]) + rest.writes, rest.ok)
  }

  function MarkerPhase(d: Disk, k: Plan, r: Receipt, w: World): Effect {
    var d1 := d.(marker := Some(k));
    var rest := BindingPhase(d1, k, r, w);
    Effect((if d.marker.None? then [d1] else []) + rest.writes, rest.ok)
  }

  function Finish(d: Disk, k: Plan, r: Receipt, w: World): Effect {
    if Checks(d, k, w) then MarkerPhase(d, k, r, w) else Effect([Failed(d, k, r.outcome)], false)
  }

  // ---------------------------------------------------------------- entry points

  predicate HasReceipt(d: Disk, k: Plan) {
    k in d.dirs && d.dirs[k].Some?
  }

  predicate AlreadyDone(d: Disk, k: Plan) {
    HasReceipt(d, k) && d.dirs[k].value.outcome == Completed && d.marker.None?
  }

  function Recover(d: Disk, k: Plan, w: World): Effect {
    if !HasReceipt(d, k) then Effect([], false)
    else if AlreadyDone(d, k) then Effect([], true)
    else Finish(d, k, d.dirs[k].value, w)
  }

  /** The accepted relocation of the plan the caller reviewed. */
  function Relocate(d: Disk, k: Plan, w: World): Effect {
    if HasReceipt(d, k) then Effect([], d.dirs[k].value.outcome == Completed)
    else if !Planned(d, k, w) || d.marker.Some? || k in d.dirs then Effect([], false)
    else
      var r := Receipt(Pending, None);
      var d1 := d.(dirs := d.dirs[k := None]);
      var d2 := Saved(d, k, r);
      var d3 := d2.(marker := Some(k));
      var rest := Finish(d3, k, r, w);
      Effect([d1, d2, d3] + rest.writes, rest.ok)
  }

  // ---------------------------------------------------------------- the invariant

  ghost predicate WellFormed(k: Plan) {
    && k.before.locator == k.source.locator
    && k.after == k.before.(locator := k.target)
    && k.target != k.source.locator
    && k.content == k.source.content
  }

  ghost predicate Stage(d: Disk, k: Plan) {
    || (d.binding == k.source && d.manifest == k.before)
    || (AtTarget(d.binding, k) && d.manifest == k.before)
    || (AtTarget(d.binding, k) && d.manifest == k.after)
  }

  /**
   Binding and manifest name the same place, except while the marker holds the key of the relocation
   that is moving them, and then the binding moves first.
   */
  ghost predicate Inv(d: Disk) {
    && (forall k <- d.dirs :: WellFormed(k))
    && (d.marker.None? ==> d.binding.locator == d.manifest.locator)
    && (d.marker.Some? ==> HasReceipt(d, d.marker.value) && Stage(d, d.marker.value))
  }

  /** While a relocation is pending, the binding still carries the reviewed bytes. */
  ghost predicate ContentKept(d: Disk) {
    d.marker.Some? ==> d.binding.content == d.marker.value.content
  }

  predicate Faithful(k: Plan, w: World) {
    w.index.Indexed? && w.index.seen.Some? ==> w.index.seen.value == k.content
  }

  ghost predicate Good(k: Plan, w: World, s: Disk) {
    Inv(s) && (Faithful(k, w) ==> ContentKept(s))
  }

  lemma IndexPhaseGood(d: Disk, k: Plan, w: World)
    requires Good(k, w, d) && d.marker == Some(k) && AtTarget(d.binding, k) && d.manifest == k.after
    ensures forall s <- IndexPhase(d, k, w).writes :: Good(k, w, s)
  {
  }

  lemma ManifestPhaseGood(d: Disk, k: Plan, ok: Option<bool>, w: World)
    requires Good(k, w, d) && d.marker == Some(k) && AtTarget(d.binding, k) && w.foreign.None?
    ensures forall s <- ManifestPhase(d, k, ok, w).writes :: Good(k, w, s)
  {
    if d.manifest == k.after {
      IndexPhaseGood(Saved(d, k, Receipt(ConfigurationRelocated, ok)), k, w);
    } else if !w.readOnlyLater {
      var d1 := d.(manifest := k.after);
      IndexPhaseGood(Saved(d1, k, Receipt(ConfigurationRelocated, ok)), k, w);
    }
  }

  lemma BindingPhaseGood(d: Disk, k: Plan, r: Receipt, w: World)
    requires Good(k, w, d) && d.marker == Some(k) && w.foreign.None?
    ensures forall s <- BindingPhase(d, k, r, w).writes :: Good(k, w, s)
  {
    if !(d.binding.locator == k.source.locator && w.collision) {
      var d1 := if d.binding.locator == k.source.locator then d.(binding := Relocated(d.binding, k)) else d;
      assert Good(k, w, d1);
      ManifestPhaseGood(Saved(d1, k, r.(outcome := BindingRelocated)), k, r.ok, w);
    }
  }

  lemma FinishGood(d: Disk, k: Plan, r: Receipt, w: World)
    requires Inv(d) && (Faithful(k, w) ==> ContentKept(d)) && HasReceipt(d, k) && w.foreign.None?
    ensures forall s <- Finish(d, k, r, w).writes :: Inv(s) && (Faithful(k, w) ==> ContentKept(s))
  {
    if Checks(d, k, w) {
      var d1 := d.(marker := Some(k));
      assert Good(k, w, d1);
      BindingPhaseGood(d1, k, r, w);
      assert forall s <- Finish(d, k, r, w).writes :: s == d1 || s in BindingPhase(d1, k, r, w).writes;
    }
  }

  // ---------------------------------------------------------------- runs

  /**
   One relocation or recovery killed after `cut` writes, or an ordinary refresh, which is refused
   while the marker exists and leaves binding and manifest in agreement.
   */
  datatype Call =
    | RelocateCall(k: Plan, w: World, cut: nat)
    | RecoverCall(k: Plan, w: World, cut: nat)
    | Refresh(binding: Binding, manifest: Manifest)

  function After(d: Disk, c: Call): Disk {
    match c
    case RelocateCall(k, w, cut) => LastOf(d, Cut(Relocate(d, k, w).writes, cut))
    case RecoverCall(k, w, cut) => LastOf(d, Cut(Recover(d, k, w).writes, cut))
    case Refresh(b, m) =>
      if d.marker.Some? || b.locator != m.locator then d else d.(binding := b, manifest := m)
  }

  function RunEnd(d: Disk, calls: seq<Call>): Disk
    decreases |calls|
  {
    if calls == [] then d else RunEnd(After(d, calls[0]), calls[1..])
  }

  predicate Quiet(c: Call) {
    c.Refresh? || c.w.foreign.None?
  }

  predicate FaithfulIndex(c: Call) {
    c.Refresh? || Faithful(c.k, c.w)
  }

  lemma CallGood(d: Disk, c: Call)
    requires Inv(d) && Quiet(c)
    ensures Inv(After(d, c))
    ensures ContentKept(d) && FaithfulIndex(c) ==> ContentKept(After(d, c))
  {
    match c {
      case Refresh(_, _) =>
      case RecoverCall(k, w, cut) =>
        if HasReceipt(d, k) && !AlreadyDone(d, k) {
          RecoverGood(d, k, w, cut);
        }
      case RelocateCall(k, w, cut) =>
        if !HasReceipt(d, k) && Planned(d, k, w) && d.marker.None? && k !in d.dirs {
          RelocateGood(d, k, w, cut);
        }
    }
  }

  lemma RecoverGood(d: Disk, k: Plan, w: World, cut: nat)
    requires Inv(d) && w.foreign.None? && HasReceipt(d, k) && !AlreadyDone(d, k)
    ensures Inv(After(d, RecoverCall(k, w, cut)))
    ensures ContentKept(d) && Faithful(k, w) ==> ContentKept(After(d, RecoverCall(k, w, cut)))
  {
    var writes := Recover(d, k, w).writes;
    var s := After(d, RecoverCall(k, w, cut));
    assert s == d || s in writes;
    if ContentKept(d) || !Faithful(k, w) {
      FinishGood(d, k, d.dirs[k].value, w);
    } else {
      FinishInv(d, k, d.dirs[k].value, w);
    }
  }

  /** The safety half alone, also when an earlier index pass recorded other bytes. */
  lemma FinishInv(d: Disk, k: Plan, r: Receipt, w: World)
    requires Inv(d) && HasReceipt(d, k) && w.foreign.None?
    ensures forall s <- Finish(d, k, r, w).writes :: Inv(s)
  {
    if Checks(d, k, w) {
      if d.marker.Some? && d.binding.content == k.content {
        FinishGood(d, k, r, w);
      } else if d.marker.None? {
        FinishGood(d, k, r, w);
      }
    }
  }

  lemma RelocateGood(d: Disk, k: Plan, w: World, cut: nat)
    requires Inv(d) && w.foreign.None?
    requires !HasReceipt(d, k) && Planned(d, k, w) && d.marker.None? && k !in d.dirs
    ensures Inv(After(d, RelocateCall(k, w, cut)))
    ensures Faithful(k, w) ==> ContentKept(After(d, RelocateCall(k, w, cut)))
  {
    var r := Receipt(Pending, None);
    var d1 := d.(dirs := d.dirs[k := None]);
    var d2 := Saved(d, k, r);
    var d3 := d2.(marker := Some(k));
    assert Inv(d1) && Inv(d2) && Inv(d3) && ContentKept(d3);
    FinishGood(d3, k, r, w);
    var s := After(d, RelocateCall(k, w, cut));
    assert s == d || s in [d1, d2, d3] || s in Finish(d3, k, r, w).writes;
  }

  /** Safety over every run of relocations, recoveries and refreshes, each killed anywhere. */
  lemma {:induction false} RunSafe(d: Disk, calls: seq<Call>)
    requires Inv(d) && forall c <- calls :: Quiet(c)
    ensures Inv(RunEnd(d, calls))
    ensures ContentKept(d) && (forall c <- calls :: FaithfulIndex(c)) ==> ContentKept(RunEnd(d, calls))
    decreases |calls|
  {
    if calls != [] {
      CallGood(d, calls[0]);
      RunSafe(After(d, calls[0]), calls[1..]);
    }
  }

  /** The same, in terms of the two resources a reader compares. */
  lemma DisagreementIsExplained(d: Disk, calls: seq<Call>)
    requires Inv(d) && forall c <- calls :: Quiet(c)
    ensures var e := RunEnd(d, calls);
      && (e.binding.locator != e.manifest.locator ==>
            && e.marker.Some? && HasReceipt(e, e.marker.value)
            && AtTarget(e.binding, e.marker.value) && e.manifest == e.marker.value.before)
      && (e.marker.Some? && e.manifest == e.marker.value.after ==> AtTarget(e.binding, e.marker.value))
  {
    RunSafe(d, calls);
    var e := RunEnd(d, calls);
    if e.marker.Some? {
      assert WellFormed(e.marker.value);
    }
  }

  // ---------------------------------------------------------------- progress

  /** Nothing a finishing pass observes stands in its way. */
  predicate Calm(k: Plan, w: World) {
    && w.project && w.target == Some(k.content) && w.targetAtEnd == Some(k.content)
    && (w.original.None? || w.original.value == k.source.content)
    && !w.readOnly && !w.readOnlyLater && !w.collision && w.foreign.None?
    && w.index.Indexed? && w.index.ok && w.index.seen == Some(k.content)
  }

  predicate BothAfter(d: Disk, k: Plan) {
    && AtTarget(d.binding, k) && d.binding.content == k.content
    && d.manifest == k.after && d.marker.None?
    && HasReceipt(d, k) && d.dirs[k].value == Receipt(Completed, Some(true))
  }

  /**
   With the marker written and nothing in the way, recovery completes exactly when the binding still
   carries the reviewed bytes, and completion leaves both resources at the destination.
   */
  lemma RecoveryCompletesIff(d: Disk, k: Plan, w: World)
    requires Inv(d) && d.marker == Some(k) && Calm(k, w)
    ensures Recover(d, k, w).ok <==> d.binding.content == k.content
    ensures Recover(d, k, w).ok ==> BothAfter(LastOf(d, Recover(d, k, w).writes), k)
  {
    assert WellFormed(k);
  }

  /** From every crash point of every run with faithful index passes, one undisturbed recovery finishes. */
  lemma EveryCrashPointRecovers(d: Disk, calls: seq<Call>, w: World)
    requires Inv(d) && ContentKept(d) && forall c <- calls :: Quiet(c) && FaithfulIndex(c)
    requires RunEnd(d, calls).marker.Some? && Calm(RunEnd(d, calls).marker.value, w)
    ensures var e := RunEnd(d, calls);
      BothAfter(LastOf(e, Recover(e, e.marker.value, w).writes), e.marker.value)
  {
    RunSafe(d, calls);
    RecoveryCompletesIff(RunEnd(d, calls), RunEnd(d, calls).marker.value, w);
  }

  /** A relocation stopped between its receipt and its marker is recovered by the same call. */
  lemma ReceiptWithoutMarkerRecovers(d: Disk, k: Plan, w: World, again: World)
    requires Inv(d) && d.marker.None? && k !in d.dirs && Planned(d, k, w) && Calm(k, again)
    ensures var e := After(d, RelocateCall(k, w, 2));
      e.marker.None? && BothAfter(LastOf(e, Recover(e, k, again).writes), k)
  {
    var d2 := Saved(d, k, Receipt(Pending, None));
    assert After(d, RelocateCall(k, w, 2)) == d2;
    var d3 := d2.(marker := Some(k));
    assert Inv(d3);
    RecoveryCompletesIff(d3, k, again);
    assert d3.dirs == d2.dirs;
    assert Finish(d2, k, d2.dirs[k].value, again).writes == [d3] + Finish(d3, k, d3.dirs[k].value, again).writes;
  }

  /** A recovery of this key, in these circumstances, that its checks stop. */
  predicate Refuses(d: Disk, k: Plan, w: World) {
    HasReceipt(d, k) && !AlreadyDone(d, k) && !Checks(d, k, w)
  }

  /** The disk after recoveries tried one after the other, each killed after `cuts[i]` writes. */
  function Tried(d: Disk, k: Plan, ws: seq<World>, cuts: seq<nat>): Disk
    requires |cuts| == |ws|
    decreases |ws|
  {
    if ws == [] then d else Tried(LastOf(d, Cut(Recover(d, k, ws[0]).writes, cuts[0])), k, ws[1..], cuts[1..])
  }

  /** Only the receipts of this key may differ. */
  predicate SameButReceipt(d: Disk, d': Disk, k: Plan) {
    && d'.binding == d.binding && d'.manifest == d.manifest && d'.marker == d.marker && d'.dirs - {k} == d.dirs - {k}
    && HasReceipt(d, k) && HasReceipt(d', k) && d'.dirs[k].value.outcome == d.dirs[k].value.outcome
  }

  /**
   On any disk: recoveries whose checks fail on it, however many and wherever killed, change neither binding
   nor manifest nor marker nor anything else but the failure in their own receipt; then they may succeed.
   */
  lemma {:induction false} FailedChecksChangeNothing(d: Disk, k: Plan, ws: seq<World>, cuts: seq<nat>)
    requires HasReceipt(d, k) && |cuts| == |ws| && forall w <- ws :: Refuses(d, k, w)
    ensures SameButReceipt(d, Tried(d, k, ws, cuts), k)
    ensures forall w :: Checks(Tried(d, k, ws, cuts), k, w) == Checks(d, k, w)
    decreases |ws|
  {
    if ws != [] {
      var d' := LastOf(d, Cut(Recover(d, k, ws[0]).writes, cuts[0]));
      assert Refuses(d, k, ws[0]);
      assert SameButReceipt(d, d', k);
      forall w | w in ws[1..]
        ensures Refuses(d', k, w)
      {
        assert w in ws && Refuses(d, k, w);
      }
      FailedChecksChangeNothing(d', k, ws[1..], cuts[1..]);
    }
  }

  /** A crash between creating the directory and saving its receipt leaves a key nothing can move again. */
  lemma DirectoryWithoutReceiptBlocks(d: Disk, k: Plan, w: World, again: World)
    requires d.marker.None? && k !in d.dirs && Planned(d, k, w)
    ensures var e := After(d, RelocateCall(k, w, 1));
      && e.binding == d.binding && e.manifest == d.manifest && e.marker.None?
      && Relocate(e, k, again) == Effect([], false) && Recover(e, k, again) == Effect([], false)
  {
  }

  /**
   The destination is edited after the checks and the index pass records those bytes. Putting the
   reviewed bytes back does not help: every later recovery refuses.
   */
  lemma EditDuringIndexBlocks() returns (d: Disk, k: Plan, w: World, e: Disk)
    ensures Inv(d) && d.marker.None? && k !in d.dirs && Planned(d, k, w) && w.foreign.None?
    ensures e == LastOf(d, Relocate(d, k, w).writes)
    ensures e.marker == Some(k)
    ensures forall again: World :: !Recover(e, k, again).ok
  {
    var reviewed: Bytes := [1];
    var edited: Bytes := [2];
    var b := Binding(1, 0, reviewed, 4);
    d := Disk(b, Manifest(1, 0), map[], None);
    k := Plan(b, d.manifest, 2, 0, reviewed, Manifest(2, 0));
    w := World(true, Some(reviewed), None, false, false, false, None, Indexed(true, Some(edited), 1), Some(edited), true);
    e := LastOf(d, Relocate(d, k, w).writes);
    assert e.binding == Binding(2, 0, edited, 6);
  }

  // ---------------------------------------------------------------- the calls themselves

  lemma Regroup(a: seq<Disk>, b: seq<Disk>, c: seq<Disk>)
    ensures a + b + c == a + (b + c)
  {
  }

  /** The four resources of one project; `written` records every durable state they have gone through. */
  class ProjectFiles {
    var disk: Disk
    ghost var written: seq<Disk>

    constructor (d: Disk)
      ensures disk == d && written == []
    {
      disk, written := d, [];
    }

    method Write(d: Disk)
      modifies this
      ensures disk == d && written == old(written) + [d]
    {
      disk, written := d, written + [d];
    }

    method SaveReceipt(k: Plan, r: Receipt)
      modifies this
      ensures disk == Saved(old(disk), k, r) && written == old(written) + [disk]
    {
      Write(disk.(dirs := disk.dirs[k := Some(r)]));
    }

    method FinishIndex(k: Plan, w: World) returns (ok: bool)
      modifies this
      ensures var e := IndexPhase(old(disk), k, w);
        ok == e.ok && written == old(written) + e.writes && disk == LastOf(old(disk), e.writes)
    {
      if w.index.IndexRefused? {
        SaveReceipt(k, Receipt(ConfigurationRelocated, Some(false)));
        return false;
      }
      var seen := disk.binding.content;
      if w.index.seen.Some? {
        seen := w.index.seen.value;
      }
      Write(disk.(binding := disk.binding.(content := seen, revision := disk.binding.revision + w.index.revision)));
      if !w.index.ok || w.targetAtEnd != Some(k.content) {
        SaveReceipt(k, Receipt(ConfigurationRelocated, Some(false)));
        return false;
      }
      SaveReceipt(k, Receipt(Completed, Some(true)));
      Write(disk.(marker := None));
      ok := true;
    }

    method FinishManifest(k: Plan, previous: Option<bool>, w: World) returns (ok: bool)
      modifies this
      ensures var e := ManifestPhase(old(disk), k, previous, w);
        ok == e.ok && written == old(written) + e.writes && disk == LastOf(old(disk), e.writes)
    {
      if disk.manifest != k.after {
        if w.readOnlyLater {
          SaveReceipt(k, Receipt(BindingRelocated, Some(false)));
          return false;
        }
        if w.foreign.Some? && w.foreign.value != disk.manifest {
          Write(disk.(manifest := w.foreign.value));
          SaveReceipt(k, Receipt(BindingRelocated, Some(false)));
          return false;
        }
        Write(disk.(manifest := k.after));
      }
      SaveReceipt(k, Receipt(ConfigurationRelocated, previous));
      ok := FinishIndex(k, w);
    }

    method FinishBinding(k: Plan, r: Receipt, w: World) returns (ok: bool)
      modifies this
      ensures var e := BindingPhase(old(disk), k, r, w);
        ok == e.ok && written == old(written) + e.writes && disk == LastOf(old(disk), e.writes)
    {
      if disk.binding.locator == k.source.locator {
        if w.collision {
          SaveReceipt(k, r.(ok := Some(false)));
          return false;
        }
        Write(disk.(binding := Relocated(disk.binding, k)));
      }
      SaveReceipt(k, r.(outcome := BindingRelocated));
      ghost var first := written;
      ghost var rest := ManifestPhase(disk, k, r.ok, w);
      ok := FinishManifest(k, r.ok, w);
      assert written == first + rest.writes;
    }

    method FinishMarker(k: Plan, r: Receipt, w: World) returns (ok: bool)
      requires disk.marker.None? || disk.marker == Some(k)
      modifies this
      ensures var e := MarkerPhase(old(disk), k, r, w);
        ok == e.ok && written == old(written) + e.writes && disk == LastOf(old(disk), e.writes)
    {
      if disk.marker.None? {
        var marked := disk.(marker := Some(k));
        Write(marked);
        ok := FinishBinding(k, r, w);
        Regroup(old(written), [marked], BindingPhase(marked, k, r, w).writes);
      } else {
        ok := FinishBinding(k, r, w);
      }
    }

    method FinishRelocation(k: Plan, r: Receipt, w: World) returns (ok: bool)
      modifies this
      ensures var e := Finish(old(disk), k, r, w);
        ok == e.ok && written == old(written) + e.writes && disk == LastOf(old(disk), e.writes)
    {
      if Checks(disk, k, w) {
        ok := FinishMarker(k, r, w);
      } else {
        SaveReceipt(k, r.(ok := Some(false)));
        ok := false;
      }
    }

    method RecoverRelocation(k: Plan, w: World) returns (ok: bool)
      modifies this
      ensures var e := Recover(old(disk), k, w);
        ok == e.ok && written == old(written) + e.writes && disk == LastOf(old(disk), e.writes)
    {
      if k !in disk.dirs || disk.dirs[k].None? {
        return false;
      }
      var r := disk.dirs[k].value;
      if r.outcome == Completed && disk.marker.None? {
        return true;
      }
      ok := FinishRelocation(k, r, w);
    }

    method AcceptRelocation(k: Plan, w: World) returns (ok: bool)
      modifies this
      ensures var e := Relocate(old(disk), k, w);
        ok == e.ok && written == old(written) + e.writes && disk == LastOf(old(disk), e.writes)
    {
      if k in disk.dirs && disk.dirs[k].Some? {
        return disk.dirs[k].value.outcome == Completed;
      }
      if !Planned(disk, k, w) || disk.marker.Some? || k in disk.dirs {
        return false;
      }
      Write(disk.(dirs := disk.dirs[k := None]));
      var r := Receipt(Pending, None);
      SaveReceipt(k, r);
      assert disk.dirs == Saved(old(disk), k, r).dirs;
      Write(disk.(marker := Some(k)));
      ok := FinishRelocation(k, r, w);
    }
  }
}
