/**
 The inspector's child processes: admission, slots, timeouts, output limits and the single retry of the
 `--json` flag at its other position. Events arrive one at a time, in any order the event loop picks.
 */
module Inspector {
  import opened Prelude

  const STDOUT_LIMIT: nat := 8 * 1024 * 1024

  /** `text`: what was collected of stderr and stdout. */
  datatype Result = Result(code: Option<int>, text: string, timedOut: bool)

  /** A child that timed out reports neither a code nor any output. */
  const TIMED_OUT := Result(None, "", true)

  /** A child that could not be started, or a signal that could not be sent. */
  function Failed(message: string): Result {
    Result(Some(-1), message, false)
  }

  function Exited(code: int, text: string): Result {
    Result(Some(code), text, false)
  }

  predicate Contains(s: string, part: string) {
    part <= s || (s != "" && Contains(s[1..], part))
  }

  function Lower(s: string): (r: string)
    ensures |r| == |s|
  {
    seq(|s|, i requires 0 <= i < |s| => if 'A' <= s[i] <= 'Z' then (s[i] as int + 32) as char else s[i])
  }

  /** The output says `--json` was not understood where it stood. */
  predicate MentionsUnknownFlag(text: string) {
    var s := Lower(text);
    Contains(s, "--json") && (Contains(s, "unexpected argument") || Contains(s, "unknown") || Contains(s, "unrecognized"))
  }

  predicate Rejected(r: Result) {
    r.code != Some(0) && MentionsUnknownFlag(r.text)
  }

  /**
   One child: `spawned` if the system started it, `live` until it closes, `released` once its slot was given back, `kills` counts signals
   tried and `armed` says a hard kill will follow. `seen` is what it wrote to stdout, `kept` what was collected. `retryOf` names the rejected
   child a retry repeats, and `resumed` says its command went on after the result.
   */
  datatype Child = Child(
    write: bool, spawned: bool, live: bool, released: bool, kills: nat, killFailed: bool, armed: bool,
    seen: Bytes, kept: Bytes, result: Option<Result>, retryOf: Option<nat>, resumed: bool)

  /** `trailing`: `--json` goes last. `running` is the counter admission looks at. */
  datatype Bridge = Bridge(children: seq<Child>, running: nat, trailing: bool)

  const IDLE := Bridge([], 0, false)

  datatype Event =
    | Command(write: bool, spawned: bool)
    | Timeout(child: nat, refused: Option<string>)
    | HardKill(child: nat)
    | Stdout(child: nat, chunk: Bytes)
    | Close(child: nat, code: int, text: string)
    | Error(child: nat, message: string)
    | Resume(child: nat, spawned: bool)

  function Spawn(b: Bridge, write: bool, spawned: bool, retryOf: Option<nat>): Bridge {
    b.(children := b.children + [Child(write, spawned, spawned, false, 0, false, false, [], [], None, retryOf, false)], running := b.running + 1)
  }

  function Finished(c: Child, r: Result): Child {
    if c.result.Some? then c else c.(result := Some(r))
  }

  /** The slot goes back once, whatever reports first. */
  function Release(b: Bridge, i: nat, c: Child): Bridge
    requires i < |b.children|
  {
    Bridge(b.children[i := c.(released := true)], if c.released || b.running == 0 then b.running else b.running - 1, b.trailing)
  }

  function Signalled(c: Child): Child {
    c.(kills := c.kills + 1)
  }

  /** A writer is only no longer waited for; a reader is signalled, and killed a while later. */
  function OnTimeout(c: Child): Child {
    if c.write then Finished(c, TIMED_OUT) else Finished(Signalled(c).(armed := true), TIMED_OUT)
  }

  /** When the signal cannot be sent, that error is reported from within, before the timeout. */
  function OnRefused(c: Child, message: string): Child {
    Finished(Signalled(c).(armed := true, killFailed := true), Failed(message))
  }

  function OnStdout(c: Child, chunk: Bytes): Child {
    var seen := c.seen + chunk;
    if |seen| > STDOUT_LIMIT then c.(seen := seen, kills := if c.write then c.kills else c.kills + 1)
    else c.(seen := seen, kept := c.kept + chunk)
  }

  /**
   A timer fires only while its child has no result; only a running reader's signal can be refused; a hard
   kill follows a read's timeout; an error is a failed spawn or a failed kill; a command goes on once its
   first child has a result.
   */
  predicate Enabled(b: Bridge, e: Event) {
    match e
    case Command(_, _) => true
    case Timeout(i, refused) =>
      i < |b.children| && b.children[i].result.None? && (refused.Some? ==> !b.children[i].write && b.children[i].spawned && b.children[i].live)
    case HardKill(i) => i < |b.children| && b.children[i].armed
    case Stdout(i, _) => i < |b.children| && b.children[i].live
    case Close(i, _, _) => i < |b.children| && b.children[i].live
    case Error(i, _) => i < |b.children| && (if b.children[i].spawned then b.children[i].live && b.children[i].kills > 0 else !b.children[i].released)
    case Resume(i, _) => i < |b.children| && b.children[i].result.Some? && !b.children[i].resumed && b.children[i].retryOf.None?
  }

  function Apply(b: Bridge, e: Event, concurrent: nat): Bridge
    requires Enabled(b, e)
  {
    match e
    case Command(write, spawned) => if b.running >= concurrent then b else Spawn(b, write, spawned, None)
    case Timeout(i, refused) =>
      if refused.Some? then Release(b, i, OnRefused(b.children[i], refused.value))
      else b.(children := b.children[i := OnTimeout(b.children[i])])
    case HardKill(i) => b.(children := b.children[i := Signalled(b.children[i]).(armed := false)])
    case Stdout(i, chunk) => b.(children := b.children[i := OnStdout(b.children[i], chunk)])
    case Close(i, code, text) => Release(b, i, Finished(b.children[i], Exited(code, text)).(live := false))
    case Error(i, message) => Release(b, i, Finished(b.children[i], Failed(message)).(killFailed := b.children[i].live))
    case Resume(i, spawned) =>
      var c := b.children[i];
      var b1 := b.(children := b.children[i := c.(resumed := true)]);
      if Rejected(c.result.value) && !b.trailing then Spawn(b1.(trailing := true), c.write, spawned, Some(i))
      else b1
  }

  // ---------------------------------------------------------------- counting

  function Held(cs: seq<Child>): nat {
    if cs == [] then 0 else (if cs[0].released then 0 else 1) + Held(cs[1..])
  }

  function Live(cs: seq<Child>): nat {
    if cs == [] then 0 else (if cs[0].live then 1 else 0) + Live(cs[1..])
  }

  function Retries(cs: seq<Child>): nat {
    if cs == [] then 0 else (if cs[0].retryOf.Some? then 1 else 0) + Retries(cs[1..])
  }

  lemma {:induction false} CountsAppend(cs: seq<Child>, c: Child)
    ensures Held(cs + [c]) == Held(cs) + (if c.released then 0 else 1)
    ensures Retries(cs + [c]) == Retries(cs) + (if c.retryOf.Some? then 1 else 0)
  {
    if cs == [] {
      assert [] + [c] == [c];
    } else {
      assert (cs + [c])[1..] == cs[1..] + [c];
      CountsAppend(cs[1..], c);
    }
  }

  lemma {:induction false} CountsUpdate(cs: seq<Child>, i: nat, c: Child)
    requires i < |cs|
    ensures Held(cs[i := c]) == Held(cs) - (if cs[i].released then 0 else 1) + (if c.released then 0 else 1)
    ensures Retries(cs[i := c]) == Retries(cs) - (if cs[i].retryOf.Some? then 1 else 0) + (if c.retryOf.Some? then 1 else 0)
    ensures cs[i].released || Held(cs) > 0
  {
    if i > 0 {
      assert cs[i := c][1..] == cs[1..][i - 1 := c];
      CountsUpdate(cs[1..], i - 1, c);
    }
  }

  /** Every live child is counted when all of them hold their slots. */
  lemma {:induction false} LiveWithinHeld(cs: seq<Child>)
    requires forall c <- cs :: c.live ==> !c.released
    ensures Live(cs) <= Held(cs)
  {
    if cs != [] {
      LiveWithinHeld(cs[1..]);
    }
  }

  lemma {:induction false} LiveIsHeld(cs: seq<Child>)
    requires forall c <- cs :: c.live <==> !c.released
    ensures Live(cs) == Held(cs)
  {
    if cs != [] {
      LiveIsHeld(cs[1..]);
    }
  }

  // ---------------------------------------------------------------- what every state keeps

  ghost predicate ChildKept(c: Child) {
    // a live child has its slot, unless a kill of it failed
    && (c.live ==> c.spawned) && (c.killFailed ==> c.spawned)
    && (c.spawned ==> (c.released <==> c.killFailed || !c.live))
    && (c.live && c.result.Some? && !c.killFailed ==> c.result.value.timedOut)
    && (c.result.Some? && c.result.value.timedOut ==> c.result.value == TIMED_OUT)
    // a writer is never signalled
    && (c.write ==> c.kills == 0 && !c.armed) && (c.killFailed ==> c.kills > 0)
    // what was collected is a prefix of the output, whole within the limit
    && c.kept <= c.seen && |c.kept| <= STDOUT_LIMIT && (|c.seen| <= STDOUT_LIMIT ==> c.kept == c.seen)
  }

  ghost predicate RetryKept(cs: seq<Child>, c: Child) {
    c.retryOf.Some? ==>
      && c.retryOf.value < |cs| && cs[c.retryOf.value].write == c.write
      && cs[c.retryOf.value].result.Some? && Rejected(cs[c.retryOf.value].result.value)
  }

  ghost predicate RetriesKept(cs: seq<Child>) {
    forall i :: 0 <= i < |cs| ==> RetryKept(cs, cs[i])
  }

  ghost predicate Inv(b: Bridge, concurrent: nat) {
    && b.running == Held(b.children)
    && b.running <= concurrent + Retries(b.children)
    && Retries(b.children) == (if b.trailing then 1 else 0)
    && (forall c <- b.children :: ChildKept(c)) && RetriesKept(b.children)
  }

  /** A child keeps what it was started as, and its result once it has one. */
  predicate Continues(c: Child, c': Child) {
    c'.write == c.write && c'.spawned == c.spawned && c'.retryOf == c.retryOf && (c.result.Some? ==> c'.result == c.result)
  }

  lemma UpdateKeeps(b: Bridge, i: nat, c: Child, concurrent: nat)
    requires Inv(b, concurrent) && i < |b.children| && Continues(b.children[i], c) && ChildKept(c)
    requires c.released == b.children[i].released
    ensures Inv(b.(children := b.children[i := c]), concurrent)
  {
    CountsUpdate(b.children, i, c);
  }

  lemma ReleaseKeeps(b: Bridge, i: nat, c: Child, concurrent: nat)
    requires Inv(b, concurrent) && i < |b.children| && Continues(b.children[i], c) && ChildKept(c.(released := true))
    requires c.released == b.children[i].released
    ensures Inv(Release(b, i, c), concurrent)
  {
    CountsUpdate(b.children, i, c.(released := true));
  }

  lemma SpawnKeeps(b: Bridge, write: bool, spawned: bool, retryOf: Option<nat>, concurrent: nat)
    requires b.running == Held(b.children) && Retries(b.children) + (if retryOf.Some? then 1 else 0) == (if b.trailing then 1 else 0)
    requires (forall c <- b.children :: ChildKept(c)) && RetriesKept(b.children)
    requires b.running < concurrent + Retries(b.children) + (if retryOf.Some? then 1 else 0)
    requires retryOf.Some? ==>
      && retryOf.value < |b.children| && b.children[retryOf.value].write == write
      && b.children[retryOf.value].result.Some? && Rejected(b.children[retryOf.value].result.value)
    ensures Inv(Spawn(b, write, spawned, retryOf), concurrent)
  {
    var c := Child(write, spawned, spawned, false, 0, false, false, [], [], None, retryOf, false);
    CountsAppend(b.children, c);
    assert forall x <- b.children + [c] :: x in b.children || x == c;
    var cs := b.children + [c];
    forall k | 0 <= k < |b.children|
      ensures RetryKept(cs, cs[k])
    {
      assert RetryKept(b.children, b.children[k]);
    }
  }

  lemma ResumeKeeps(b: Bridge, i: nat, spawned: bool, concurrent: nat)
    requires Inv(b, concurrent) && Enabled(b, Resume(i, spawned))
    ensures Inv(Apply(b, Resume(i, spawned), concurrent), concurrent)
  {
    var c := b.children[i];
    assert c in b.children;
    UpdateKeeps(b, i, c.(resumed := true), concurrent);
    var b1 := b.(children := b.children[i := c.(resumed := true)]);
    if Rejected(c.result.value) && !b.trailing {
      SpawnKeeps(b1.(trailing := true), c.write, spawned, Some(i), concurrent);
    }
  }

  lemma TimeoutKeeps(b: Bridge, i: nat, refused: Option<string>, concurrent: nat)
    requires Inv(b, concurrent) && Enabled(b, Timeout(i, refused))
    ensures Inv(Apply(b, Timeout(i, refused), concurrent), concurrent)
  {
    assert b.children[i] in b.children;
    if refused.Some? {
      ReleaseKeeps(b, i, OnRefused(b.children[i], refused.value), concurrent);
    } else {
      UpdateKeeps(b, i, OnTimeout(b.children[i]), concurrent);
    }
  }

  /** Events of one child that change no slot. */
  lemma ChildEventKeeps(b: Bridge, e: Event, concurrent: nat)
    requires Inv(b, concurrent) && Enabled(b, e) && (e.HardKill? || e.Stdout?)
    ensures Inv(Apply(b, e, concurrent), concurrent)
  {
    assert b.children[e.child] in b.children;
    match e
    case HardKill(i) => UpdateKeeps(b, i, Signalled(b.children[i]).(armed := false), concurrent);
    case Stdout(i, chunk) =>
      UpdateKeeps(b, i, OnStdout(b.children[i], chunk), concurrent);
  }

  lemma ApplyKeeps(b: Bridge, e: Event, concurrent: nat)
    requires Inv(b, concurrent) && Enabled(b, e)
    ensures Inv(Apply(b, e, concurrent), concurrent)
  {
    match e
    case Command(write, spawned) =>
      if b.running < concurrent {
        SpawnKeeps(b, write, spawned, None, concurrent);
      }
    case Timeout(i, refused) => TimeoutKeeps(b, i, refused, concurrent);
    case Close(i, code, text) =>
      assert b.children[i] in b.children;
      ReleaseKeeps(b, i, Finished(b.children[i], Exited(code, text)).(live := false), concurrent);
    case Error(i, message) =>
      assert b.children[i] in b.children;
      ReleaseKeeps(b, i, Finished(b.children[i], Failed(message)).(killFailed := b.children[i].live), concurrent);
    case Resume(i, spawned) => ResumeKeeps(b, i, spawned, concurrent);
    case _ => ChildEventKeeps(b, e, concurrent);
  }

  // ---------------------------------------------------------------- runs

  ghost predicate Possible(b: Bridge, events: seq<Event>, concurrent: nat)
    decreases |events|
  {
    events != [] ==> Enabled(b, events[0]) && Possible(Apply(b, events[0], concurrent), events[1..], concurrent)
  }

  ghost function After(b: Bridge, events: seq<Event>, concurrent: nat): Bridge
    requires Possible(b, events, concurrent)
    decreases |events|
  {
    if events == [] then b else After(Apply(b, events[0], concurrent), events[1..], concurrent)
  }

  lemma {:induction false} RunKeeps(b: Bridge, events: seq<Event>, concurrent: nat)
    requires Inv(b, concurrent) && Possible(b, events, concurrent)
    ensures Inv(After(b, events, concurrent), concurrent)
    decreases |events|
  {
    if events != [] {
      ApplyKeeps(b, events[0], concurrent);
      RunKeeps(Apply(b, events[0], concurrent), events[1..], concurrent);
    }
  }

  /**
   After any interleaving: the counter is the number of slots held, at most one above the limit and only
   once the flag position changed; the flag is retried at most once; no writer was ever signalled.
   */
  lemma SlotsBounded(events: seq<Event>, concurrent: nat)
    requires Possible(IDLE, events, concurrent)
    ensures var b := After(IDLE, events, concurrent);
      && b.running == Held(b.children) <= concurrent + (if b.trailing then 1 else 0)
      && Retries(b.children) <= 1
      && (forall c <- b.children :: c.write ==> c.kills == 0)
      && (forall c <- b.children :: c.kept <= c.seen && (|c.seen| <= STDOUT_LIMIT ==> c.kept == c.seen))
  {
    RunKeeps(IDLE, events, concurrent);
  }

  /**
   Every live child, timed out or not, keeps its slot if and only if no kill of a still running child
   failed; then live children are within the bound too.
   */
  lemma LiveChildrenCountedIff(events: seq<Event>, concurrent: nat)
    requires Possible(IDLE, events, concurrent)
    ensures var b := After(IDLE, events, concurrent);
      && ((forall c <- b.children :: c.live ==> !c.released) <==> (forall c <- b.children :: c.live ==> !c.killFailed))
      && ((forall c <- b.children :: c.live ==> !c.killFailed) ==> Live(b.children) <= b.running <= concurrent + 1)
      && ((forall c <- b.children :: c.spawned && (c.live ==> !c.killFailed)) ==> b.running == Live(b.children))
  {
    RunKeeps(IDLE, events, concurrent);
    var b := After(IDLE, events, concurrent);
    if forall c <- b.children :: c.live ==> !c.killFailed {
      LiveWithinHeld(b.children);
      if forall c <- b.children :: c.spawned {
        LiveIsHeld(b.children);
      }
    }
  }

  /** A result without output is no rejection of the flag. */
  lemma SilenceIsNoRejection(r: Result)
    requires r.text == ""
    ensures !Rejected(r)
  {
  }

  /** A command whose outcome is unknown because it timed out is never repeated by the retry: it reported no output. */
  lemma TimedOutNeverRetried(events: seq<Event>, concurrent: nat, c: Child)
    requires Possible(IDLE, events, concurrent) && c in After(IDLE, events, concurrent).children && c.retryOf.Some?
    ensures var b := After(IDLE, events, concurrent);
      c.retryOf.value < |b.children| && b.children[c.retryOf.value].result.Some?
      && !b.children[c.retryOf.value].result.value.timedOut
  {
    RunKeeps(IDLE, events, concurrent);
    var b := After(IDLE, events, concurrent);
    var k :| 0 <= k < |b.children| && b.children[k] == c;
    assert RetryKept(b.children, b.children[k]);
    var first := b.children[c.retryOf.value];
    assert first in b.children;
    if first.result.value.timedOut {
      SilenceIsNoRejection(first.result.value);
    }
  }

  /** A result, once given, is the one the command keeps. */
  lemma FirstResultStays(b: Bridge, e: Event, concurrent: nat, i: nat)
    requires Enabled(b, e) && i < |b.children| && b.children[i].result.Some?
    ensures i < |Apply(b, e, concurrent).children| && Apply(b, e, concurrent).children[i].result == b.children[i].result
  {
  }

  lemma Last(b: Bridge, events: seq<Event>, end: Bridge, concurrent: nat)
    requires events != [] && Enabled(b, events[|events| - 1]) && Apply(b, events[|events| - 1], concurrent) == end
    ensures var last := events[|events| - 1..];
      Possible(b, last, concurrent) && After(b, last, concurrent) == end
  {
    var last := events[|events| - 1..];
    assert last[1..] == [];
    assert Possible(end, [], concurrent) && After(end, [], concurrent) == end;
  }

  lemma Before(b: Bridge, events: seq<Event>, i: nat, concurrent: nat)
    requires i < |events| && Enabled(b, events[i]) && Possible(Apply(b, events[i], concurrent), events[i + 1..], concurrent)
    ensures Possible(b, events[i..], concurrent)
    ensures After(b, events[i..], concurrent) == After(Apply(b, events[i], concurrent), events[i + 1..], concurrent)
  {
    assert events[i..][1..] == events[i + 1..];
  }

  /** A failed kill gives away the slot of a child that still runs: one slot, two live children. */
  lemma FailedKillOvercommits()
    ensures exists events: seq<Event> ::
      Possible(IDLE, events, 1) && !After(IDLE, events, 1).trailing && Live(After(IDLE, events, 1).children) == 2
  {
    var events := [Command(false, true), Timeout(0, Some("")), Command(false, true)];
    var c := Child(false, true, true, false, 0, false, false, [], [], None, None, false);
    var b1 := Bridge([c], 1, false);
    var b2 := Bridge([c.(kills := 1, armed := true, result := Some(Failed("")), killFailed := true, released := true)], 0, false);
    var b3 := Bridge(b2.children + [c], 1, false);
    assert [c][1..] == [] && Live([c]) == 1;
    assert b3.children[1..] == [c] && b3.children[0].live;
    Last(b2, events, b3, 1);
    Before(b1, events, 1, 1);
    Before(IDLE, events, 0, 1);
    assert events[0..] == events;
  }

  lemma {:induction false} ContainsAt(s: string, part: string, i: nat)
    requires i + |part| <= |s| && s[i..i + |part|] == part
    ensures Contains(s, part)
    decreases i
  {
    if i > 0 {
      assert s[1..][i - 1..i - 1 + |part|] == part;
      ContainsAt(s[1..], part, i - 1);
    }
  }

  lemma FlagRejection(text: string)
    requires text == "unknown --json"
    ensures MentionsUnknownFlag(text)
  {
    var s := Lower(text);
    assert s == text;
    ContainsAt(s, "--json", 8);
    ContainsAt(s, "unknown", 0);
  }

  /** The retry is not admitted: while another command took the freed slot, it makes one too many. */
  lemma RetryExceedsLimit()
    ensures exists events: seq<Event> :: Possible(IDLE, events, 1) && After(IDLE, events, 1).running == 2
  {
    var text := "unknown --json";
    FlagRejection(text);
    RetryAfter(text);
  }

  lemma RetryAfter(text: string)
    requires MentionsUnknownFlag(text)
    ensures exists events: seq<Event> :: Possible(IDLE, events, 1) && After(IDLE, events, 1).running == 2
  {
    var events := [Command(false, true), Close(0, 2, text), Command(false, true), Resume(0, true)];
    var c := Child(false, true, true, false, 0, false, false, [], [], None, None, false);
    var d := c.(result := Some(Exited(2, text)), live := false, released := true);
    var b1, b2, b3 := Bridge([c], 1, false), Bridge([d], 0, false), Bridge([d] + [c], 1, false);
    var b4 := Bridge([d.(resumed := true), c] + [c.(retryOf := Some(0))], 2, true);
    assert Apply(IDLE, events[0], 1) == b1 && Apply(b1, events[1], 1) == b2 && Apply(b2, events[2], 1) == b3;
    assert Apply(b3, events[3], 1) == b4;
    Last(b3, events, b4, 1);
    Before(b2, events, 2, 1);
    Before(b1, events, 1, 1);
    Before(IDLE, events, 0, 1);
    assert events[0..] == events;
  }

  // ---------------------------------------------------------------- the bridge

  class Server {
    const concurrent: nat
    var children: seq<Child>
    var running: nat
    var trailing: bool

    ghost function State(): Bridge
      reads this
    {
      Bridge(children, running, trailing)
    }

    constructor (concurrent: nat)
      ensures this.concurrent == concurrent && State() == IDLE
    {
      this.concurrent := concurrent;
      children, running, trailing := [], 0, false;
    }

    method Execute(write: bool, spawned: bool, retryOf: Option<nat>)
      modifies this
      ensures State() == Spawn(old(State()), write, spawned, retryOf)
    {
      children := children + [Child(write, spawned, spawned, false, 0, false, false, [], [], None, retryOf, false)];
      running := running + 1;
    }

    method RunCommand(write: bool, spawned: bool) returns (busy: bool)
      modifies this
      ensures State() == Apply(old(State()), Command(write, spawned), concurrent)
      ensures busy == (old(running) >= concurrent)
    {
      busy := running >= concurrent;
      if !busy {
        Execute(write, spawned, None);
      }
    }

    method Finish(i: nat, r: Result)
      requires i < |children|
      modifies this`children
      ensures children == old(children)[i := Finished(old(children[i]), r)]
    {
      if children[i].result.None? {
        children := children[i := children[i].(result := Some(r))];
      }
    }

    method Kill(i: nat)
      requires i < |children|
      modifies this`children
      ensures children == old(children)[i := old(children[i]).(kills := old(children[i]).kills + 1)]
    {
      children := children[i := children[i].(kills := children[i].kills + 1)];
    }

    /** `refused`: sending the signal fails, and its error is reported while the timer still runs. */
    method TimerFired(i: nat, refused: Option<string>)
      requires Enabled(State(), Timeout(i, refused))
      modifies this
      ensures State() == Apply(old(State()), Timeout(i, refused), concurrent)
    {
      if !children[i].write {
        Kill(i);
        if refused.Some? {
          ChildError(i, refused.value);
        }
        children := children[i := children[i].(armed := true)];
      }
      Finish(i, TIMED_OUT);
    }

    method StdoutData(i: nat, chunk: Bytes)
      requires Enabled(State(), Stdout(i, chunk))
      modifies this
      ensures State() == Apply(old(State()), Stdout(i, chunk), concurrent)
    {
      var seen := children[i].seen + chunk;
      children := children[i := children[i].(seen := seen)];
      if |seen| > STDOUT_LIMIT {
        if !children[i].write {
          Kill(i);
        }
      } else {
        children := children[i := children[i].(kept := children[i].kept + chunk)];
      }
    }

    method GiveBack(i: nat)
      requires i < |children|
      modifies this
      ensures State() == Release(old(State()), i, old(children[i]))
    {
      if !children[i].released && running > 0 {
        running := running - 1;
      }
      children := children[i := children[i].(released := true)];
    }

    method ChildClosed(i: nat, code: int, text: string)
      requires Enabled(State(), Close(i, code, text))
      modifies this
      ensures State() == Apply(old(State()), Close(i, code, text), concurrent)
    {
      children := children[i := children[i].(live := false)];
      GiveBack(i);
      Finish(i, Exited(code, text));
    }

    method ChildError(i: nat, message: string)
      requires Enabled(State(), Error(i, message))
      modifies this
      ensures State() == Apply(old(State()), Error(i, message), concurrent)
    {
      children := children[i := children[i].(killFailed := children[i].live)];
      GiveBack(i);
      Finish(i, Failed(message));
    }

    /** The rest of a command: one retry, with the flag at its other position and without admission. */
    method Continue(i: nat, spawned: bool) returns (retried: bool)
      requires Enabled(State(), Resume(i, spawned))
      modifies this
      ensures State() == Apply(old(State()), Resume(i, spawned), concurrent)
      ensures retried == (Rejected(old(children[i]).result.value) && !old(trailing))
    {
      var c := children[i];
      children := children[i := c.(resumed := true)];
      retried := Rejected(c.result.value) && !trailing;
      if retried {
        trailing := true;
        Execute(c.write, spawned, Some(i));
      }
    }
  }
}
