/**
 The inspector's GitHub observer: a cache of at most 200 pull requests, a first-in first-out queue of
 refreshes with two slots, and a rate. Its callbacks run one at a time, in any order the event loop
 picks. Times are milliseconds.
 */
module Observer {
  import opened Prelude

  const CAPACITY: nat := 200
  const SLOTS: nat := 2
  const READS: nat := 3

  /** A cached read; `task` is the refresh that fills it. */
  datatype Entry = Entry(url: nat, at: int, failed: bool, pending: bool, expiresAt: int, task: nat)

  datatype Task = Task(id: nat, url: nat)

  /** `cache` in insertion order; tasks are numbered as they are scheduled. */
  datatype World = World(
    cache: seq<Entry>, queue: seq<Task>, running: nat, blockedUntil: int,
    started: seq<Task>, settled: set<nat>, released: set<nat>, requests: map<nat, nat>, answers: map<nat, nat>)

  const EMPTY := World([], [], 0, 0, [], {}, {}, map[], map[])

  /**
   A caller's observation; a request of a running task; the answer to one, with what it says about limits;
   the delivery of a task's result; the release of its slot. The last two come in either order, and an
   answer may come after both: of two reads at a time the task waits for neither once one has failed.
   */
  datatype Event =
    | Observe(url: nat, now: int)
    | Request(id: nat, now: int)
    | Answer(id: nat, now: int, limited: bool, until: int)
    | Settle(id: nat, now: int, failed: bool)
    | Release(id: nat)

  function Max(a: int, b: int): int {
    if a < b then b else a
  }

  /** How long a good answer is kept: longer when more pull requests are watched. */
  function Retention(size: nat): int {
    Max(300000, size * 240000)
  }

  function Find(cache: seq<Entry>, url: nat): (i: nat)
    ensures i <= |cache| && (i < |cache| ==> cache[i].url == url)
    ensures forall k :: 0 <= k < i ==> cache[k].url != url
  {
    if cache == [] || cache[0].url == url then 0 else 1 + Find(cache[1..], url)
  }

  function FirstFinished(cache: seq<Entry>): (i: nat)
    ensures i <= |cache| && (i < |cache| ==> !cache[i].pending)
    ensures forall k :: 0 <= k < i ==> cache[k].pending
  {
    if cache == [] || !cache[0].pending then 0 else 1 + FirstFinished(cache[1..])
  }

  function FindTask(cache: seq<Entry>, id: nat): (i: nat)
    ensures i <= |cache| && (i < |cache| ==> cache[i].task == id)
    ensures forall k :: 0 <= k < i ==> cache[k].task != id
  {
    if cache == [] || cache[0].task == id then 0 else 1 + FindTask(cache[1..], id)
  }

  predicate Usable(e: Entry, size: nat, now: int) {
    e.pending || now < (if e.failed then e.expiresAt else e.at + Retention(size))
  }

  predicate Hit(w: World, url: nat, now: int) {
    var i := Find(w.cache, url);
    i < |w.cache| && Usable(w.cache[i], |w.cache|, now)
  }

  function Put(cache: seq<Entry>, e: Entry): seq<Entry> {
    var i := Find(cache, e.url);
    if i < |cache| then cache[i := e] else cache + [e]
  }

  /** Room for one more: at capacity the oldest finished entry goes; `None` when every entry is pending. */
  function MakeRoom(cache: seq<Entry>): Option<seq<Entry>> {
    if |cache| < CAPACITY then Some(cache)
    else
      var i := FirstFinished(cache);
      if i == |cache| then None else Some(cache[..i] + cache[i + 1..])
  }

  function Pump(w: World): World
    decreases |w.queue|
  {
    if w.running < SLOTS && w.queue != [] then
      Pump(w.(queue := w.queue[1..], running := w.running + 1, started := w.started + [w.queue[0]]))
    else w
  }

  function Scheduled(w: World): nat {
    |w.started| + |w.queue|
  }

  function AfterObserve(w: World, url: nat, now: int): World {
    if Hit(w, url, now) || MakeRoom(w.cache).None? then w
    else
      var id := Scheduled(w);
      var entry := Entry(url, now, false, true, now + 300000, id);
      Pump(w.(cache := Put(MakeRoom(w.cache).value, entry), queue := w.queue + [Task(id, url)]))
  }

  function RequestsOf(w: World, id: nat): nat {
    if id in w.requests then w.requests[id] else 0
  }

  function AnswersOf(w: World, id: nat): nat {
    if id in w.answers then w.answers[id] else 0
  }

  /** A request is refused while a limit lasts. */
  function AfterRequest(w: World, id: nat, now: int): World {
    if now < w.blockedUntil then w else w.(requests := w.requests[id := RequestsOf(w, id) + 1])
  }

  /** A limiting answer sets the limit or extends it. */
  function AfterAnswer(w: World, id: nat, now: int, limited: bool, until: int): World {
    w.(answers := w.answers[id := AnswersOf(w, id) + 1],
       blockedUntil := if limited then Max(w.blockedUntil, if until > now then until + 1000 else now + 900000) else w.blockedUntil)
  }

  function AfterSettle(w: World, id: nat, now: int, failed: bool): World {
    var i := FindTask(w.cache, id);
    var cache :=
      if i == |w.cache| then w.cache
      else if failed then w.cache[i := w.cache[i].(failed := true, expiresAt := Max(now + 60000, w.blockedUntil), pending := false)]
      else w.cache[i := w.cache[i].(pending := false)];
    w.(cache := cache, settled := w.settled + {id})
  }

  function AfterRelease(w: World, id: nat): World {
    if w.running == 0 then w else Pump(w.(running := w.running - 1, released := w.released + {id}))
  }

  /** A started task makes at most three requests, each answered at most once, delivers one result and releases its slot once. */
  predicate Enabled(w: World, e: Event) {
    match e
    case Observe(_, _) => true
    case Request(id, _) => id < |w.started| && id !in w.settled && RequestsOf(w, id) < READS
    case Answer(id, _, _, _) => AnswersOf(w, id) < RequestsOf(w, id)
    case Settle(id, _, _) => id < |w.started| && id !in w.settled
    case Release(id) => id < |w.started| && id !in w.released
  }

  function Apply(w: World, e: Event): World {
    match e
    case Observe(url, now) => AfterObserve(w, url, now)
    case Request(id, now) => AfterRequest(w, id, now)
    case Answer(id, now, limited, until) => AfterAnswer(w, id, now, limited, until)
    case Settle(id, now, failed) => AfterSettle(w, id, now, failed)
    case Release(id) => AfterRelease(w, id)
  }

  // ---------------------------------------------------------------- what every state keeps

  function All(w: World): seq<Task> {
    w.started + w.queue
  }

  ghost predicate Distinct(cache: seq<Entry>) {
    forall i, j :: 0 <= i < j < |cache| ==> cache[i].url != cache[j].url
  }

  /** Slots: never more than two, each held by a started task, and none idle while something waits. */
  ghost predicate SlotsKept(w: World) {
    && w.running <= SLOTS && (w.queue != [] ==> w.running == SLOTS)
    && w.running + |w.released| == |w.started| && (forall id <- w.released :: id < |w.started|)
  }

  /** First in, first out: tasks start in the order they were scheduled, each once. */
  ghost predicate InOrder(w: World) {
    forall i :: 0 <= i < |All(w)| ==> All(w)[i].id == i
  }

  ghost predicate HasTask(cache: seq<Entry>, id: nat) {
    exists e <- cache :: e.task == id
  }

  /** At most 200 entries, one per pull request; an entry is pending exactly while its task is unresolved. */
  ghost predicate CacheKept(w: World) {
    && |w.cache| <= CAPACITY && Distinct(w.cache)
    && (forall id <- w.settled :: id < |w.started|)
    && (forall e <- w.cache :: e.task < Scheduled(w) && All(w)[e.task].url == e.url && (e.pending <==> e.task !in w.settled))
    && (forall id :: 0 <= id < Scheduled(w) && id !in w.settled ==> HasTask(w.cache, id))
  }

  ghost predicate Inv(w: World) {
    SlotsKept(w) && InOrder(w) && CacheKept(w) && forall id <- w.requests :: w.requests[id] <= READS
  }

  /** Starting waiting tasks fills the slots and changes neither their order nor anything else. */
  lemma {:induction false} PumpKeeps(w: World)
    requires w.running <= SLOTS && w.running + |w.released| == |w.started| && forall id <- w.released :: id < |w.started|
    ensures var w' := Pump(w);
      && SlotsKept(w') && All(w') == All(w) && w.started <= w'.started
      && w' == w.(queue := w'.queue, running := w'.running, started := w'.started)
    decreases |w.queue|
  {
    if w.running < SLOTS && w.queue != [] {
      var w1 := w.(queue := w.queue[1..], running := w.running + 1, started := w.started + [w.queue[0]]);
      assert All(w1) == All(w);
      PumpKeeps(w1);
    }
  }

  lemma PutKeeps(cache: seq<Entry>, e: Entry)
    requires Distinct(cache)
    ensures var c := Put(cache, e);
      && Distinct(c) && e in c && |c| <= |cache| + 1
      && (forall x <- c :: x == e || (x in cache && x.url != e.url))
      && (forall x <- cache :: x.url != e.url ==> x in c)
  {
    var i, c := Find(cache, e.url), Put(cache, e);
    assert c[i] == e;
    forall x | x in cache && x.url != e.url
      ensures x in c
    {
      var k :| 0 <= k < |cache| && cache[k] == x;
      assert c[k] == x;
    }
  }

  /** What is evicted is finished; every pending entry stays. */
  lemma RoomKeeps(cache: seq<Entry>)
    requires Distinct(cache) && |cache| <= CAPACITY
    ensures MakeRoom(cache).None? <==> |cache| == CAPACITY && forall e <- cache :: e.pending
    ensures MakeRoom(cache).Some? ==>
      var c := MakeRoom(cache).value;
      && Distinct(c) && |c| < CAPACITY && (forall x <- c :: x in cache) && (forall x <- cache :: x.pending ==> x in c)
  {
    if |cache| == CAPACITY {
      var i := FirstFinished(cache);
      if i < |cache| {
        var c := cache[..i] + cache[i + 1..];
        assert cache[i] in cache;
        forall x | x in cache && x.pending
          ensures x in c
        {
          var k :| 0 <= k < |cache| && cache[k] == x;
          assert k < i ==> c[k] == x;
          assert k > i ==> c[k - 1] == x;
        }
        forall x | x in c
          ensures x in cache
        {
          var k :| 0 <= k < |c| && c[k] == x;
          assert x == cache[if k < i then k else k + 1];
        }
      }
    }
  }

  /** The cache after a refresh is scheduled, before slots are filled. */
  lemma ScheduleKeepsCache(w: World, url: nat, now: int)
    requires Inv(w) && !Hit(w, url, now) && MakeRoom(w.cache).Some?
    ensures var entry := Entry(url, now, false, true, now + 300000, Scheduled(w));
      CacheKept(w.(cache := Put(MakeRoom(w.cache).value, entry), queue := w.queue + [Task(Scheduled(w), url)]))
  {
    var room := MakeRoom(w.cache).value;
    var id := Scheduled(w);
    var entry := Entry(url, now, false, true, now + 300000, id);
    var w' := w.(cache := Put(room, entry), queue := w.queue + [Task(id, url)]);
    RoomKeeps(w.cache);
    PutKeeps(room, entry);
    assert All(w') == All(w) + [Task(id, url)];
    forall k | 0 <= k < Scheduled(w') && k !in w'.settled
      ensures HasTask(w'.cache, k)
    {
      if k == id {
        assert entry in w'.cache && entry.task == id;
      } else {
        var e :| e in w.cache && e.task == k;
        NotRefreshed(w, url, now, e);
        assert e in room && e in w'.cache;
      }
    }
  }

  /** A pending entry is not the one being refreshed. */
  lemma NotRefreshed(w: World, url: nat, now: int, e: Entry)
    requires CacheKept(w) && !Hit(w, url, now) && e in w.cache && e.task !in w.settled
    ensures e.pending && e.url != url
  {
    var k :| 0 <= k < |w.cache| && w.cache[k] == e;
    assert e.url == url ==> Find(w.cache, url) == k;
  }

  lemma PumpedCache(w: World)
    requires CacheKept(w) && All(Pump(w)) == All(w) && |w.started| <= |Pump(w).started|
    requires Pump(w) == w.(queue := Pump(w).queue, running := Pump(w).running, started := Pump(w).started)
    ensures CacheKept(Pump(w))
  {
    assert Scheduled(Pump(w)) == |All(Pump(w))|;
  }

  lemma ObserveKeeps(w: World, url: nat, now: int)
    requires Inv(w)
    ensures Inv(AfterObserve(w, url, now)) && All(w) <= All(AfterObserve(w, url, now))
    ensures AfterObserve(w, url, now).settled == w.settled && AfterObserve(w, url, now).requests == w.requests
  {
    if !Hit(w, url, now) && MakeRoom(w.cache).Some? {
      var id := Scheduled(w);
      var entry := Entry(url, now, false, true, now + 300000, id);
      var w1 := w.(cache := Put(MakeRoom(w.cache).value, entry), queue := w.queue + [Task(id, url)]);
      ScheduleKeepsCache(w, url, now);
      assert All(w1) == All(w) + [Task(id, url)];
      PumpKeeps(w1);
      PumpedCache(w1);
    }
  }

  lemma SettleKeeps(w: World, id: nat, now: int, failed: bool)
    requires Inv(w) && Enabled(w, Settle(id, now, failed))
    ensures Inv(AfterSettle(w, id, now, failed)) && All(AfterSettle(w, id, now, failed)) == All(w)
  {
    var w' := AfterSettle(w, id, now, failed);
    var i := FindTask(w.cache, id);
    var e :| e in w.cache && e.task == id;
    assert i < |w.cache|;
    SettledEntries(w, i, w'.cache[i]);
    assert w'.cache == w.cache[i := w'.cache[i]];
  }

  /** Resolving one entry: the others keep their tasks, unresolved ones stay pending. */
  lemma SettledEntries(w: World, i: nat, e: Entry)
    requires CacheKept(w) && i < |w.cache| && e.task == w.cache[i].task && e.url == w.cache[i].url && !e.pending
    requires e.task < |w.started|
    ensures CacheKept(w.(cache := w.cache[i := e], settled := w.settled + {e.task}))
  {
    var w' := w.(cache := w.cache[i := e], settled := w.settled + {e.task});
    SameTask(w, w.cache[i]);
    forall k | 0 <= k < Scheduled(w') && k !in w'.settled
      ensures HasTask(w'.cache, k)
    {
      var x :| x in w.cache && x.task == k;
      UpdateKeepsOthers(w.cache, i, e, x);
    }
    forall x | x in w'.cache
      ensures x.task < Scheduled(w') && All(w')[x.task].url == x.url && (x.pending <==> x.task !in w'.settled)
    {
      var j :| 0 <= j < |w'.cache| && w'.cache[j] == x;
      assert w.cache[j] in w.cache;
    }
  }

  /** One entry per task. */
  lemma SameTask(w: World, e: Entry)
    requires CacheKept(w) && e in w.cache
    ensures forall x <- w.cache :: x.task == e.task ==> x == e
  {
    forall x | x in w.cache && x.task == e.task
      ensures x == e
    {
      var i :| 0 <= i < |w.cache| && w.cache[i] == x;
      var j :| 0 <= j < |w.cache| && w.cache[j] == e;
      assert x.url == e.url;
    }
  }

  lemma {:induction false} Below(ids: set<nat>, n: nat)
    requires forall id <- ids :: id < n
    ensures |ids| <= n
    decreases n
  {
    if n == 0 {
      assert ids == {};
    } else {
      Below(ids - {n - 1}, n - 1);
      assert ids <= ids - {n - 1} + {n - 1};
    }
  }

  /** A started task that has not released its slot holds one. */
  lemma SlotHeld(w: World, id: nat)
    requires SlotsKept(w) && id < |w.started| && id !in w.released
    ensures w.running > 0
  {
    Below(w.released + {id}, |w.started|);
  }

  lemma ReleaseKeeps(w: World, id: nat)
    requires Inv(w) && Enabled(w, Release(id))
    ensures Inv(AfterRelease(w, id)) && All(AfterRelease(w, id)) == All(w)
  {
    SlotHeld(w, id);
    var w1 := w.(running := w.running - 1, released := w.released + {id});
    assert All(w1) == All(w);
    PumpKeeps(w1);
    PumpedCache(w1);
    assert AfterRelease(w, id) == Pump(w1);
  }

  /** Every event of any interleaving keeps the invariant, and no scheduled task is lost or reordered. */
  lemma ApplyKeeps(w: World, e: Event)
    requires Inv(w) && Enabled(w, e)
    ensures Inv(Apply(w, e)) && All(w) <= All(Apply(w, e))
  {
    match e
    case Observe(url, now) => ObserveKeeps(w, url, now);
    case Request(_, _) => assert All(Apply(w, e)) == All(w);
    case Answer(_, _, _, _) => assert All(Apply(w, e)) == All(w);
    case Settle(id, now, failed) => SettleKeeps(w, id, now, failed);
    case Release(id) => ReleaseKeeps(w, id);
  }

  // ---------------------------------------------------------------- runs

  function After(w: World, events: seq<Event>): World
    decreases |events|
  {
    if events == [] then w else After(Apply(w, events[0]), events[1..])
  }

  ghost predicate Possible(w: World, events: seq<Event>)
    decreases |events|
  {
    events != [] ==> Enabled(w, events[0]) && Possible(Apply(w, events[0]), events[1..])
  }

  lemma {:induction false} RunKeeps(w: World, events: seq<Event>)
    requires Inv(w) && Possible(w, events)
    ensures Inv(After(w, events)) && All(w) <= All(After(w, events))
    decreases |events|
  {
    if events != [] {
      ApplyKeeps(w, events[0]);
      RunKeeps(Apply(w, events[0]), events[1..]);
    }
  }

  /**
   After any interleaving from the start: at most two tasks hold slots and none is idle while a task
   waits; tasks have started in the order they were scheduled, each once; the cache is bounded.
   */
  lemma SlotsAndOrder(events: seq<Event>)
    requires Possible(EMPTY, events)
    ensures var w := After(EMPTY, events);
      && w.running <= SLOTS && (w.queue != [] ==> w.running == SLOTS) && |w.cache| <= CAPACITY
      && w.running == |w.started| - |w.released|
      && (forall i :: 0 <= i < |w.started| ==> w.started[i].id == i)
      && (forall i :: 0 <= i < |w.queue| ==> w.queue[i].id == |w.started| + i)
  {
    RunKeeps(EMPTY, events);
    Numbered(After(EMPTY, events));
  }

  lemma Numbered(w: World)
    requires InOrder(w)
    ensures forall i :: 0 <= i < |w.started| ==> w.started[i].id == i
    ensures forall i :: 0 <= i < |w.queue| ==> w.queue[i].id == |w.started| + i
  {
    forall i | 0 <= i < |w.started|
      ensures w.started[i].id == i
    {
      assert w.started[i] == All(w)[i];
    }
    forall i | 0 <= i < |w.queue|
      ensures w.queue[i].id == |w.started| + i
    {
      assert w.queue[i] == All(w)[|w.started| + i];
    }
  }

  /** Two unresolved tasks are for different pull requests. */
  lemma OneUnresolvedPerPullRequest(events: seq<Event>, a: nat, b: nat)
    requires Possible(EMPTY, events)
    requires var w := After(EMPTY, events); a < b < Scheduled(w) && a !in w.settled && b !in w.settled
    ensures var w := After(EMPTY, events); All(w)[a].url != All(w)[b].url
  {
    RunKeeps(EMPTY, events);
    var w := After(EMPTY, events);
    var x :| x in w.cache && x.task == a;
    var y :| y in w.cache && y.task == b;
    var i :| 0 <= i < |w.cache| && w.cache[i] == x;
    var j :| 0 <= j < |w.cache| && w.cache[j] == y;
    assert i != j;
  }

  lemma PendingSurvivesObserve(w: World, url: nat, now: int, x: Entry)
    requires Inv(w) && x in w.cache && x.pending
    ensures x in AfterObserve(w, url, now).cache
  {
    if !Hit(w, url, now) && MakeRoom(w.cache).Some? {
      var room := MakeRoom(w.cache).value;
      var entry := Entry(url, now, false, true, now + 300000, Scheduled(w));
      RoomKeeps(w.cache);
      NotRefreshed(w, url, now, x);
      PutKeeps(room, entry);
      PumpKeeps(w.(cache := Put(room, entry), queue := w.queue + [Task(Scheduled(w), url)]));
    }
  }

  lemma UpdateKeepsOthers(cache: seq<Entry>, i: nat, e: Entry, x: Entry)
    requires x in cache && i < |cache| && cache[i] != x
    ensures x in cache[i := e]
  {
    var k :| 0 <= k < |cache| && cache[k] == x;
    assert cache[i := e][k] == x;
  }

  lemma PendingSurvivesSettle(w: World, id: nat, now: int, failed: bool, x: Entry)
    requires x in w.cache && x.task != id
    ensures x in AfterSettle(w, id, now, failed).cache
  {
    var i, cache := FindTask(w.cache, id), AfterSettle(w, id, now, failed).cache;
    if i < |w.cache| {
      UpdateKeepsOthers(w.cache, i, cache[i], x);
      assert cache == w.cache[i := cache[i]];
    }
  }

  lemma ReleaseKeepsCache(w: World, id: nat)
    requires Inv(w) && Enabled(w, Release(id))
    ensures AfterRelease(w, id).cache == w.cache
  {
    SlotHeld(w, id);
    PumpKeeps(w.(running := w.running - 1, released := w.released + {id}));
  }

  /** A pending entry stays as it is until its own task delivers its result. */
  lemma PendingNeverEvicted(w: World, e: Event, x: Entry)
    requires Inv(w) && Enabled(w, e) && x in w.cache && x.pending
    requires !(e.Settle? && e.id == x.task)
    ensures x in Apply(w, e).cache
  {
    match e
    case Observe(url, now) => PendingSurvivesObserve(w, url, now, x);
    case Request(_, _) =>
    case Answer(_, _, _, _) =>
    case Settle(id, now, failed) => PendingSurvivesSettle(w, id, now, failed, x);
    case Release(id) => ReleaseKeepsCache(w, id);
  }

  /** While a limit lasts, whatever happens, no request is sent; answers to earlier ones only make it longer. */
  lemma {:induction false} NoRequestWhileLimited(w: World, events: seq<Event>)
    requires Inv(w) && Possible(w, events)
    requires forall e <- events :: e.Request? ==> e.now < w.blockedUntil
    ensures After(w, events).requests == w.requests && After(w, events).blockedUntil >= w.blockedUntil
    decreases |events|
  {
    if events != [] {
      var e := events[0];
      ApplyKeeps(w, e);
      if e.Observe? {
        ObserveKeeps(w, e.url, e.now);
        ObserveKeepsLimit(w, e.url, e.now);
      } else if e.Release? {
        SlotHeld(w, e.id);
        PumpKeeps(w.(running := w.running - 1, released := w.released + {e.id}));
      }
      NoRequestWhileLimited(Apply(w, e), events[1..]);
    }
  }

  lemma ObserveKeepsLimit(w: World, url: nat, now: int)
    requires Inv(w)
    ensures AfterObserve(w, url, now).blockedUntil == w.blockedUntil
  {
    if !Hit(w, url, now) && MakeRoom(w.cache).Some? {
      var entry := Entry(url, now, false, true, now + 300000, Scheduled(w));
      PumpKeeps(w.(cache := Put(MakeRoom(w.cache).value, entry), queue := w.queue + [Task(Scheduled(w), url)]));
    }
  }

  // ---------------------------------------------------------------- the request rate

  /** The watched pull requests are exactly the cached ones, each with a good answer or a pending read. */
  ghost predicate Watched(w: World, urls: seq<nat>) {
    && (forall i, j :: 0 <= i < j < |urls| ==> urls[i] != urls[j])
    && 0 < |urls| == |w.cache| < CAPACITY
    && (forall u <- urls :: Find(w.cache, u) < |w.cache|)
    && (forall e <- w.cache :: !e.failed)
  }

  /** Only watched pull requests are observed, every read succeeds, and the clock is within the window. */
  predicate Steady(e: Event, urls: seq<nat>, from: int, to: int) {
    && (e.Observe? ==> e.url in urls && from <= e.now <= to)
    && (e.Settle? ==> !e.failed)
  }

  /** Whether this event schedules a refresh of `url`. */
  predicate Refreshes(w: World, e: Event, url: nat) {
    e.Observe? && e.url == url && !Hit(w, url, e.now) && MakeRoom(w.cache).Some?
  }

  function Count(w: World, events: seq<Event>, url: nat): nat
    decreases |events|
  {
    if events == [] then 0
    else (if Refreshes(w, events[0], url) then 1 else 0) + Count(Apply(w, events[0]), events[1..], url)
  }

  function ReadAt(w: World, url: nat): int {
    var i := Find(w.cache, url);
    if i < |w.cache| then w.cache[i].at else 0
  }

  lemma FindAfterUpdate(cache: seq<Entry>, i: nat, e: Entry, url: nat)
    requires Distinct(cache) && i < |cache| && e.url == cache[i].url
    ensures Find(cache[i := e], url) == Find(cache, url)
  {
    var f, g := Find(cache, url), Find(cache[i := e], url);
    assert f < |cache| ==> cache[i := e][f].url == url;
    assert g < |cache| ==> cache[g].url == url;
  }

  lemma ObserveWatched(w: World, urls: seq<nat>, url: nat, now: int)
    requires Inv(w) && Watched(w, urls) && url in urls
    ensures var w' := AfterObserve(w, url, now);
      && Watched(w', urls)
      && (forall u <- urls :: u != url ==> ReadAt(w', u) == ReadAt(w, u))
      && ReadAt(w', url) == (if Hit(w, url, now) then ReadAt(w, url) else now)
  {
    if !Hit(w, url, now) {
      var i := Find(w.cache, url);
      var entry := Entry(url, now, false, true, now + 300000, Scheduled(w));
      var w1 := w.(cache := w.cache[i := entry], queue := w.queue + [Task(Scheduled(w), url)]);
      PumpKeeps(w1);
      forall u | u in urls
        ensures Find(w1.cache, u) == Find(w.cache, u)
      {
        FindAfterUpdate(w.cache, i, entry, u);
      }
      assert AfterObserve(w, url, now).cache == w1.cache;
    }
  }

  lemma SettleWatched(w: World, urls: seq<nat>, id: nat, now: int)
    requires Inv(w) && Watched(w, urls)
    ensures var w' := AfterSettle(w, id, now, false);
      Watched(w', urls) && forall u <- urls :: ReadAt(w', u) == ReadAt(w, u)
  {
    var i := FindTask(w.cache, id);
    if i < |w.cache| {
      forall u | u in urls
        ensures Find(w.cache[i := w.cache[i].(pending := false)], u) == Find(w.cache, u)
      {
        FindAfterUpdate(w.cache, i, w.cache[i].(pending := false), u);
      }
    }
  }

  lemma StepWatched(w: World, urls: seq<nat>, e: Event, from: int, to: int)
    requires Inv(w) && Enabled(w, e) && Watched(w, urls) && Steady(e, urls, from, to)
    ensures Inv(Apply(w, e)) && Watched(Apply(w, e), urls)
    ensures forall u <- urls :: ReadAt(Apply(w, e), u) == (if Refreshes(w, e, u) then e.now else ReadAt(w, u))
  {
    ApplyKeeps(w, e);
    match e
    case Observe(url, now) => ObserveWatched(w, urls, url, now);
    case Request(_, _) =>
    case Answer(_, _, _, _) =>
    case Settle(id, now, _) => SettleWatched(w, urls, id, now);
    case Release(id) =>
      SlotHeld(w, id);
      PumpKeeps(w.(running := w.running - 1, released := w.released + {id}));
  }

  /** A good answer is kept for the retention of the watched set. */
  lemma Spaced(w: World, urls: seq<nat>, e: Event, url: nat)
    requires Inv(w) && Watched(w, urls) && url in urls && Refreshes(w, e, url)
    ensures ReadAt(w, url) + Retention(|urls|) <= e.now
  {
    assert w.cache[Find(w.cache, url)] in w.cache;
  }

  lemma OneMore(c: nat, r: int, at: int, now: int, to: int)
    requires at + r <= now <= to && (c > 0 ==> c * r <= to - now)
    ensures (c + 1) * r <= to - at
  {
    assert (c + 1) * r == c * r + r;
  }

  lemma FirstOne(c: nat, r: int, from: int, now: int, to: int)
    requires from <= now <= to && (c > 0 ==> c * r <= to - now)
    ensures (c + 1) * r <= r + (to - from)
  {
    assert (c + 1) * r == c * r + r;
  }

  lemma {:induction false} RestBound(w: World, events: seq<Event>, urls: seq<nat>, url: nat, from: int, to: int)
    requires Inv(w) && Possible(w, events) && Watched(w, urls) && url in urls
    requires forall e <- events :: Steady(e, urls, from, to)
    ensures Count(w, events, url) > 0 ==> Count(w, events, url) * Retention(|urls|) <= to - ReadAt(w, url)
    decreases |events|
  {
    if events != [] {
      var e := events[0];
      var c, r := Count(Apply(w, e), events[1..], url), Retention(|urls|);
      StepWatched(w, urls, e, from, to);
      RestBound(Apply(w, e), events[1..], urls, url, from, to);
      if Refreshes(w, e, url) {
        Spaced(w, urls, e, url);
        OneMore(c, r, ReadAt(w, url), e.now, to);
      } else {
        assert Count(w, events, url) == c;
      }
    }
  }

  /** Refreshes of one pull request within a window are spaced by the retention. */
  lemma {:induction false} WindowBound(w: World, events: seq<Event>, urls: seq<nat>, url: nat, from: int, to: int)
    requires Inv(w) && Possible(w, events) && Watched(w, urls) && url in urls && from <= to
    requires forall e <- events :: Steady(e, urls, from, to)
    ensures Count(w, events, url) * Retention(|urls|) <= Retention(|urls|) + (to - from)
    decreases |events|
  {
    if events != [] {
      var e := events[0];
      var c, r := Count(Apply(w, e), events[1..], url), Retention(|urls|);
      StepWatched(w, urls, e, from, to);
      if Refreshes(w, e, url) {
        RestBound(Apply(w, e), events[1..], urls, url, from, to);
        FirstOne(c, r, from, e.now, to);
      } else {
        WindowBound(Apply(w, e), events[1..], urls, url, from, to);
        assert Count(w, events, url) == c;
      }
    }
  }

  function Sum(w: World, events: seq<Event>, urls: seq<nat>): nat {
    if urls == [] then 0 else Count(w, events, urls[0]) + Sum(w, events, urls[1..])
  }

  /** How many of the given pull requests an event refreshes: one or none. */
  function Share(w: World, e: Event, urls: seq<nat>): nat {
    if urls == [] then 0 else (if Refreshes(w, e, urls[0]) then 1 else 0) + Share(w, e, urls[1..])
  }

  lemma {:induction false} ShareIs(w: World, e: Event, urls: seq<nat>)
    requires forall i, j :: 0 <= i < j < |urls| ==> urls[i] != urls[j]
    ensures Share(w, e, urls) == if exists u <- urls :: Refreshes(w, e, u) then 1 else 0
  {
    if urls != [] {
      ShareIs(w, e, urls[1..]);
      if Refreshes(w, e, urls[0]) {
        assert forall u <- urls[1..] :: u != urls[0];
      } else {
        assert forall u <- urls :: u == urls[0] || u in urls[1..];
      }
    }
  }

  lemma {:induction false} SumStep(w: World, events: seq<Event>, urls: seq<nat>)
    requires events != []
    ensures Sum(w, events, urls) == Share(w, events[0], urls) + Sum(Apply(w, events[0]), events[1..], urls)
  {
    if urls != [] {
      SumStep(w, events, urls[1..]);
    }
  }

  lemma {:induction false} SumNothing(w: World, urls: seq<nat>)
    ensures Sum(w, [], urls) == 0
  {
    if urls != [] {
      SumNothing(w, urls[1..]);
    }
  }

  lemma ScheduledStep(w: World, urls: seq<nat>, e: Event, from: int, to: int)
    requires Inv(w) && Enabled(w, e) && Watched(w, urls) && Steady(e, urls, from, to)
    ensures Scheduled(Apply(w, e)) == Scheduled(w) + Share(w, e, urls)
  {
    ShareIs(w, e, urls);
    ApplyKeeps(w, e);
    match e
    case Observe(url, now) =>
      if !Hit(w, url, now) {
        var entry := Entry(url, now, false, true, now + 300000, Scheduled(w));
        var w1 := w.(cache := Put(w.cache, entry), queue := w.queue + [Task(Scheduled(w), url)]);
        PumpKeeps(w1);
        assert |All(Pump(w1))| == |All(w1)|;
        assert Refreshes(w, e, url);
      }
    case Request(_, _) =>
    case Answer(_, _, _, _) =>
    case Settle(_, _, _) =>
    case Release(id) =>
      ReleaseKeeps(w, id);
      assert |All(Apply(w, e))| == |All(w)|;
  }

  /** The tasks scheduled during the events are the refreshes of the watched pull requests. */
  lemma {:induction false} ScheduledAreRefreshes(w: World, events: seq<Event>, urls: seq<nat>, from: int, to: int)
    requires Inv(w) && Possible(w, events) && Watched(w, urls)
    requires forall e <- events :: Steady(e, urls, from, to)
    ensures Scheduled(After(w, events)) - Scheduled(w) == Sum(w, events, urls)
    decreases |events|
  {
    if events == [] {
      SumNothing(w, urls);
    } else {
      StepWatched(w, urls, events[0], from, to);
      ScheduledStep(w, urls, events[0], from, to);
      SumStep(w, events, urls);
      ScheduledAreRefreshes(Apply(w, events[0]), events[1..], urls, from, to);
    }
  }

  lemma AddBounds(c: nat, k: nat, r: int, n: nat, bound: int)
    requires n > 0 && c * r <= bound && k * r <= (n - 1) * bound
    ensures (c + k) * r <= n * bound
  {
    assert (c + k) * r == c * r + k * r;
    assert n * bound == (n - 1) * bound + bound;
  }

  lemma {:induction false} SumBound(w: World, events: seq<Event>, urls: seq<nat>, part: seq<nat>, from: int, to: int)
    requires Inv(w) && Possible(w, events) && Watched(w, urls) && from <= to
    requires forall e <- events :: Steady(e, urls, from, to)
    requires forall u <- part :: u in urls
    ensures Sum(w, events, part) * Retention(|urls|) <= |part| * (Retention(|urls|) + (to - from))
    decreases |part|
  {
    if part != [] {
      WindowBound(w, events, urls, part[0], from, to);
      SumBound(w, events, urls, part[1..], from, to);
      AddBounds(Count(w, events, part[0]), Sum(w, events, part[1..]), Retention(|urls|), |part|, Retention(|urls|) + (to - from));
    }
  }

  /** Counting with the slower of the two retentions only lowers the rate. */
  lemma PerWindow(total: nat, n: nat, window: nat, retention: nat)
    requires n > 0 && retention >= 240000 * n && total * retention <= n * (retention + window)
    ensures 240000 * total <= 240000 * n + window
  {
    if total > n {
      var extra := total - n;
      assert extra * retention == total * retention - n * retention;
      assert n * (retention + window) == n * retention + n * window;
      assert extra * retention <= n * window;
      assert extra * (240000 * n) <= extra * retention;
      assert extra * (240000 * n) == n * (240000 * extra);
      assert n * (240000 * extra) <= n * window;
      Cancel(n, 240000 * extra, window);
    }
  }

  lemma Cancel(n: nat, a: nat, b: nat)
    requires n > 0 && n * a <= n * b
    ensures a <= b
  {
    if a > b {
      Larger(n, a, b);
    }
  }

  lemma Larger(n: nat, a: nat, b: nat)
    requires n > 0 && a > b
    ensures n * a > n * b
  {
    assert n * a == n * b + n * (a - b);
  }

  /** The requests made by `count` tasks from the given one on. */
  function RequestSum(w: World, first: nat, count: nat): nat
    decreases count
  {
    if count == 0 then 0 else RequestsOf(w, first) + RequestSum(w, first + 1, count - 1)
  }

  lemma {:induction false} AtMostThreeEach(w: World, first: nat, count: nat)
    requires Inv(w)
    ensures RequestSum(w, first, count) <= READS * count
    decreases count
  {
    if count > 0 {
      AtMostThreeEach(w, first + 1, count - 1);
    }
  }

  /**
   With n watched pull requests and good reads only, the refreshes scheduled within W milliseconds make,
   whenever their requests are sent, at most 3n + 3W/240000 requests: 45 an hour in the long run.
   */
  lemma RequestRate(w: World, events: seq<Event>, later: seq<Event>, urls: seq<nat>, from: int, to: int)
    requires Inv(w) && Possible(w, events) && Watched(w, urls) && from <= to
    requires forall e <- events :: Steady(e, urls, from, to)
    requires Possible(After(w, events), later)
    ensures Scheduled(w) <= Scheduled(After(w, events))
    ensures var made := Scheduled(After(w, events)) - Scheduled(w);
      240000 * RequestSum(After(After(w, events), later), Scheduled(w), made) <= READS * (240000 * |urls| + (to - from))
  {
    var w1 := After(w, events);
    RunKeeps(w, events);
    RunKeeps(w1, later);
    ScheduledAreRefreshes(w, events, urls, from, to);
    SumBound(w, events, urls, urls, from, to);
    PerWindow(Sum(w, events, urls), |urls|, to - from, Retention(|urls|));
    AtMostThreeEach(After(w1, later), Scheduled(w), Sum(w, events, urls));
  }

  lemma OldestGoes(cache: seq<Entry>)
    requires |cache| >= CAPACITY && !cache[0].pending
    ensures MakeRoom(cache) == Some(cache[1..])
  {
    assert FirstFinished(cache) == 0;
    assert cache[..0] + cache[1..] == cache[1..];
  }

  /** Replacing an entry of the rest keeps its size and its other entries. */
  lemma PutInRest(cache: seq<Entry>, e: Entry)
    requires Distinct(cache) && |cache| > 0 && Find(cache, e.url) < |cache| && cache[0].url != e.url
    ensures |Put(cache[1..], e)| == |cache| - 1
    ensures forall x <- Put(cache[1..], e) :: x.url != cache[0].url
  {
    var rest := cache[1..];
    assert rest[Find(cache, e.url) - 1].url == e.url;
    var c := Put(rest, e);
    forall x | x in c
      ensures x.url != cache[0].url
    {
      var k :| 0 <= k < |c| && c[k] == x;
      assert x == e || x == cache[k + 1];
    }
  }

  lemma EvictedIsGone(w: World, url: nat, now: int)
    requires Inv(w) && |w.cache| == CAPACITY && Find(w.cache, url) < CAPACITY && !Hit(w, url, now)
    requires !w.cache[0].pending && w.cache[0].url != url
    ensures var cache := AfterObserve(w, url, now).cache;
      |cache| == CAPACITY - 1 && forall e <- cache :: e.url != w.cache[0].url
  {
    var entry := Entry(url, now, false, true, now + 300000, Scheduled(w));
    OldestGoes(w.cache);
    PutInRest(w.cache, entry);
    PumpKeeps(w.(cache := Put(w.cache[1..], entry), queue := w.queue + [Task(Scheduled(w), url)]));
  }

  /** In a full cache refreshing one pull request evicts another, whose answer is read again although it had not expired. */
  lemma FullCacheForgetsGoodAnswers(w: World, url: nat, now: int)
    requires Inv(w) && |w.cache| == CAPACITY && Find(w.cache, url) < CAPACITY && !Hit(w, url, now)
    requires !w.cache[0].pending && Usable(w.cache[0], CAPACITY, now)
    ensures Hit(w, w.cache[0].url, now)
    ensures Refreshes(AfterObserve(w, url, now), Observe(w.cache[0].url, now), w.cache[0].url)
  {
    assert Find(w.cache, w.cache[0].url) == 0;
    EvictedIsGone(w, url, now);
    var w' := AfterObserve(w, url, now);
    assert Find(w'.cache, w.cache[0].url) == |w'.cache|;
  }

  // ---------------------------------------------------------------- a full cache

  lemma {:induction false} AfterConcat(w: World, a: seq<Event>, b: seq<Event>)
    ensures After(w, a + b) == After(After(w, a), b)
    ensures Possible(w, a + b) <==> Possible(w, a) && Possible(After(w, a), b)
    decreases |a|
  {
    if a == [] {
      assert a + b == b;
    } else {
      assert (a + b)[0] == a[0] && (a + b)[1..] == a[1..] + b;
      AfterConcat(Apply(w, a[0]), a[1..], b);
    }
  }

  /** Nothing runs or waits, no limit is in force, and every cached answer is good. */
  ghost predicate Idle(w: World, now: int) {
    && Inv(w) && w.running == 0 && w.queue == [] && w.blockedUntil <= now
    && (forall e <- w.cache :: !e.pending && !e.failed)
    && (forall id <- w.requests :: id < Scheduled(w)) && (forall id <- w.answers :: id < Scheduled(w))
  }

  /** The three reads of a task, all good and without a limit. */
  function Reads(id: nat, now: int): seq<Event> {
    [Request(id, now), Answer(id, now, false, 0), Request(id, now), Request(id, now), Answer(id, now, false, 0), Answer(id, now, false, 0)]
  }

  /** The whole of a good refresh at one moment. */
  function Round(w: World, url: nat, now: int): seq<Event> {
    var id := Scheduled(w);
    [Observe(url, now)] + Reads(id, now) + [Settle(id, now, false), Release(id)]
  }

  function Read(url: nat, now: int, id: nat): Entry {
    Entry(url, now, false, false, now + 300000, id)
  }

  lemma One(w: World, s: seq<Event>, i: nat)
    requires i < |s|
    ensures After(w, s[i..]) == After(Apply(w, s[i]), s[i + 1..])
    ensures Possible(w, s[i..]) <==> Enabled(w, s[i]) && Possible(Apply(w, s[i]), s[i + 1..])
  {
    assert s[i..][1..] == s[i + 1..];
  }

  function Made(w: World, id: nat, requests: nat, answers: nat): World {
    w.(requests := w.requests[id := requests], answers := w.answers[id := answers])
  }

  lemma FirstRead(w: World, id: nat, now: int)
    requires w.blockedUntil <= now && id < |w.started| && id !in w.settled && id !in w.requests && id !in w.answers
    ensures var s := Reads(id, now);
      After(w, s) == After(Made(w, id, 1, 1), s[2..]) && (Possible(Made(w, id, 1, 1), s[2..]) ==> Possible(w, s))
  {
    var s := Reads(id, now);
    One(w, s, 0);
    One(Apply(w, s[0]), s, 1);
    assert s[0..] == s && Apply(Apply(w, s[0]), s[1]) == Made(w, id, 1, 1);
  }

  lemma NextRequest(w: World, id: nat, requests: nat, answers: nat, now: int)
    requires w.blockedUntil <= now && id < |w.started| && id !in w.settled && requests < READS
    ensures var x := Made(w, id, requests, answers);
      Enabled(x, Request(id, now)) && Apply(x, Request(id, now)) == Made(w, id, requests + 1, answers)
  {
    var x := Made(w, id, requests, answers);
    assert x.requests[id := requests + 1] == w.requests[id := requests + 1];
  }

  lemma NextAnswer(w: World, id: nat, requests: nat, answers: nat, now: int)
    requires answers < requests
    ensures var x := Made(w, id, requests, answers);
      Enabled(x, Answer(id, now, false, 0)) && Apply(x, Answer(id, now, false, 0)) == Made(w, id, requests, answers + 1)
  {
    var x := Made(w, id, requests, answers);
    assert x.answers[id := answers + 1] == w.answers[id := answers + 1];
  }

  lemma AllReads(w: World, id: nat, now: int)
    requires w.blockedUntil <= now && id < |w.started| && id !in w.settled && id !in w.requests && id !in w.answers
    ensures Possible(w, Reads(id, now)) && After(w, Reads(id, now)) == Made(w, id, READS, READS)
  {
    var s := Reads(id, now);
    FirstRead(w, id, now);
    NextRequest(w, id, 1, 1, now);
    NextRequest(w, id, 2, 1, now);
    NextAnswer(w, id, 3, 1, now);
    NextAnswer(w, id, 3, 2, now);
    One(Made(w, id, 1, 1), s, 2);
    One(Made(w, id, 2, 1), s, 3);
    One(Made(w, id, 3, 1), s, 4);
    One(Made(w, id, 3, 2), s, 5);
    assert s[6..] == [];
  }

  /** What is left of a cache before a refresh is put in it. */
  function Room(cache: seq<Entry>): seq<Entry> {
    if MakeRoom(cache).Some? then MakeRoom(cache).value else cache
  }

  lemma ObserveIdle(w: World, url: nat, now: int)
    requires Idle(w, now) && !Hit(w, url, now)
    ensures var id := Scheduled(w);
      && MakeRoom(w.cache).Some?
      && AfterObserve(w, url, now) == w.(
        cache := Put(Room(w.cache), Entry(url, now, false, true, now + 300000, id)), running := 1, started := w.started + [Task(id, url)])
  {
    var id := Scheduled(w);
    RoomKeeps(w.cache);
    assert w.cache != [] ==> w.cache[0] in w.cache;
    var w1 := w.(cache := Put(Room(w.cache), Entry(url, now, false, true, now + 300000, id)), queue := [Task(id, url)]);
    assert w.queue + [Task(id, url)] == [Task(id, url)];
    PumpOne(w1);
  }

  lemma PumpOne(w: World)
    requires w.running == 0 && |w.queue| == 1
    ensures Pump(w) == w.(queue := [], running := 1, started := w.started + w.queue)
  {
    assert w.queue[1..] == [] && [w.queue[0]] == w.queue;
  }

  lemma PutTask(cache: seq<Entry>, e: Entry, e': Entry)
    requires Distinct(cache) && (forall x <- cache :: x.task < e.task) && e'.url == e.url && e'.task == e.task
    ensures var c := Put(cache, e);
      FindTask(c, e.task) < |c| && c[FindTask(c, e.task)] == e && c[FindTask(c, e.task) := e'] == Put(cache, e')
  {
    var i, c := Find(cache, e.url), Put(cache, e);
    assert c[i] == e;
    assert forall k :: 0 <= k < |c| && k != i ==> c[k].task < e.task;
    assert FindTask(c, e.task) == i;
    assert c[i := e'] == Put(cache, e');
  }

  /** The observer once the refresh's task runs, once its reads are made, and once its result is delivered. */
  lemma RoundStates(w: World, url: nat, now: int)
    requires Idle(w, now) && !Hit(w, url, now)
    ensures var id := Scheduled(w);
      var w1 := AfterObserve(w, url, now);
      var w2 := Made(w1, id, READS, READS);
      && Inv(w2) && Possible(w1, Reads(id, now)) && After(w1, Reads(id, now)) == w2
      && AfterSettle(w2, id, now, false) == w2.(cache := Put(Room(w.cache), Read(url, now, id)), settled := w.settled + {id})
  {
    var id := Scheduled(w);
    var w1 := AfterObserve(w, url, now);
    ObserveIdle(w, url, now);
    ApplyKeeps(w, Observe(url, now));
    AllReads(w1, id, now);
    RunKeeps(w1, Reads(id, now));
    RoomKeeps(w.cache);
    PutTask(Room(w.cache), Entry(url, now, false, true, now + 300000, id), Read(url, now, id));
  }

  lemma RoundEnds(w: World, id: nat)
    requires Inv(w) && w.running == 1 && w.queue == [] && id < |w.started| && id !in w.released
    ensures Enabled(w, Release(id)) && Inv(AfterRelease(w, id))
    ensures AfterRelease(w, id) == w.(running := 0, released := w.released + {id})
  {
    ApplyKeeps(w, Release(id));
  }

  /** A refresh of an idle observer reads three times and leaves it idle, with the new answer in the cache. */
  lemma OneRound(w: World, url: nat, now: int)
    requires Idle(w, now) && !Hit(w, url, now)
    ensures Possible(w, Round(w, url, now))
    ensures var w', id := After(w, Round(w, url, now)), Scheduled(w);
      && Idle(w', now) && w'.cache == Put(Room(w.cache), Read(url, now, id)) && Scheduled(w') == id + 1
      && w'.requests == w.requests[id := READS]
  {
    var id := Scheduled(w);
    ObserveIdle(w, url, now);
    RoundStates(w, url, now);
    RoundIs(w, url, now);
    var w2 := Made(AfterObserve(w, url, now), id, READS, READS);
    SettleKeeps(w2, id, now, false);
    RoundEnds(AfterSettle(w2, id, now, false), id);
    RoomKeeps(w.cache);
    PutKeeps(Room(w.cache), Read(url, now, id));
  }

  lemma RoundIs(w: World, url: nat, now: int)
    ensures var id := Scheduled(w);
      var w2 := After(AfterObserve(w, url, now), Reads(id, now));
      && After(w, Round(w, url, now)) == AfterRelease(AfterSettle(w2, id, now, false), id)
      && (Possible(w, Round(w, url, now)) <==>
            && Possible(AfterObserve(w, url, now), Reads(id, now)) && Enabled(w2, Settle(id, now, false))
            && Enabled(AfterSettle(w2, id, now, false), Release(id)))
  {
    var id := Scheduled(w);
    var first, middle, last := [Observe(url, now)], Reads(id, now), [Settle(id, now, false), Release(id)];
    AfterConcat(w, first + middle, last);
    AfterConcat(w, first, middle);
    var w2 := After(AfterObserve(w, url, now), middle);
    One(w2, last, 0);
    One(AfterSettle(w2, id, now, false), last, 1);
    assert last[0..] == last && last[2..] == [] && first[1..] == [];
  }

  /** Every task scheduled in between has made its three requests. */
  ghost predicate ThreeEach(w: World, w': World) {
    && Scheduled(w) <= Scheduled(w')
    && (forall id :: 0 <= id < Scheduled(w) ==> RequestsOf(w', id) == RequestsOf(w, id))
    && forall id :: Scheduled(w) <= id < Scheduled(w') ==> RequestsOf(w', id) == READS
  }

  lemma {:induction false} AllThree(w: World, w': World, first: nat, count: nat)
    requires ThreeEach(w, w') && Scheduled(w) <= first && first + count <= Scheduled(w')
    ensures RequestSum(w', first, count) == READS * count
    decreases count
  {
    if count > 0 {
      AllThree(w, w', first + 1, count - 1);
    }
  }

  lemma ThenThree(w: World, w1: World, w2: World)
    requires ThreeEach(w, w1) && ThreeEach(w1, w2)
    ensures ThreeEach(w, w2)
  {
  }

  /** Fill an empty cache with the pull requests below `n`, one after the other. */
  function Filling(n: nat, now: int): seq<Event> {
    if n == 0 then [] else Filling(n - 1, now) + Round(After(EMPTY, Filling(n - 1, now)), n - 1, now)
  }

  /** Pull requests 0 to n - 1, each with a good answer of this time. */
  ghost predicate Filled(w: World, n: nat, now: int) {
    Idle(w, now) && |w.cache| == n && forall i :: 0 <= i < n ==> w.cache[i].url == i && w.cache[i].at == now
  }

  lemma FillNext(w: World, n: nat, now: int)
    requires Filled(w, n, now) && n < CAPACITY
    ensures Possible(w, Round(w, n, now)) && Filled(After(w, Round(w, n, now)), n + 1, now)
  {
    OneRound(w, n, now);
    assert Room(w.cache) == w.cache && Find(w.cache, n) == n;
  }

  lemma {:induction false} FillingFills(n: nat, now: int)
    requires n <= CAPACITY && now >= 0
    ensures Possible(EMPTY, Filling(n, now)) && Filled(After(EMPTY, Filling(n, now)), n, now)
  {
    if n > 0 {
      FillingFills(n - 1, now);
      var w := After(EMPTY, Filling(n - 1, now));
      FillNext(w, n - 1, now);
      AfterConcat(EMPTY, Filling(n - 1, now), Round(w, n - 1, now));
    }
  }

  function Numbers(n: nat): seq<nat> {
    seq(n, i => i)
  }

  /** Only the first `n` pull requests are observed, at one moment, and every read is good. */
  ghost predicate Among(events: seq<Event>, n: nat, now: int) {
    forall e <- events :: Steady(e, Numbers(n), now, now)
  }

  lemma RoundAmong(w: World, url: nat, now: int, n: nat)
    requires url < n
    ensures Among(Round(w, url, now), n, now)
  {
    assert Numbers(n)[url] == url;
  }

  /** A full cache and a pull request that is not in it. */
  ghost predicate Full(w: World, url: nat, now: int) {
    && Idle(w, now) && |w.cache| == CAPACITY && Find(w.cache, url) == CAPACITY
    && url <= CAPACITY && forall e <- w.cache :: e.url <= CAPACITY
  }

  function Head(w: World): nat {
    if w.cache == [] then 0 else w.cache[0].url
  }

  /** Refresh a pull request, then the one evicted by it, and so on. */
  function Churn(w: World, url: nat, now: int, k: nat): seq<Event>
    decreases k
  {
    if k == 0 then [] else Round(w, url, now) + Churn(After(w, Round(w, url, now)), Head(w), now, k - 1)
  }

  lemma HeadEvicted(cache: seq<Entry>, e: Entry)
    requires Distinct(cache) && |cache| == CAPACITY && Find(cache, e.url) == CAPACITY && !cache[0].pending
    ensures var c := Put(Room(cache), e);
      c == cache[1..] + [e] && Find(c, cache[0].url) == CAPACITY && forall x <- c :: x == e || x in cache
  {
    OldestGoes(cache);
    var rest := cache[1..];
    assert forall k :: 0 <= k < |rest| ==> rest[k] == cache[k + 1];
    assert Put(rest, e) == rest + [e];
    assert forall k :: 0 <= k < |rest + [e]| ==> (rest + [e])[k].url != cache[0].url;
  }

  lemma FullRound(w: World, url: nat, now: int)
    requires Full(w, url, now)
    ensures var w' := After(w, Round(w, url, now));
      Possible(w, Round(w, url, now)) && Full(w', Head(w), now) && ThreeEach(w, w') && Scheduled(w') == Scheduled(w) + 1
  {
    assert w.cache[0] in w.cache;
    OneRound(w, url, now);
    HeadEvicted(w.cache, Read(url, now, Scheduled(w)));
  }

  /**
   With one pull request more than the cache holds there is no rate at all: any number of refreshes, each
   of three requests, follow each other at one moment, each reading the answer evicted by the last.
   */
  lemma {:induction false} NoRateAboveCapacity(w: World, url: nat, now: int, k: nat)
    requires Full(w, url, now)
    ensures var w' := After(w, Churn(w, url, now, k));
      && Possible(w, Churn(w, url, now, k)) && ThreeEach(w, w') && Scheduled(w') == Scheduled(w) + k
    ensures RequestSum(After(w, Churn(w, url, now, k)), Scheduled(w), k) == READS * k
    ensures Among(Churn(w, url, now, k), CAPACITY + 1, now)
    decreases k
  {
    if k > 0 {
      var w1 := After(w, Round(w, url, now));
      FullRound(w, url, now);
      RoundAmong(w, url, now, CAPACITY + 1);
      NoRateAboveCapacity(w1, Head(w), now, k - 1);
      AfterConcat(w, Round(w, url, now), Churn(w1, Head(w), now, k - 1));
      ThenThree(w, w1, After(w, Churn(w, url, now, k)));
      AllThree(w, After(w, Churn(w, url, now, k)), Scheduled(w), k);
    }
  }

  /** A full cache in which the `k` answers after the first have expired. */
  ghost predicate Ripe(w: World, now: int, k: nat) {
    && Idle(w, now) && |w.cache| == CAPACITY && k < CAPACITY
    && (forall i :: 0 < i <= k ==> w.cache[i].at + Retention(CAPACITY) <= now)
    && forall e <- w.cache :: e.url < CAPACITY
  }

  /** Such a cache is reached. */
  lemma FullCacheReached(at: int)
    requires at >= 0
    ensures Possible(EMPTY, Filling(CAPACITY, at)) && Full(After(EMPTY, Filling(CAPACITY, at)), CAPACITY, at)
  {
    FillingFills(CAPACITY, at);
    var w := After(EMPTY, Filling(CAPACITY, at));
    assert forall e <- w.cache :: e.url < CAPACITY;
  }

  function Second(w: World): nat {
    if |w.cache| < 2 then 0 else w.cache[1].url
  }

  /** Refresh the second entry, then the first, which that evicted. */
  function Swap(w: World, now: int): seq<Event> {
    Round(w, Second(w), now) + Round(After(w, Round(w, Second(w), now)), Head(w), now)
  }

  function Swaps(w: World, now: int, k: nat): seq<Event>
    decreases k
  {
    if k == 0 then [] else Swap(w, now) + Swaps(After(w, Swap(w, now)), now, k - 1)
  }

  /** The expired second entry is read again, in its place; the first is gone. */
  lemma SwapFirst(w: World, now: int, k: nat)
    requires Ripe(w, now, k) && k > 0
    ensures var w1 := After(w, Round(w, Second(w), now));
      && Possible(w, Round(w, Second(w), now)) && Idle(w1, now) && ThreeEach(w, w1) && Scheduled(w1) == Scheduled(w) + 1
      && w1.cache == w.cache[1..][0 := Read(Second(w), now, Scheduled(w))]
  {
    var u := Second(w);
    assert w.cache[0] in w.cache && w.cache[1] in w.cache;
    assert Find(w.cache, u) == 1;
    OneRound(w, u, now);
    OldestGoes(w.cache);
    assert w.cache[1..][0].url == u;
  }

  /** The first is read again and becomes the last. */
  lemma SwapSecond(w: World, v: nat, now: int)
    requires Idle(w, now) && |w.cache| == CAPACITY - 1 && forall i :: 0 <= i < |w.cache| ==> w.cache[i].url != v
    ensures var w1 := After(w, Round(w, v, now));
      && Possible(w, Round(w, v, now)) && Idle(w1, now) && ThreeEach(w, w1) && Scheduled(w1) == Scheduled(w) + 1
      && w1.cache == w.cache + [Read(v, now, Scheduled(w))]
  {
    OneRound(w, v, now);
    assert Find(w.cache, v) == |w.cache|;
  }

  lemma SwapRefreshesTwo(w: World, now: int, k: nat)
    requires Ripe(w, now, k) && k > 0
    ensures var w' := After(w, Swap(w, now));
      && Possible(w, Swap(w, now)) && Among(Swap(w, now), CAPACITY, now)
      && Ripe(w', now, k - 1) && ThreeEach(w, w') && Scheduled(w') == Scheduled(w) + 2
  {
    var u, v := Second(w), Head(w);
    var w1 := After(w, Round(w, u, now));
    assert w.cache[0] in w.cache && w.cache[1] in w.cache;
    SwapFirst(w, now, k);
    SwapSecond(w1, v, now);
    AfterConcat(w, Round(w, u, now), Round(w1, v, now));
    RoundAmong(w, u, now, CAPACITY);
    RoundAmong(w1, v, now, CAPACITY);
    SwappedRipe(w.cache, w1.cache + [Read(v, now, Scheduled(w1))], Read(u, now, Scheduled(w)), now, k);
  }

  lemma SwappedRipe(cache: seq<Entry>, swapped: seq<Entry>, e: Entry, now: int, k: nat)
    requires |cache| == CAPACITY && 0 < k < CAPACITY && |swapped| == CAPACITY && e.url < CAPACITY
    requires swapped[..CAPACITY - 1] == cache[1..][0 := e] && swapped[CAPACITY - 1].url < CAPACITY
    requires forall i :: 0 < i <= k ==> cache[i].at + Retention(CAPACITY) <= now
    requires forall x <- cache :: x.url < CAPACITY
    ensures forall i :: 0 < i <= k - 1 ==> swapped[i].at + Retention(CAPACITY) <= now
    ensures forall x <- swapped :: x.url < CAPACITY
  {
    forall i | 0 <= i < CAPACITY - 1
      ensures swapped[i] == if i == 0 then e else cache[i + 1]
    {
      assert swapped[i] == swapped[..CAPACITY - 1][i];
    }
  }

  lemma {:induction false} SwapsRefreshTwiceEach(w: World, now: int, k: nat)
    requires Ripe(w, now, k)
    ensures var w' := After(w, Swaps(w, now, k));
      && Possible(w, Swaps(w, now, k)) && Among(Swaps(w, now, k), CAPACITY, now)
      && ThreeEach(w, w') && Scheduled(w') == Scheduled(w) + 2 * k
    decreases k
  {
    if k > 0 {
      var w1 := After(w, Swap(w, now));
      SwapRefreshesTwo(w, now, k);
      SwapsRefreshTwiceEach(w1, now, k - 1);
      AfterConcat(w, Swap(w, now), Swaps(w1, now, k - 1));
      ThenThree(w, w1, After(w, Swaps(w, now, k)));
    }
  }

  /**
   With exactly 200 watched pull requests the rate is not kept. Once their answers, read at one time, have
   expired, 398 refreshes fit in one moment where 200 are allowed: nearly every answer is read, evicted
   while fresh, and read again.
   */
  lemma FullCacheExceedsRate(at: int, now: int)
    requires 0 <= at && at + Retention(CAPACITY) <= now
    ensures var w := After(EMPTY, Filling(CAPACITY, at));
      var events := Swaps(w, now, CAPACITY - 1);
      && Possible(EMPTY, Filling(CAPACITY, at)) && Filled(w, CAPACITY, at)
      && Possible(w, events) && Among(events, CAPACITY, now)
      && Scheduled(After(w, events)) == Scheduled(w) + 398
      && 240000 * RequestSum(After(w, events), Scheduled(w), 398) > READS * (240000 * CAPACITY + 0)
  {
    FillingFills(CAPACITY, at);
    var w := After(EMPTY, Filling(CAPACITY, at));
    SwapsRefreshTwiceEach(w, now, CAPACITY - 1);
    AllThree(w, After(w, Swaps(w, now, CAPACITY - 1)), Scheduled(w), 398);
  }

  // ---------------------------------------------------------------- the observer

  class GithubObserver {
    var cache: seq<Entry>
    var queue: seq<Task>
    var running: nat
    var blockedUntil: int
    var scheduled: nat
    ghost var started: seq<Task>
    ghost var settled: set<nat>
    ghost var released: set<nat>
    ghost var requests: map<nat, nat>
    ghost var answers: map<nat, nat>

    ghost function State(): World
      reads this
    {
      World(cache, queue, running, blockedUntil, started, settled, released, requests, answers)
    }

    constructor ()
      ensures State() == EMPTY && scheduled == 0
    {
      cache, queue, running, blockedUntil, scheduled := [], [], 0, 0, 0;
      started, settled, released, requests, answers := [], {}, {}, map[], map[];
    }

    method FillSlots()
      modifies this
      ensures State() == Pump(old(State())) && scheduled == old(scheduled)
    {
      while running < SLOTS && queue != []
        invariant Pump(State()) == Pump(old(State())) && scheduled == old(scheduled)
        decreases |queue|
      {
        started := started + [queue[0]];
        queue, running := queue[1..], running + 1;
      }
    }

    /** Returns whether a cached or pending answer was used, and whether the cache had no room. */
    method ObserveReference(url: nat, now: int) returns (cached: bool, full: bool)
      requires scheduled == Scheduled(State())
      modifies this
      ensures State() == AfterObserve(old(State()), url, now)
      ensures cached == Hit(old(State()), url, now)
      ensures full == (!cached && MakeRoom(old(cache)).None?)
      ensures scheduled == old(scheduled) + if cached || full then 0 else 1
    {
      var i := Find(cache, url);
      cached := i < |cache| && Usable(cache[i], |cache|, now);
      full := false;
      if !cached {
        if |cache| >= CAPACITY {
          var oldest := FirstFinished(cache);
          full := oldest == |cache|;
          if !full {
            cache := cache[..oldest] + cache[oldest + 1..];
          }
        }
        if !full {
          cache := Put(cache, Entry(url, now, false, true, now + 300000, scheduled));
          queue, scheduled := queue + [Task(scheduled, url)], scheduled + 1;
          FillSlots();
        }
      }
    }

    /** One API request of a task, unless a limit is in force. */
    method Read(id: nat, now: int) returns (sent: bool)
      modifies this
      ensures State() == AfterRequest(old(State()), id, now)
      ensures sent == (now >= old(blockedUntil)) && scheduled == old(scheduled)
    {
      sent := now >= blockedUntil;
      if sent {
        requests := requests[id := (if id in requests then requests[id] else 0) + 1];
      }
    }

    /** What the headers of an answer say about limits. */
    method TakeAnswer(id: nat, now: int, limited: bool, until: int)
      modifies this
      ensures State() == AfterAnswer(old(State()), id, now, limited, until) && scheduled == old(scheduled)
    {
      answers := answers[id := (if id in answers then answers[id] else 0) + 1];
      if limited {
        blockedUntil := Max(blockedUntil, if until > now then until + 1000 else now + 900000);
      }
    }

    method DeliverResult(id: nat, now: int, failed: bool)
      modifies this
      ensures State() == AfterSettle(old(State()), id, now, failed) && scheduled == old(scheduled)
    {
      var i := FindTask(cache, id);
      if i < |cache| {
        var entry := cache[i];
        if failed {
          entry := entry.(failed := true, expiresAt := Max(now + 60000, blockedUntil));
        }
        cache := cache[i := entry.(pending := false)];
      }
      settled := settled + {id};
    }

    method ReleaseSlot(id: nat)
      requires running > 0
      modifies this
      ensures State() == AfterRelease(old(State()), id) && scheduled == old(scheduled)
    {
      running := running - 1;
      released := released + {id};
      FillSlots();
    }
  }
}
