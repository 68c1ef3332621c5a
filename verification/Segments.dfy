/**
 The rendered bootstrap text and the segments that mark its reviewed parts: the work item and each
 critical rule. A character stands for one byte of the encoded text, so offsets are byte offsets.
 */
module Segments {
  import opened Prelude
  import opened Ordering

  datatype Work = Work(
    id: string, key: string, revision: nat, title: string, phase: Option<string>,
    rawStatus: string, status: string, next: string, blocker: Option<string>, sourceLine: string)

  datatype Rule = Rule(id: string, revision: nat, source: string, sourceRevision: nat, pointer: Option<string>, text: string)

  /** `head` ends before the work item, `session` follows its source line, `tail` is everything after the rules. */
  datatype Context = Context(head: string, work: Option<Work>, session: string, rules: seq<Rule>, tail: string)

  datatype Kind = WorkItem | CriticalRule

  datatype Segment = Segment(start: nat, end: nat, kind: Kind, id: string, revision: nat)

  /** A stretch of text; a marked one becomes a segment. */
  datatype Piece = Plain(text: string) | Marked(text: string, kind: Kind, id: string, revision: nat)

  /** Rules share a heading per source, and outside a workstream per source revision. */
  datatype Key = Key(source: string, revision: nat)

  // ---------------------------------------------------------------- blocks

  function Or(o: Option<string>, other: string): string {
    if o.Some? then o.value else other
  }

  function WorkBlock(w: Work): (s: string)
    ensures s != ""
  {
    "Work: " + w.key + " [" + w.id + "] r" + Decimal(w.revision) + " \U{E2}\U{80}\U{94} " + w.title
    + "\nPhase: " + Or(w.phase, "unspecified") + " | Status: " + w.rawStatus + " (" + w.status
    + ")\nNext: " + w.next + "\nBlocker: " + Or(w.blocker, "none") + "\n"
  }

  function RuleBlock(r: Rule, scoped: bool): (s: string)
    ensures s != ""
  {
    if scoped then "[" + r.id + "@r" + Decimal(r.revision) + "]\n" + r.text + "\n"
    else "[" + Or(r.pointer, "/") + "]\n" + r.text + "\n"
  }

  function Heading(k: Key, scoped: bool): string {
    if scoped then "Required rules [" + k.source + "]:\n" else "Hard rules [" + k.source + "@r" + Decimal(k.revision) + "]:\n"
  }

  function KeyOf(r: Rule, scoped: bool): Key {
    Key(r.source, if scoped then 0 else r.sourceRevision)
  }

  predicate KeyBefore(a: Key, b: Key) {
    Before(a.source, b.source) || (a.source == b.source && a.revision < b.revision)
  }

  lemma KeysTotal()
    ensures Total(KeyBefore)
  {
    forall a: Key, b: Key
      ensures (a == b || KeyBefore(a, b) || KeyBefore(b, a)) && !(KeyBefore(a, b) && KeyBefore(b, a))
    {
      BeforeTotal(a.source, b.source);
    }
    forall a, b, c | KeyBefore(a, b) && KeyBefore(b, c)
      ensures KeyBefore(a, c)
    {
      if a.source != b.source && b.source != c.source {
        BeforeTransitive(a.source, b.source, c.source);
      }
    }
  }

  // ---------------------------------------------------------------- grouping

  function KeysOf(rules: seq<Rule>, scoped: bool): seq<Key> {
    seq(|rules|, i requires 0 <= i < |rules| => KeyOf(rules[i], scoped))
  }

  function GroupKeys(rules: seq<Rule>, scoped: bool): seq<Key> {
    SortUnique(KeysOf(rules, scoped), KeyBefore)
  }

  /** The rules of one heading, in their original order. */
  function Group(rules: seq<Rule>, k: Key, scoped: bool): seq<Rule> {
    if rules == [] then []
    else Group(rules[..|rules| - 1], k, scoped) + (if KeyOf(rules[|rules| - 1], scoped) == k then [rules[|rules| - 1]] else [])
  }

  function Grouped(rules: seq<Rule>, keys: seq<Key>, scoped: bool): seq<Rule> {
    if keys == [] then [] else Grouped(rules, keys[..|keys| - 1], scoped) + Group(rules, keys[|keys| - 1], scoped)
  }

  /** How often a rule occurs under a key: as often as among all rules if the key is its own. */
  lemma {:induction false} GroupCounts(rules: seq<Rule>, k: Key, scoped: bool, r: Rule)
    ensures multiset(Group(rules, k, scoped))[r] == if KeyOf(r, scoped) == k then multiset(rules)[r] else 0
  {
    if rules != [] {
      var last := rules[|rules| - 1];
      GroupCounts(rules[..|rules| - 1], k, scoped, r);
      assert rules == rules[..|rules| - 1] + [last];
    }
  }

  lemma {:induction false} GroupedCounts(rules: seq<Rule>, keys: seq<Key>, scoped: bool, r: Rule)
    requires forall i, j :: 0 <= i < j < |keys| ==> keys[i] != keys[j]
    ensures multiset(Grouped(rules, keys, scoped))[r] == if KeyOf(r, scoped) in keys then multiset(rules)[r] else 0
  {
    if keys != [] {
      var last := keys[|keys| - 1];
      GroupedCounts(rules, keys[..|keys| - 1], scoped, r);
      GroupCounts(rules, last, scoped, r);
      assert keys == keys[..|keys| - 1] + [last];
    }
  }

  /** Grouping loses no rule and repeats none. */
  lemma GroupingConserves(rules: seq<Rule>, scoped: bool)
    ensures multiset(Grouped(rules, GroupKeys(rules, scoped), scoped)) == multiset(rules)
  {
    var keys := GroupKeys(rules, scoped);
    KeysTotal();
    SortUniqueSorts(KeysOf(rules, scoped), KeyBefore);
    assert forall i, j :: 0 <= i < j < |keys| ==> KeyBefore(keys[i], keys[j]);
    forall r: Rule
      ensures multiset(Grouped(rules, keys, scoped))[r] == multiset(rules)[r]
    {
      GroupedCounts(rules, keys, scoped, r);
      if r in rules {
        var i :| 0 <= i < |rules| && rules[i] == r;
        assert KeysOf(rules, scoped)[i] == KeyOf(r, scoped);
      }
    }
  }

  // ---------------------------------------------------------------- pieces

  function Blocks(rules: seq<Rule>, scoped: bool): seq<Piece> {
    if rules == [] then []
    else
      var r := rules[|rules| - 1];
      Blocks(rules[..|rules| - 1], scoped) + [Marked(RuleBlock(r, scoped), CriticalRule, r.id, r.revision)]
  }

  function RulePieces(rules: seq<Rule>, keys: seq<Key>, scoped: bool): seq<Piece>
    decreases |keys|
  {
    if keys == [] then []
    else
      var k := keys[|keys| - 1];
      RulePieces(rules, keys[..|keys| - 1], scoped) + [Plain(Heading(k, scoped))] + Blocks(Group(rules, k, scoped), scoped)
  }

  function WorkPieces(c: Context): seq<Piece> {
    if c.work.Some? then
      [Marked(WorkBlock(c.work.value), WorkItem, c.work.value.id, c.work.value.revision), Plain(c.work.value.sourceLine)]
    else [Plain("Work: unselected\n")]
  }

  function Opening(c: Context): seq<Piece> {
    [Plain(c.head)] + WorkPieces(c) + [Plain(c.session)]
  }

  function Pieces(c: Context, scoped: bool): seq<Piece> {
    Opening(c) + RulePieces(c.rules, GroupKeys(c.rules, scoped), scoped) + [Plain(c.tail)]
  }

  function TextOf(ps: seq<Piece>): string {
    if ps == [] then "" else TextOf(ps[..|ps| - 1]) + ps[|ps| - 1].text
  }

  function SegmentsOf(ps: seq<Piece>): seq<Segment> {
    if ps == [] then []
    else
      var before, p := TextOf(ps[..|ps| - 1]), ps[|ps| - 1];
      SegmentsOf(ps[..|ps| - 1])
      + (if p.Marked? then [Segment(|before|, |before| + |p.text|, p.kind, p.id, p.revision)] else [])
  }

  function MarkedOf(ps: seq<Piece>): seq<Piece> {
    if ps == [] then [] else MarkedOf(ps[..|ps| - 1]) + (if ps[|ps| - 1].Marked? then [ps[|ps| - 1]] else [])
  }

  /** Segment `i` is the exact place of the marked piece `i`; segments ascend without overlap. */
  ghost predicate WellPlaced(text: string, segments: seq<Segment>, marked: seq<Piece>) {
    && |segments| == |marked|
    && (forall i :: 0 <= i < |segments| ==>
          && segments[i].start <= segments[i].end <= |text|
          && text[segments[i].start..segments[i].end] == marked[i].text
          && marked[i].Marked? && segments[i].kind == marked[i].kind
          && segments[i].id == marked[i].id && segments[i].revision == marked[i].revision)
    && (forall i, j :: 0 <= i < j < |segments| ==> segments[i].end <= segments[j].start)
  }

  lemma {:induction false} PiecesPlaced(ps: seq<Piece>)
    ensures WellPlaced(TextOf(ps), SegmentsOf(ps), MarkedOf(ps))
    ensures forall s <- SegmentsOf(ps) :: s.end <= |TextOf(ps)|
  {
    if ps != [] {
      var before, p := ps[..|ps| - 1], ps[|ps| - 1];
      PiecesPlaced(before);
      ExtendPlaced(TextOf(before), SegmentsOf(before), MarkedOf(before), p);
    }
  }

  lemma ExtendPlaced(text: string, segments: seq<Segment>, marked: seq<Piece>, p: Piece)
    requires WellPlaced(text, segments, marked)
    ensures var text' := text + p.text;
      var more := if p.Marked? then [Segment(|text|, |text'|, p.kind, p.id, p.revision)] else [];
      WellPlaced(text', segments + more, marked + if p.Marked? then [p] else [])
  {
    var text' := text + p.text;
    forall i | 0 <= i < |segments|
      ensures text'[segments[i].start..segments[i].end] == marked[i].text
    {
      assert text'[segments[i].start..segments[i].end] == text[segments[i].start..segments[i].end];
    }
    assert text'[|text|..|text'|] == p.text;
  }

  lemma {:induction false} MarkedConcat(a: seq<Piece>, b: seq<Piece>)
    ensures MarkedOf(a + b) == MarkedOf(a) + MarkedOf(b)
    decreases |b|
  {
    if b == [] {
      assert a + b == a;
    } else {
      assert (a + b)[..|a + b| - 1] == a + b[..|b| - 1];
      MarkedConcat(a, b[..|b| - 1]);
    }
  }

  lemma {:induction false} BlocksMarked(rules: seq<Rule>, scoped: bool)
    ensures MarkedOf(Blocks(rules, scoped)) == Blocks(rules, scoped)
  {
    if rules != [] {
      BlocksMarked(rules[..|rules| - 1], scoped);
      var bs := Blocks(rules, scoped);
      assert bs[..|bs| - 1] == Blocks(rules[..|rules| - 1], scoped);
    }
  }

  lemma {:induction false} BlocksConcat(a: seq<Rule>, b: seq<Rule>, scoped: bool)
    ensures Blocks(a + b, scoped) == Blocks(a, scoped) + Blocks(b, scoped)
    decreases |b|
  {
    if b == [] {
      assert a + b == a;
    } else {
      assert (a + b)[..|a + b| - 1] == a + b[..|b| - 1];
      BlocksConcat(a, b[..|b| - 1], scoped);
    }
  }

  lemma PlainUnmarked(text: string)
    ensures MarkedOf([Plain(text)]) == []
  {
    assert [Plain(text)][..0] == [];
  }

  lemma {:induction false} RulesMarked(rules: seq<Rule>, keys: seq<Key>, scoped: bool)
    ensures MarkedOf(RulePieces(rules, keys, scoped)) == Blocks(Grouped(rules, keys, scoped), scoped)
    decreases |keys|
  {
    if keys != [] {
      var k, first := keys[|keys| - 1], keys[..|keys| - 1];
      RulesMarked(rules, first, scoped);
      MarkedConcat(RulePieces(rules, first, scoped), [Plain(Heading(k, scoped))]);
      MarkedConcat(RulePieces(rules, first, scoped) + [Plain(Heading(k, scoped))], Blocks(Group(rules, k, scoped), scoped));
      PlainUnmarked(Heading(k, scoped));
      BlocksMarked(Group(rules, k, scoped), scoped);
      BlocksConcat(Grouped(rules, first, scoped), Group(rules, k, scoped), scoped);
    }
  }

  /** The reviewed parts: the work item's block, then every rule's block. */
  function Reviewed(c: Context, scoped: bool): seq<Piece> {
    (if c.work.Some? then [Marked(WorkBlock(c.work.value), WorkItem, c.work.value.id, c.work.value.revision)] else [])
    + Blocks(Grouped(c.rules, GroupKeys(c.rules, scoped), scoped), scoped)
  }

  lemma WorkMarked(c: Context)
    ensures MarkedOf(WorkPieces(c))
      == if c.work.Some? then [Marked(WorkBlock(c.work.value), WorkItem, c.work.value.id, c.work.value.revision)] else []
  {
    if c.work.Some? {
      var m := Marked(WorkBlock(c.work.value), WorkItem, c.work.value.id, c.work.value.revision);
      MarkedConcat([m], [Plain(c.work.value.sourceLine)]);
      assert [m] + [Plain(c.work.value.sourceLine)] == WorkPieces(c);
      PlainUnmarked(c.work.value.sourceLine);
      assert [m][..0] == [];
    } else {
      PlainUnmarked("Work: unselected\n");
    }
  }

  lemma OpeningMarked(c: Context)
    ensures MarkedOf(Opening(c))
      == if c.work.Some? then [Marked(WorkBlock(c.work.value), WorkItem, c.work.value.id, c.work.value.revision)] else []
  {
    PlainUnmarked(c.head);
    PlainUnmarked(c.session);
    MarkedConcat([Plain(c.head)], WorkPieces(c));
    MarkedConcat([Plain(c.head)] + WorkPieces(c), [Plain(c.session)]);
    WorkMarked(c);
  }

  lemma ReviewedMarked(c: Context, scoped: bool)
    ensures MarkedOf(Pieces(c, scoped)) == Reviewed(c, scoped)
  {
    var keys := GroupKeys(c.rules, scoped);
    var rules := RulePieces(c.rules, keys, scoped);
    PlainUnmarked(c.tail);
    MarkedConcat(Opening(c), rules);
    MarkedConcat(Opening(c) + rules, [Plain(c.tail)]);
    OpeningMarked(c);
    RulesMarked(c.rules, keys, scoped);
  }

  /**
   The rendering marks exactly the work item and each critical rule once: segments ascend without overlap,
   lie within the text, and each slice is the very block of its entity.
   */
  lemma SegmentsAreExact(c: Context, scoped: bool)
    ensures WellPlaced(TextOf(Pieces(c, scoped)), SegmentsOf(Pieces(c, scoped)), Reviewed(c, scoped))
    ensures |SegmentsOf(Pieces(c, scoped))| == |c.rules| + if c.work.Some? then 1 else 0
  {
    PiecesPlaced(Pieces(c, scoped));
    ReviewedMarked(c, scoped);
    GroupingConserves(c.rules, scoped);
    var grouped := Grouped(c.rules, GroupKeys(c.rules, scoped), scoped);
    assert |multiset(grouped)| == |multiset(c.rules)|;
    BlocksLength(grouped, scoped);
  }

  lemma {:induction false} BlocksLength(rules: seq<Rule>, scoped: bool)
    ensures |Blocks(rules, scoped)| == |rules|
    ensures forall i :: 0 <= i < |rules| ==>
      Blocks(rules, scoped)[i] == Marked(RuleBlock(rules[i], scoped), CriticalRule, rules[i].id, rules[i].revision)
  {
    if rules != [] {
      BlocksLength(rules[..|rules| - 1], scoped);
    }
  }

  // ---------------------------------------------------------------- coverage

  /** Something the detector points at; two findings with one signature are the same sensitive text. */
  datatype Finding = Finding(credential: bool, start: nat, end: nat, signature: string)

  predicate Yields(findings: seq<Finding>, signature: string) {
    exists f <- findings :: f.signature == signature
  }

  predicate Covers(text: string, s: Segment, f: Finding, detect: string -> seq<Finding>) {
    && s.start <= f.start && f.end <= s.end <= |text| && s.start <= s.end
    && Yields(detect(text[s.start..s.end]), f.signature)
  }

  predicate Covered(text: string, segments: seq<Segment>, f: Finding, detect: string -> seq<Finding>) {
    exists s <- segments :: Covers(text, s, f, detect)
  }

  /** The check on a rendering: few findings, none a credential, each within a segment that yields it by itself. */
  predicate Accepted(text: string, segments: seq<Segment>, detect: string -> seq<Finding>) {
    var findings := detect(text);
    |findings| <= 512 && forall f <- findings :: !f.credential && Covered(text, segments, f, detect)
  }

  ghost predicate Within(s: Segment, f: Finding) {
    s.start <= f.start && f.end <= s.end
  }

  lemma CoveredOnce(text: string, segments: seq<Segment>, marked: seq<Piece>, f: Finding, detect: string -> seq<Finding>)
    requires WellPlaced(text, segments, marked) && Covered(text, segments, f, detect) && f.start < f.end
    ensures exists i ::
      && 0 <= i < |segments| && Within(segments[i], f) && Yields(detect(marked[i].text), f.signature)
      && forall j :: 0 <= j < |segments| && Within(segments[j], f) ==> j == i
  {
    var s :| s in segments && Covers(text, s, f, detect);
    var i :| 0 <= i < |segments| && segments[i] == s;
    forall j | 0 <= j < |segments| && Within(segments[j], f)
      ensures j == i
    {
      Overlapping(text, segments, marked, f, i, j);
    }
    assert text[s.start..s.end] == marked[i].text;
  }

  /**
   In an accepted rendering every finding that is not empty lies in exactly one segment, that segment's
   block yields its signature by itself, and the block is the work item's or a critical rule's.
   */
  lemma FindingsAreInOneReviewedBlock(c: Context, scoped: bool, detect: string -> seq<Finding>, f: Finding)
    requires Accepted(TextOf(Pieces(c, scoped)), SegmentsOf(Pieces(c, scoped)), detect)
    requires f in detect(TextOf(Pieces(c, scoped))) && f.start < f.end
    ensures var segments := SegmentsOf(Pieces(c, scoped));
      !f.credential && |Reviewed(c, scoped)| == |segments|
      && exists i :: 0 <= i < |segments| && Within(segments[i], f)
           && Yields(detect(Reviewed(c, scoped)[i].text), f.signature)
           && forall j :: 0 <= j < |segments| && Within(segments[j], f) ==> j == i
  {
    SegmentsAreExact(c, scoped);
    CoveredOnce(TextOf(Pieces(c, scoped)), SegmentsOf(Pieces(c, scoped)), Reviewed(c, scoped), f, detect);
  }

  lemma Overlapping(text: string, segments: seq<Segment>, marked: seq<Piece>, f: Finding, i: nat, j: nat)
    requires WellPlaced(text, segments, marked) && i < |segments| && j < |segments| && f.start < f.end
    requires Within(segments[i], f) && Within(segments[j], f)
    ensures i == j
  {
  }

  // ---------------------------------------------------------------- rendering

  lemma TextSnoc(ps: seq<Piece>, p: Piece)
    ensures TextOf(ps + [p]) == TextOf(ps) + p.text
    ensures SegmentsOf(ps + [p]) == SegmentsOf(ps)
      + if p.Marked? then [Segment(|TextOf(ps)|, |TextOf(ps)| + |p.text|, p.kind, p.id, p.revision)] else []
  {
    assert (ps + [p])[..|ps|] == ps;
  }

  lemma Regroup(a: seq<Piece>, b: seq<Piece>, c: seq<Piece>)
    ensures a + b + c == a + (b + c)
  {
  }

  // ---------------------------------------------------------------- an empty finding

  /** Two rules of one heading, without a work item. */
  predicate TwoRules(c: Context, scoped: bool) {
    c.work.None? && |c.rules| == 2 && KeyOf(c.rules[0], scoped) == KeyOf(c.rules[1], scoped)
  }

  function Front(c: Context, k: Key, scoped: bool): seq<Piece> {
    [Plain(c.head)] + [Plain("Work: unselected\n")] + [Plain(c.session)] + [Plain(Heading(k, scoped))]
  }

  function BlockOf(r: Rule, scoped: bool): Piece {
    Marked(RuleBlock(r, scoped), CriticalRule, r.id, r.revision)
  }

  lemma OneKey(rules: seq<Rule>, scoped: bool)
    requires |rules| == 2 && KeyOf(rules[0], scoped) == KeyOf(rules[1], scoped)
    ensures GroupKeys(rules, scoped) == [KeyOf(rules[0], scoped)] && Group(rules, KeyOf(rules[0], scoped), scoped) == rules
  {
    var k := KeyOf(rules[0], scoped);
    var keys := GroupKeys(rules, scoped);
    KeysTotal();
    SortUniqueSorts(KeysOf(rules, scoped), KeyBefore);
    assert KeysOf(rules, scoped)[0] == k && forall x <- KeysOf(rules, scoped) :: x == k;
    assert k in keys && forall x <- keys :: x == k;
    BeforeTotal(k.source, k.source);
    assert |keys| > 1 ==> keys[0] in keys && keys[1] in keys && KeyBefore(keys[0], keys[1]);
    assert rules[..1] == [rules[0]] && rules[..1][..0] == [];
    assert Group(rules[..1], k, scoped) == [rules[0]];
  }

  lemma TwoRulePieces(c: Context, scoped: bool)
    requires TwoRules(c, scoped)
    ensures var k := KeyOf(c.rules[0], scoped);
      Pieces(c, scoped) == Front(c, k, scoped) + [BlockOf(c.rules[0], scoped)] + [BlockOf(c.rules[1], scoped)] + [Plain(c.tail)]
  {
    var k, rules := KeyOf(c.rules[0], scoped), c.rules;
    OneKey(rules, scoped);
    BlocksLength(rules, scoped);
    assert Blocks(rules, scoped) == [BlockOf(rules[0], scoped), BlockOf(rules[1], scoped)];
    assert [k][..0] == [];
    assert RulePieces(rules, [k], scoped) == [Plain(Heading(k, scoped))] + Blocks(rules, scoped);
  }

  lemma FrontUnmarked(c: Context, k: Key, scoped: bool)
    ensures SegmentsOf(Front(c, k, scoped)) == []
  {
    var a, b, d := Plain(c.head), Plain("Work: unselected\n"), Plain(c.session);
    assert [] + [a] == [a];
    TextSnoc([], a);
    TextSnoc([a], b);
    TextSnoc([a] + [b], d);
    TextSnoc([a] + [b] + [d], Plain(Heading(k, scoped)));
  }

  /** The two blocks touch. */
  lemma TwoRulesTouch(c: Context, scoped: bool)
    requires TwoRules(c, scoped)
    ensures var segments := SegmentsOf(Pieces(c, scoped));
      |segments| == 2 && segments[0].start <= segments[0].end == segments[1].start <= segments[1].end <= |TextOf(Pieces(c, scoped))|
  {
    var front := Front(c, KeyOf(c.rules[0], scoped), scoped);
    var a, b := BlockOf(c.rules[0], scoped), BlockOf(c.rules[1], scoped);
    TwoRulePieces(c, scoped);
    FrontUnmarked(c, KeyOf(c.rules[0], scoped), scoped);
    TextSnoc(front, a);
    TextSnoc(front + [a], b);
    TextSnoc(front + [a] + [b], Plain(c.tail));
  }

  /**
   Being in one segment only needs the finding not to be empty: whenever two rules share a heading, a
   detector that points at the empty text between them has its finding accepted, and in both of their segments.
   */
  lemma EmptyFindingInTwo(c: Context, scoped: bool, signature: string)
    requires TwoRules(c, scoped)
    ensures var text, segments := TextOf(Pieces(c, scoped)), SegmentsOf(Pieces(c, scoped));
      |segments| == 2 &&
      var f := Finding(false, segments[0].end, segments[0].end, signature);
      var detect: string -> seq<Finding> := text => [f];
      f in detect(text) && Accepted(text, segments, detect) && Within(segments[0], f) && Within(segments[1], f)
  {
    TwoRulesTouch(c, scoped);
    var text, segments := TextOf(Pieces(c, scoped)), SegmentsOf(Pieces(c, scoped));
    var f := Finding(false, segments[0].end, segments[0].end, signature);
    var detect: string -> seq<Finding> := text => [f];
    assert f in detect(text[segments[0].start..segments[0].end]);
    assert segments[0] in segments && Covers(text, segments[0], f, detect);
    assert forall g <- detect(text) :: g == f;
  }

  // ---------------------------------------------------------------- the renderer

  lemma RulePiecesSnoc(rules: seq<Rule>, keys: seq<Key>, i: nat, scoped: bool)
    requires i < |keys|
    ensures RulePieces(rules, keys[..i + 1], scoped)
      == RulePieces(rules, keys[..i], scoped) + ([Plain(Heading(keys[i], scoped))] + Blocks(Group(rules, keys[i], scoped), scoped))
  {
    assert keys[..i + 1][..i] == keys[..i];
    Regroup(RulePieces(rules, keys[..i], scoped), [Plain(Heading(keys[i], scoped))], Blocks(Group(rules, keys[i], scoped), scoped));
  }

  /** The text so far and its segments. */
  class Renderer {
    var text: string
    var segments: seq<Segment>
    ghost var pieces: seq<Piece>

    ghost predicate Valid()
      reads this
    {
      text == TextOf(pieces) && segments == SegmentsOf(pieces)
    }

    constructor ()
      ensures Valid() && pieces == []
    {
      text, segments, pieces := "", [], [];
    }

    method Push(more: string)
      requires Valid()
      modifies this
      ensures Valid() && pieces == old(pieces) + [Plain(more)]
    {
      TextSnoc(pieces, Plain(more));
      text, pieces := text + more, pieces + [Plain(more)];
    }

    method PushMarked(more: string, kind: Kind, id: string, revision: nat)
      requires Valid()
      modifies this
      ensures Valid() && pieces == old(pieces) + [Marked(more, kind, id, revision)]
    {
      TextSnoc(pieces, Marked(more, kind, id, revision));
      var start := |text|;
      text, pieces := text + more, pieces + [Marked(more, kind, id, revision)];
      segments := segments + [Segment(start, |text|, kind, id, revision)];
    }

    method PushRules(rules: seq<Rule>, scoped: bool)
      requires Valid()
      modifies this
      ensures Valid() && pieces == old(pieces) + Blocks(rules, scoped)
    {
      for i := 0 to |rules|
        invariant Valid() && pieces == old(pieces) + Blocks(rules[..i], scoped)
      {
        var r := rules[i];
        PushMarked(RuleBlock(r, scoped), CriticalRule, r.id, r.revision);
        assert rules[..i + 1][..i] == rules[..i];
        Regroup(old(pieces), Blocks(rules[..i], scoped), [Marked(RuleBlock(r, scoped), CriticalRule, r.id, r.revision)]);
      }
      assert rules[..|rules|] == rules;
    }

    method PushGroup(k: Key, rules: seq<Rule>, scoped: bool)
      requires Valid()
      modifies this
      ensures Valid() && pieces == old(pieces) + ([Plain(Heading(k, scoped))] + Blocks(rules, scoped))
    {
      Push(Heading(k, scoped));
      PushRules(rules, scoped);
      Regroup(old(pieces), [Plain(Heading(k, scoped))], Blocks(rules, scoped));
    }

    method PushGroups(rules: seq<Rule>, scoped: bool)
      requires Valid()
      modifies this
      ensures Valid() && pieces == old(pieces) + RulePieces(rules, GroupKeys(rules, scoped), scoped)
    {
      var keys, groups := GroupRules(rules, scoped);
      for i := 0 to |keys|
        invariant Valid() && pieces == old(pieces) + RulePieces(rules, keys[..i], scoped)
      {
        RulePiecesSnoc(rules, keys, i, scoped);
        Regroup(old(pieces), RulePieces(rules, keys[..i], scoped),
                [Plain(Heading(keys[i], scoped))] + Blocks(groups[keys[i]], scoped));
        PushGroup(keys[i], groups[keys[i]], scoped);
      }
      assert keys[..|keys|] == keys;
    }

    method Render(c: Context, scoped: bool)
      requires Valid() && pieces == []
      modifies this
      ensures Valid() && text == TextOf(Pieces(c, scoped)) && segments == SegmentsOf(Pieces(c, scoped))
    {
      Push(c.head);
      if c.work.Some? {
        var w := c.work.value;
        PushMarked(WorkBlock(w), WorkItem, w.id, w.revision);
        Push(w.sourceLine);
      } else {
        Push("Work: unselected\n");
      }
      Push(c.session);
      assert pieces == Opening(c);
      PushGroups(c.rules, scoped);
      Push(c.tail);
    }
  }

  /** `keys` are the headings of these rules in ascending order, `groups` the rules under each. */
  ghost predicate Collected(keys: seq<Key>, groups: map<Key, seq<Rule>>, rules: seq<Rule>, scoped: bool) {
    && Ascending(keys, KeyBefore) && (forall k :: k in keys <==> k in groups)
    && (forall k :: k in groups <==> Group(rules, k, scoped) != [])
    && (forall k <- groups :: groups[k] == Group(rules, k, scoped))
  }

  lemma CollectOne(keys: seq<Key>, groups: map<Key, seq<Rule>>, rules: seq<Rule>, r: Rule, scoped: bool)
    requires Collected(keys, groups, rules, scoped)
    ensures var k := KeyOf(r, scoped);
      var before := if k in groups then groups[k] else [];
      Collected(Insert(k, keys, KeyBefore), groups[k := before + [r]], rules + [r], scoped)
  {
    KeysTotal();
    InsertKeeps(KeyOf(r, scoped), keys, KeyBefore);
    assert (rules + [r])[..|rules|] == rules;
  }

  lemma {:induction false} GroupInhabited(rules: seq<Rule>, k: Key, scoped: bool)
    ensures Group(rules, k, scoped) != [] <==> k in KeysOf(rules, scoped)
  {
    if rules != [] {
      var first := rules[..|rules| - 1];
      GroupInhabited(first, k, scoped);
      assert KeysOf(rules, scoped) == KeysOf(first, scoped) + [KeyOf(rules[|rules| - 1], scoped)];
    }
  }

  /** Collect the rules of each heading, headings in ascending order. */
  method GroupRules(rules: seq<Rule>, scoped: bool) returns (keys: seq<Key>, groups: map<Key, seq<Rule>>)
    ensures keys == GroupKeys(rules, scoped)
    ensures forall k <- keys :: k in groups && groups[k] == Group(rules, k, scoped)
  {
    keys, groups := [], map[];
    for i := 0 to |rules|
      invariant Collected(keys, groups, rules[..i], scoped)
    {
      var k := KeyOf(rules[i], scoped);
      CollectOne(keys, groups, rules[..i], rules[i], scoped);
      groups := groups[k := (if k in groups then groups[k] else []) + [rules[i]]];
      keys := Insert(k, keys, KeyBefore);
      assert rules[..i + 1] == rules[..i] + [rules[i]];
    }
    assert rules[..|rules|] == rules;
    CollectedKeys(keys, groups, rules, scoped);
  }

  lemma CollectedKeys(keys: seq<Key>, groups: map<Key, seq<Rule>>, rules: seq<Rule>, scoped: bool)
    requires Collected(keys, groups, rules, scoped)
    ensures keys == GroupKeys(rules, scoped)
  {
    KeysTotal();
    SortUniqueSorts(KeysOf(rules, scoped), KeyBefore);
    forall k
      ensures k in keys <==> k in GroupKeys(rules, scoped)
    {
      GroupInhabited(rules, k, scoped);
    }
    AscendingUnique(keys, GroupKeys(rules, scoped), KeyBefore);
  }

  /** What each segment yields by itself is computed once, then every finding is looked up. */
  method Check(text: string, segments: seq<Segment>, detect: string -> seq<Finding>) returns (accepted: bool)
    requires forall s <- segments :: s.start <= s.end <= |text|
    ensures accepted <==> Accepted(text, segments, detect)
  {
    var coverage: seq<set<string>> := [];
    for i := 0 to |segments|
      invariant |coverage| == i
      invariant forall k, x :: 0 <= k < i ==> (x in coverage[k] <==> Yields(detect(text[segments[k].start..segments[k].end]), x))
    {
      var own := detect(text[segments[i].start..segments[i].end]);
      coverage := coverage + [set f | f in own :: f.signature];
    }
    var findings := detect(text);
    if |findings| > 512 {
      return false;
    }
    for i := 0 to |findings|
      invariant forall k :: 0 <= k < i ==> !findings[k].credential && Covered(text, segments, findings[k], detect)
    {
      var f := findings[i];
      var covered := exists k :: 0 <= k < |segments| && segments[k].start <= f.start && f.end <= segments[k].end && f.signature in coverage[k];
      CoverageAgrees(text, segments, coverage, f, detect);
      if f.credential || !covered {
        assert f in findings;
        return false;
      }
    }
    accepted := true;
  }

  lemma CoverageAgrees(text: string, segments: seq<Segment>, coverage: seq<set<string>>, f: Finding, detect: string -> seq<Finding>)
    requires |coverage| == |segments| && forall s <- segments :: s.start <= s.end <= |text|
    requires forall k, x :: 0 <= k < |segments| ==> (x in coverage[k] <==> Yields(detect(text[segments[k].start..segments[k].end]), x))
    ensures Covered(text, segments, f, detect) <==>
      exists k :: 0 <= k < |segments| && segments[k].start <= f.start && f.end <= segments[k].end && f.signature in coverage[k]
  {
    if Covered(text, segments, f, detect) {
      var s :| s in segments && Covers(text, s, f, detect);
      var k :| 0 <= k < |segments| && segments[k] == s;
      assert f.signature in coverage[k];
    }
    if exists k :: 0 <= k < |segments| && segments[k].start <= f.start && f.end <= segments[k].end && f.signature in coverage[k] {
      var k :| 0 <= k < |segments| && segments[k].start <= f.start && f.end <= segments[k].end && f.signature in coverage[k];
      assert Covers(text, segments[k], f, detect);
    }
  }
}
