/** Reserved path trees: normalised resource names and the conflict test between two reservations. */
module Paths {
  import opened Prelude

  type Segments = seq<string>

  const WHOLE: string := "*"
  const GLOBS: set<char> := {'*', '?', '[', ']'}

  function ToSlash(s: string): string {
    seq(|s|, i requires 0 <= i < |s| => if s[i] == '\\' then '/' else s[i])
  }

  /** The pieces between slashes. */
  function Split(s: string): (r: Segments)
    ensures |r| > 0
  {
    if s == "" then [""]
    else
      var rest := Split(s[1..]);
      if s[0] == '/' then [""] + rest else [[s[0]] + rest[0]] + rest[1..]
  }

  /** No piece contains a slash, nor any character the whole string lacks. */
  lemma {:induction false} SplitPieces(s: string, absent: char)
    requires absent !in s
    ensures forall i :: 0 <= i < |Split(s)| ==> '/' !in Split(s)[i] && absent !in Split(s)[i]
  {
    if s != "" {
      var rest := Split(s[1..]);
      assert s == [s[0]] + s[1..];
      SplitPieces(s[1..], absent);
      assert absent !in [s[0]] + rest[0];
      if s[0] != '/' {
        assert '/' !in [s[0]] + rest[0];
      }
    }
  }

  /** A pure POSIX path drops empty and "." components. */
  function Proper(parts: Segments): (r: Segments)
    ensures forall x <- r :: x in parts && x != "" && x != "."
  {
    if parts == [] then []
    else if parts[0] == "" || parts[0] == "." then Proper(parts[1..])
    else [parts[0]] + Proper(parts[1..])
  }

  function Parts(path: string): Segments {
    Proper(Split(ToSlash(path)))
  }

  predicate Absolute(path: string) {
    path != "" && ToSlash(path)[0] == '/'
  }

  function Join(parts: Segments): string {
    if parts == [] then "" else if |parts| == 1 then parts[0] else parts[0] + "/" + Join(parts[1..])
  }

  // ---------------------------------------------------------------- case folding

  /** Case folding is left open: any character-wise folding that neither adds nor removes slashes or stars. */
  ghost predicate FoldOk(fold: char -> string) {
    && fold('/') == "/"
    && forall c: char :: c != '/' ==> fold(c) != "" && '/' !in fold(c) && (c != '*' ==> '*' !in fold(c))
  }

  function FoldString(s: string, fold: char -> string): string {
    if s == "" then "" else fold(s[0]) + FoldString(s[1..], fold)
  }

  function FoldEach(parts: Segments, fold: char -> string): Segments {
    if parts == [] then [] else [FoldString(parts[0], fold)] + FoldEach(parts[1..], fold)
  }

  // ---------------------------------------------------------------- reservations

  predicate Unbounded(path: string) {
    Absolute(path) || ".." in Parts(path) || Parts(path) == []
  }

  predicate HasGlob(path: string) {
    exists c <- path :: c in GLOBS
  }

  /** True when the hints say nothing precise: none, a glob, an absolute or parent path, or the root itself. */
  predicate ReservesWhole(paths: seq<string>) {
    paths == [] || exists p <- paths :: HasGlob(p) || Unbounded(p)
  }

  function Normal(path: string, fold: char -> string): string {
    FoldString(Join(Parts(path)), fold)
  }

  function ResourcesOf(paths: seq<string>, fold: char -> string): set<string> {
    if ReservesWhole(paths) then {WHOLE} else set p | p in paths :: Normal(p, fold)
  }

  predicate Nested(a: string, b: string) {
    a == b || b + "/" <= a || a + "/" <= b
  }

  predicate Conflicts(left: set<string>, right: set<string>) {
    WHOLE in left || WHOLE in right || exists a <- left, b <- right :: Nested(a, b)
  }

  method Resources(paths: seq<string>, fold: char -> string) returns (r: set<string>)
    ensures r == ResourcesOf(paths, fold)
  {
    if paths == [] || exists p <- paths :: HasGlob(p) {
      return {WHOLE};
    }
    var result: seq<string> := [];
    for i := 0 to |paths|
      invariant forall p <- paths[..i] :: !Unbounded(p)
      invariant |result| == i && forall j :: 0 <= j < i ==> result[j] == Normal(paths[j], fold)
    {
      if Unbounded(paths[i]) {
        return {WHOLE};
      }
      result := result + [Normal(paths[i], fold)];
    }
    assert paths[..|paths|] == paths;
    r := set x | x in result;
    assert forall p <- paths :: Normal(p, fold) in r by {
      forall p | p in paths ensures Normal(p, fold) in r {
        var j :| 0 <= j < |paths| && paths[j] == p;
        assert result[j] in result;
      }
    }
  }

  // ---------------------------------------------------------------- strings against segments

  predicate Plain(parts: Segments) {
    forall x <- parts :: x != "" && '/' !in x
  }

  /** Every segment followed by a slash. */
  function Terminated(parts: Segments): string {
    if parts == [] then "" else parts[0] + "/" + Terminated(parts[1..])
  }

  lemma {:induction false} JoinTerminated(parts: Segments)
    requires parts != []
    ensures Join(parts) + "/" == Terminated(parts)
  {
    if |parts| == 1 {
      assert parts[1..] == [];
    } else {
      JoinTerminated(parts[1..]);
      assert parts[0] + "/" + Join(parts[1..]) + "/" == parts[0] + "/" + (Join(parts[1..]) + "/");
    }
  }

  /** Up to the first slash two strings cannot disagree. */
  lemma FirstSegment(x: string, u: string, y: string, v: string)
    requires '/' !in x && '/' !in y
    requires x + "/" + u <= y + "/" + v
    ensures x == y && u <= v
  {
    var s, t := x + "/" + u, y + "/" + v;
    assert s[|x|] == '/' && t[|y|] == '/';
    assert forall i :: 0 <= i < |x| ==> s[i] == x[i] && x[i] in x;
    assert forall i :: 0 <= i < |y| ==> t[i] == y[i] && y[i] in y;
    assert |x| == |y|;
    assert x == s[..|x|] && y == t[..|y|];
    assert u == s[|x| + 1..] && v == t[|y| + 1..];
  }

  lemma {:induction false} TerminatedPrefix(a: Segments, b: Segments)
    requires Plain(a) && Plain(b)
    ensures Terminated(b) <= Terminated(a) <==> b <= a
  {
    if b != [] {
      if a != [] {
        assert Plain(a[1..]) by { assert forall x <- a[1..] :: x in a; }
        assert Plain(b[1..]) by { assert forall x <- b[1..] :: x in b; }
        assert b[0] in b && a[0] in a;
        if Terminated(b) <= Terminated(a) {
          FirstSegment(b[0], Terminated(b[1..]), a[0], Terminated(a[1..]));
        }
        TerminatedPrefix(a[1..], b[1..]);
        if b <= a {
          assert b[1..] <= a[1..];
          assert Terminated(a) == Terminated(b) + Terminated(a)[|Terminated(b)|..];
        }
        if Terminated(b) <= Terminated(a) {
          assert b == [b[0]] + b[1..] && a == [a[0]] + a[1..];
        }
      }
    }
  }

  /** The string test says ancestor or equal, segment by segment. */
  lemma AncestorByString(a: Segments, b: Segments)
    requires Plain(a) && Plain(b) && a != [] && b != []
    ensures (Join(a) == Join(b) || Join(b) + "/" <= Join(a)) <==> b <= a
  {
    JoinTerminated(a);
    JoinTerminated(b);
    TerminatedPrefix(a, b);
    var s, t := Join(a), Join(b);
    if t + "/" <= s + "/" && |t| < |s| {
      assert t + "/" == (s + "/")[..|t| + 1] == s[..|t| + 1];
    }
    if t + "/" <= s + "/" && |t| == |s| {
      assert t == (t + "/")[..|t|] && s == (s + "/")[..|s|];
    }
    if t + "/" <= s {
      assert t + "/" <= s + "/";
    }
  }

  lemma {:induction false} FoldConcat(s: string, t: string, fold: char -> string)
    ensures FoldString(s + t, fold) == FoldString(s, fold) + FoldString(t, fold)
  {
    if s == "" {
      assert s + t == t;
    } else {
      FoldConcat(s[1..], t, fold);
      assert (s + t)[0] == s[0] && (s + t)[1..] == s[1..] + t;
      assert fold(s[0]) + (FoldString(s[1..], fold) + FoldString(t, fold)) == FoldString(s, fold) + FoldString(t, fold);
    }
  }

  lemma {:induction false} FoldSegment(x: string, fold: char -> string)
    requires FoldOk(fold) && '/' !in x && '*' !in x
    ensures '/' !in FoldString(x, fold) && '*' !in FoldString(x, fold)
    ensures x != "" ==> FoldString(x, fold) != ""
  {
    if x != "" {
      FoldSegment(x[1..], fold);
    }
  }

  lemma {:induction false} FoldJoin(parts: Segments, fold: char -> string)
    requires FoldOk(fold) && Plain(parts) && forall x <- parts :: '*' !in x
    ensures FoldString(Join(parts), fold) == Join(FoldEach(parts, fold))
    ensures Plain(FoldEach(parts, fold)) && |FoldEach(parts, fold)| == |parts|
    ensures forall x <- FoldEach(parts, fold) :: '*' !in x
  {
    if parts != [] {
      FoldSegment(parts[0], fold);
      FoldJoin(parts[1..], fold);
      if |parts| > 1 {
        FoldConcat(parts[0] + "/", Join(parts[1..]), fold);
        FoldConcat(parts[0], "/", fold);
        assert FoldString("/", fold) == "/" by { assert "/"[1..] == ""; }
      } else {
        assert parts[1..] == [];
      }
    }
  }

  // ---------------------------------------------------------------- what a reservation covers

  /** The segment lists a precise reservation names. */
  function Claims(paths: seq<string>, fold: char -> string): set<Segments> {
    set p | p in paths :: FoldEach(Parts(p), fold)
  }

  ghost predicate Covers(claims: set<Segments>, x: Segments) {
    exists p <- claims :: p <= x
  }

  lemma ClaimOf(path: string, fold: char -> string)
    requires FoldOk(fold) && !HasGlob(path) && !Unbounded(path)
    ensures var c := FoldEach(Parts(path), fold);
      Normal(path, fold) == Join(c) && Plain(c) && c != [] && Normal(path, fold) != WHOLE
  {
    var parts := Parts(path);
    forall i | 0 <= i < |path|
      ensures ToSlash(path)[i] != '*'
    {
      assert path[i] in path && path[i] !in GLOBS;
    }
    SplitPieces(ToSlash(path), '*');
    assert forall x <- parts :: '*' !in x && '/' !in x && x != "";
    FoldJoin(parts, fold);
    var c := FoldEach(parts, fold);
    assert c[0][0] in c[0] && Join(c)[0] == c[0][0];
  }

  lemma NestedIffComparable(p: string, q: string, fold: char -> string)
    requires FoldOk(fold) && !HasGlob(p) && !Unbounded(p) && !HasGlob(q) && !Unbounded(q)
    ensures Nested(Normal(p, fold), Normal(q, fold)) <==> Comparable(FoldEach(Parts(p), fold), FoldEach(Parts(q), fold))
  {
    ClaimOf(p, fold);
    ClaimOf(q, fold);
    AncestorByString(FoldEach(Parts(p), fold), FoldEach(Parts(q), fold));
    AncestorByString(FoldEach(Parts(q), fold), FoldEach(Parts(p), fold));
  }

  /** Two precise reservations conflict exactly when some two of their claims are comparable. */
  lemma ConflictIffComparable(left: seq<string>, right: seq<string>, fold: char -> string)
    requires FoldOk(fold) && !ReservesWhole(left) && !ReservesWhole(right)
    ensures Conflicts(ResourcesOf(left, fold), ResourcesOf(right, fold)) <==>
      exists p <- left, q <- right :: Comparable(FoldEach(Parts(p), fold), FoldEach(Parts(q), fold))
  {
    forall p | p in left + right
      ensures Normal(p, fold) != WHOLE && !HasGlob(p) && !Unbounded(p)
    {
      ClaimOf(p, fold);
    }
    forall p, q | p in left && q in right
      ensures Nested(Normal(p, fold), Normal(q, fold)) <==> Comparable(FoldEach(Parts(p), fold), FoldEach(Parts(q), fold))
    {
      assert p in left + right && q in left + right;
      NestedIffComparable(p, q, fold);
    }
    if exists p <- left, q <- right :: Comparable(FoldEach(Parts(p), fold), FoldEach(Parts(q), fold)) {
      var p, q :| p in left && q in right && Comparable(FoldEach(Parts(p), fold), FoldEach(Parts(q), fold));
      assert Normal(p, fold) in ResourcesOf(left, fold) && Normal(q, fold) in ResourcesOf(right, fold);
    }
    assert WHOLE !in ResourcesOf(left, fold) by {
      assert forall p <- left :: p in left + right;
    }
    assert WHOLE !in ResourcesOf(right, fold) by {
      assert forall p <- right :: p in left + right;
    }
  }

  /**
   Two reservations do not conflict exactly when both are precise and no path whatsoever lies under
   a name of each.
   */
  lemma NoConflictIffDisjointTrees(left: seq<string>, right: seq<string>, fold: char -> string)
    requires FoldOk(fold)
    ensures !Conflicts(ResourcesOf(left, fold), ResourcesOf(right, fold)) <==>
      && !ReservesWhole(left) && !ReservesWhole(right)
      && forall x: Segments :: !(Covers(Claims(left, fold), x) && Covers(Claims(right, fold), x))
  {
    if !ReservesWhole(left) && !ReservesWhole(right) {
      ConflictIffComparable(left, right, fold);
      forall p, q | p in left && q in right && Comparable(FoldEach(Parts(p), fold), FoldEach(Parts(q), fold))
        ensures exists x: Segments :: Covers(Claims(left, fold), x) && Covers(Claims(right, fold), x)
      {
        var a, b := FoldEach(Parts(p), fold), FoldEach(Parts(q), fold);
        assert a in Claims(left, fold) && b in Claims(right, fold);
        var x := if a <= b then b else a;
        assert Covers(Claims(left, fold), x) && Covers(Claims(right, fold), x);
      }
      forall x: Segments | Covers(Claims(left, fold), x) && Covers(Claims(right, fold), x)
        ensures exists p <- left, q <- right :: Comparable(FoldEach(Parts(p), fold), FoldEach(Parts(q), fold))
      {
        var a :| a in Claims(left, fold) && a <= x;
        var b :| b in Claims(right, fold) && b <= x;
        var p :| p in left && a == FoldEach(Parts(p), fold);
        var q :| q in right && b == FoldEach(Parts(q), fold);
        assert Comparable(a, b);
      }
    }
  }

  predicate Comparable(a: Segments, b: Segments) {
    a <= b || b <= a
  }

  lemma ConflictsSymmetric(left: set<string>, right: set<string>)
    ensures Conflicts(left, right) <==> Conflicts(right, left)
  {
    if exists a <- left, b <- right :: Nested(a, b) {
      var a, b :| a in left && b in right && Nested(a, b);
      assert Nested(b, a);
    }
    if exists a <- right, b <- left :: Nested(a, b) {
      var a, b :| a in right && b in left && Nested(a, b);
      assert Nested(b, a);
    }
  }
}
