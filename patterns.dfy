/** The two regular-expression uses of the pipeline, modelled by their meaning.

    A template pattern has the form `A.*B.*C`: literal pieces separated by `.*`.
    Under `re.search` it holds when the pieces occur in the question in order,
    without overlapping, and no gap between two consecutive pieces contains a
    newline (`.` does not match '\n').

    The `unit_name` capture `([一-龥A-Za-z0-9]+街道办事处)` is the leftmost
    match, extended greedily, of a non-empty run of class characters followed by
    the suffix 街道办事处. */
module Patterns {
  import opened Wrappers
  import opened Text

  /** The literal pieces of a pattern: the text between successive `.*`. */
  function Pieces(pattern: string): (ps: seq<string>)
    ensures |ps| >= 1
    decreases |pattern|
  {
    if |pattern| < 2 then [pattern]
    else if pattern[0] == '.' && pattern[1] == '*' then [""] + Pieces(pattern[2..])
    else
      var rest := Pieces(pattern[1..]);
      [[pattern[0]] + rest[0]] + rest[1..]
  }

  /** Joining the pieces with `.*` gives the pattern back. */
  lemma {:induction false} PiecesJoin(pattern: string)
    ensures Join(Pieces(pattern), ".*") == pattern
    decreases |pattern|
  {
    if |pattern| < 2 {
    } else if pattern[0] == '.' && pattern[1] == '*' {
      var rest := Pieces(pattern[2..]);
      PiecesJoin(pattern[2..]);
      assert ([""] + rest)[1..] == rest;
      assert pattern == ".*" + pattern[2..];
    } else {
      var rest := Pieces(pattern[1..]);
      PiecesJoin(pattern[1..]);
      var ps := [[pattern[0]] + rest[0]] + rest[1..];
      if |rest| > 1 {
        assert ps[1..] == rest[1..];
      }
      assert pattern == [pattern[0]] + pattern[1..];
    }
  }

  predicate NoDot(s: string) {
    forall k :: 0 <= k < |s| ==> s[k] != '.'
  }

  /** A dot-free literal is one piece, and one in front of `.*` is split off as the
      first piece. */
  lemma {:induction false} PiecesOfLiteral(lit: string, rest: string)
    requires NoDot(lit)
    ensures Pieces(lit) == [lit]
    ensures Pieces(lit + ".*" + rest) == [lit] + Pieces(rest)
    decreases |lit|
  {
    if lit == [] {
      assert lit + ".*" + rest == ".*" + rest;
      assert (".*" + rest)[2..] == rest;
    } else {
      PiecesOfLiteral(lit[1..], rest);
      assert (lit + ".*" + rest)[1..] == lit[1..] + ".*" + rest;
      if |lit| == 1 {
        assert lit[1..] == [];
      }
      assert [lit[0]] + lit[1..] == lit;
    }
  }

  /** Joining dot-free literals with `.*` and splitting again gives them back. */
  lemma {:induction false} PiecesOfJoin(ps: seq<string>)
    requires ps != [] && forall k :: 0 <= k < |ps| ==> NoDot(ps[k])
    ensures Pieces(Join(ps, ".*")) == ps
  {
    if |ps| == 1 {
      PiecesOfLiteral(ps[0], "");
    } else {
      var rest := ps[1..];
      assert forall k :: 0 <= k < |rest| ==> NoDot(rest[k]) by {
        forall k | 0 <= k < |rest| ensures NoDot(rest[k]) { assert rest[k] == ps[k + 1]; }
      }
      PiecesOfJoin(rest);
      var tail := Join(rest, ".*");
      assert Join(ps, ".*") == ps[0] + ".*" + tail;
      PiecesOfLiteral(ps[0], tail);
      assert [ps[0]] + rest == ps;
    }
  }

  predicate NewlineFree(s: string) {
    forall k :: 0 <= k < |s| ==> s[k] != '\n'
  }

  /** Declarative meaning of a piece list: the pieces occur in `q` in order without
      overlap; when `anchored`, the text before the first piece must be newline-free
      (it is spanned by a `.*`). */
  ghost predicate InOrder(ps: seq<string>, q: string, anchored: bool)
    decreases |ps|
  {
    ps == [] ||
    exists j :: OccursAt(ps[0], q, j) && (anchored ==> NewlineFree(q[..j]))
                && InOrder(ps[1..], q[j + |ps[0]|..], true)
  }

  lemma InOrderPlaced(ps: seq<string>, q: string, anchored: bool)
    requires ps != []
    ensures InOrder(ps, q, anchored) <==> exists j :: PlacedAt(ps, q, j, anchored)
  {
    if InOrder(ps, q, anchored) {
      var j :| OccursAt(ps[0], q, j) && (anchored ==> NewlineFree(q[..j]))
               && InOrder(ps[1..], q[j + |ps[0]|..], true);
      assert PlacedAt(ps, q, j, anchored);
    }
  }

  /** The first piece placed at `j`, and the remaining pieces in order after it. */
  ghost predicate PlacedAt(ps: seq<string>, q: string, j: int, anchored: bool) {
    ps != [] && OccursAt(ps[0], q, j) && (anchored ==> NewlineFree(q[..j]))
    && InOrder(ps[1..], q[j + |ps[0]|..], true)
  }

  /** Placing a first piece at `j` in front of pieces that occur in order in the rest. */
  lemma InOrderCons(p: string, ps: seq<string>, q: string, j: int, anchored: bool, rest: string)
    requires OccursAt(p, q, j) && (anchored ==> NewlineFree(q[..j]))
    requires rest == q[j + |p|..] && InOrder(ps, rest, true)
    ensures InOrder([p] + ps, q, anchored)
  {
    assert ([p] + ps)[1..] == ps;
    assert PlacedAt([p] + ps, q, j, anchored);
    InOrderPlaced([p] + ps, q, anchored);
  }

  /** Piece `k` placed at `js[k]` ends before piece `k + 1` starts, with no newline between. */
  predicate GapAfter(ps: seq<string>, q: string, js: seq<nat>, k: int) {
    0 <= k < |ps| - 1 && k + 1 < |js|
    && js[k] + |ps[k]| <= js[k + 1] <= |q| && NewlineFree(q[js[k] + |ps[k]|..js[k + 1]])
  }

  /** Pieces placed at increasing positions `js` of `q`, with newline-free gaps between
      them (and before the first one when anchored), occur in order from `start` on. */
  lemma {:induction false} InOrderAtPositions(ps: seq<string>, q: string, start: nat, js: seq<nat>, anchored: bool)
    requires |js| == |ps| && start <= |q|
    requires forall k :: 0 <= k < |ps| ==> OccursAt(ps[k], q, js[k])
    requires forall k :: 0 <= k < |ps| - 1 ==> GapAfter(ps, q, js, k)
    requires |ps| > 0 ==> start <= js[0] <= |q| && (anchored ==> NewlineFree(q[start..js[0]]))
    ensures InOrder(ps, q[start..], anchored)
    decreases |ps|
  {
    if ps != [] {
      var p := ps[0];
      var next := js[0] + |p|;
      var rest := q[start..];
      var j := js[0] - start;
      assert rest[j..j + |p|] == q[js[0]..next];
      assert rest[..j] == q[start..js[0]];
      assert rest[j + |p|..] == q[next..];
      assert forall k :: 0 <= k < |ps| - 2 ==> GapAfter(ps[1..], q, js[1..], k) by {
        forall k | 0 <= k < |ps| - 2 ensures GapAfter(ps[1..], q, js[1..], k) {
          assert GapAfter(ps, q, js, k + 1);
        }
      }
      if |ps| > 1 {
        assert GapAfter(ps, q, js, 0);
      }
      InOrderAtPositions(ps[1..], q, next, js[1..], true);
      assert [p] + ps[1..] == ps;
      InOrderCons(p, ps[1..], rest, j, anchored, q[next..]);
    }
  }

  /** The backtracking search `re.search` performs: try each position for the first
      piece, and on the rest of the question continue with the remaining pieces. */
  predicate Search(ps: seq<string>, q: string, anchored: bool)
    decreases |ps|, |q| + 2
  {
    ps == [] || SearchAt(ps, q, 0, anchored)
  }

  predicate SearchAt(ps: seq<string>, q: string, i: nat, anchored: bool)
    requires ps != []
    decreases |ps|, |q| + 1 - i
  {
    if i + |ps[0]| > |q| then false
    else (OccursAt(ps[0], q, i) && Search(ps[1..], q[i + |ps[0]|..], true))
         || (i < |q| && !(anchored && q[i] == '\n') && SearchAt(ps, q, i + 1, anchored))
  }

  lemma {:induction false} SearchAtMeaning(ps: seq<string>, q: string, i: nat, anchored: bool)
    requires ps != [] && i <= |q|
    requires anchored ==> NewlineFree(q[..i])
    ensures SearchAt(ps, q, i, anchored) <==> exists j :: i <= j && PlacedAt(ps, q, j, anchored)
    decreases |ps|, |q| + 1 - i
  {
    var p := ps[0];
    if i + |p| <= |q| {
      SearchMeaning(ps[1..], q[i + |p|..], true);
      assert OccursAt(p, q, i) && Search(ps[1..], q[i + |p|..], true) <==> PlacedAt(ps, q, i, anchored);
      var go := i < |q| && !(anchored && q[i] == '\n');
      if go {
        assert anchored ==> NewlineFree(q[..i + 1]) by {
          if anchored {
            assert forall k :: 0 <= k < i + 1 ==> q[..i + 1][k] == (if k < i then q[..i][k] else q[i]);
          }
        }
        SearchAtMeaning(ps, q, i + 1, anchored);
      } else {
        assert forall j :: i < j ==> !PlacedAt(ps, q, j, anchored);
      }
    }
  }

  lemma {:induction false} SearchMeaning(ps: seq<string>, q: string, anchored: bool)
    ensures Search(ps, q, anchored) <==> InOrder(ps, q, anchored)
    decreases |ps|, |q| + 2
  {
    if ps != [] {
      assert NewlineFree(q[..0]);
      SearchAtMeaning(ps, q, 0, anchored);
      InOrderPlaced(ps, q, anchored);
    }
  }

  /** `re.search(pattern, q)` succeeds, for a pattern of `.*`-separated literal pieces. */
  predicate Matches(pattern: string, q: string) {
    Search(Pieces(pattern), q, false)
  }

  /** The search succeeds exactly when the pieces occur in order with newline-free gaps. */
  lemma MatchesMeaning(pattern: string, q: string)
    ensures Matches(pattern, q) <==> InOrder(Pieces(pattern), q, false)
  {
    SearchMeaning(Pieces(pattern), q, false);
  }

  // ---------------------------------------------------------------- unit_name

  const OfficeSuffix: string := "街道办事处"

  /** The character class `[一-龥A-Za-z0-9]`. */
  predicate IsUnitChar(c: char) {
    ('\U{4E00}' <= c <= '\U{9FA5}') || ('A' <= c <= 'Z') || ('a' <= c <= 'z') || ('0' <= c <= '9')
  }

  predicate AllUnitChars(s: string) {
    forall k :: 0 <= k < |s| ==> IsUnitChar(s[k])
  }

  /** The regex matches at start `i` with the suffix beginning at `j`: `q[i..j]` is a
      non-empty run of class characters and `q[j..]` starts with the suffix. */
  predicate UnitMatch(q: string, i: int, j: int) {
    0 <= i < j && OccursAt(OfficeSuffix, q, j) && (forall k :: i <= k < j ==> IsUnitChar(q[k]))
  }

  /** The end of the maximal run of class characters starting at `i`. */
  function RunEnd(q: string, i: nat): (e: nat)
    requires i <= |q|
    ensures i <= e <= |q|
    ensures forall k :: i <= k < e ==> IsUnitChar(q[k])
    ensures e < |q| ==> !IsUnitChar(q[e])
    decreases |q| - i
  {
    if i < |q| && IsUnitChar(q[i]) then RunEnd(q, i + 1) else i
  }

  /** The largest `j` with `lo < j <= hi` at which the suffix occurs. */
  function LastSuffix(q: string, lo: int, hi: int): (r: Option<int>)
    ensures r.Some? ==> lo < r.value <= hi && OccursAt(OfficeSuffix, q, r.value)
    ensures r.Some? ==> forall j :: r.value < j <= hi ==> !OccursAt(OfficeSuffix, q, j)
    ensures r.None? ==> forall j :: lo < j <= hi ==> !OccursAt(OfficeSuffix, q, j)
    decreases hi - lo
  {
    if hi <= lo then None
    else if OccursAt(OfficeSuffix, q, hi) then Some(hi)
    else LastSuffix(q, lo, hi - 1)
  }

  lemma SuffixIsUnit()
    ensures AllUnitChars(OfficeSuffix)
  {
  }

  /** A match starting at `i` lies inside the run of class characters starting at `i`. */
  lemma UnitMatchWithinRun(q: string, i: nat, j: int)
    requires i <= |q| && UnitMatch(q, i, j)
    ensures j + |OfficeSuffix| <= RunEnd(q, i)
  {
    SuffixIsUnit();
  }

  /** Leftmost start at or after `from`, and for it the greedy (longest) suffix position. */
  function FindUnitFrom(q: string, from: nat): (r: Option<(int, int)>)
    requires from <= |q|
    ensures r.None? ==> forall i, j :: from <= i ==> !UnitMatch(q, i, j)
    ensures r.Some? ==> from <= r.value.0 && UnitMatch(q, r.value.0, r.value.1)
    ensures r.Some? ==> forall i, j :: from <= i < r.value.0 ==> !UnitMatch(q, i, j)
    ensures r.Some? ==> forall j :: r.value.1 < j ==> !UnitMatch(q, r.value.0, j)
    decreases |q| - from
  {
    if from == |q| then
      assert forall i, j :: from <= i && UnitMatch(q, i, j) ==> false by {
        forall i, j | from <= i && UnitMatch(q, i, j) ensures false { }
      }
      None
    else
      var e := RunEnd(q, from);
      var last := LastSuffix(q, from, e - |OfficeSuffix|);
      assert forall j :: UnitMatch(q, from, j) <==> from < j <= e - |OfficeSuffix| && OccursAt(OfficeSuffix, q, j) by {
        forall j ensures UnitMatch(q, from, j) <==> from < j <= e - |OfficeSuffix| && OccursAt(OfficeSuffix, q, j) {
          if UnitMatch(q, from, j) { UnitMatchWithinRun(q, from, j); }
        }
      }
      if last.Some? then Some((from, last.value))
      else FindUnitFrom(q, from + 1)
  }

  /** The span (start, suffix start) of the leftmost greedy match in `q`. */
  function FindUnit(q: string): Option<(int, int)> {
    FindUnitFrom(q, 0)
  }

  /** `match.group(1)` of the unit-name regex, or None when it does not match. */
  function UnitCapture(q: string): (r: Option<string>)
    ensures r.None? <==> forall i, j :: !UnitMatch(q, i, j)
  {
    match FindUnit(q)
    case None => None
    case Some((i, j)) => Some(q[i..j + |OfficeSuffix|])
  }

  /** What the captured `unit_name` is: a slice of the question that ends with the
      suffix and consists of class characters only; it starts at the leftmost
      position where the regex can match and is the longest match from there. */
  lemma UnitCaptureProperties(q: string)
    requires UnitCapture(q).Some?
    ensures var (i, j) := FindUnit(q).value;
      && UnitCapture(q).value == q[i..j + |OfficeSuffix|]
      && Contains(q, UnitCapture(q).value)
      && |UnitCapture(q).value| > |OfficeSuffix|
      && UnitCapture(q).value[|UnitCapture(q).value| - |OfficeSuffix|..] == OfficeSuffix
      && AllUnitChars(UnitCapture(q).value)
      && (forall i', j' :: 0 <= i' < i ==> !UnitMatch(q, i', j'))
      && (forall j' :: j < j' ==> !UnitMatch(q, i, j'))
  {
    var (i, j) := FindUnit(q).value;
    var c := q[i..j + |OfficeSuffix|];
    ContainsSlice(q, i, j + |OfficeSuffix|);
    SuffixIsUnit();
    assert c[|c| - |OfficeSuffix|..] == q[j..j + |OfficeSuffix|];
    forall k | 0 <= k < |c| ensures IsUnitChar(c[k]) {
      if k >= j - i { assert c[k] == OfficeSuffix[k - (j - i)]; }
    }
  }
}
