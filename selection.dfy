/**
 * A multi-select selection of a questionnaire: a JavaScript `Set<string>`,
 * which iterates in insertion order, modelled as a sequence of labels in
 * which no label occurs twice. `Add`, `Delete` and `Toggle` are the set
 * operations the toggle handlers use; `Join` is `Array.from(set).join(sep)`.
 * `Split` is not in the program: it is the reference inverse of `Join`.
 */
module Selection {

  /** The separator every form joins its multi-selects with. */
  const Sep: string := ", "

  /** No label occurs twice: the shape of a JavaScript Set in insertion order. */
  ghost predicate NoDup(s: seq<string>)
  {
    forall i, j :: 0 <= i < j < |s| ==> s[i] != s[j]
  }

  /** `Set.prototype.add`: an absent label goes to the end, a present one keeps its place. */
  function Add(s: seq<string>, x: string): (r: seq<string>)
    ensures forall y :: y in r <==> y in s || y == x
    ensures NoDup(s) ==> NoDup(r)
  {
    if x in s then s else s + [x]
  }

  /** `Set.prototype.delete`: the label is gone, every other label stays. */
  function Delete(s: seq<string>, x: string): (r: seq<string>)
    ensures forall y :: y in r <==> y in s && y != x
    ensures |r| <= |s|
    ensures NoDup(s) ==> NoDup(r)
  {
    if s == [] then []
    else if s[0] == x then Delete(s[1..], x)
    else
      var rest := Delete(s[1..], x);
      assert NoDup(s) ==> NoDup(s[1..]) && s[0] !in rest by {
        if NoDup(s) {
          assert forall i, j :: 0 <= i < j < |s[1..]| ==> s[1..][i] == s[i + 1] && s[1..][j] == s[j + 1];
          assert forall i :: 0 <= i < |s[1..]| ==> s[1..][i] == s[i + 1] != s[0];
        }
      }
      [s[0]] + rest
  }

  /** The toggle handlers: delete the label if the set has it, add it otherwise. */
  function Toggle(s: seq<string>, x: string): (r: seq<string>)
    ensures x in r <==> x !in s
    ensures forall y :: y != x ==> (y in r <==> y in s)
    ensures NoDup(s) ==> NoDup(r)
  {
    if x in s then Delete(s, x) else Add(s, x)
  }

  /** Deleting a label at index k of a duplicate-free selection keeps the others in order. */
  lemma {:induction false} DeleteAt(s: seq<string>, k: nat)
    requires NoDup(s) && k < |s|
    ensures Delete(s, s[k]) == s[..k] + s[k + 1..]
  {
    var x := s[k];
    if k == 0 {
      DeleteAbsent(s[1..], x);
      assert s[1..] == s[..0] + s[1..];
    } else {
      assert s[1..][k - 1] == x;
      DeleteAt(s[1..], k - 1);
      assert s[..k] + s[k + 1..] == [s[0]] + (s[1..][..k - 1] + s[1..][k..]);
    }
  }

  /** Deleting an absent label changes nothing. */
  lemma {:induction false} DeleteAbsent(s: seq<string>, x: string)
    requires x !in s
    ensures Delete(s, x) == s
  {
    if s != [] {
      DeleteAbsent(s[1..], x);
      assert s == [s[0]] + s[1..];
    }
  }

  /** Deleting a label that was just appended to a selection without it gives the selection back. */
  lemma {:induction false} DeleteAppended(s: seq<string>, x: string)
    requires x !in s
    ensures Delete(s + [x], x) == s
  {
    if s == [] {
      assert [x][1..] == [];
    } else {
      assert (s + [x])[1..] == s[1..] + [x];
      DeleteAppended(s[1..], x);
      assert s == [s[0]] + s[1..];
    }
  }

  /** Toggling an absent label appends it at the end. */
  lemma ToggleAbsent(s: seq<string>, x: string)
    requires x !in s
    ensures Toggle(s, x) == s + [x]
  {
  }

  /** Toggling a present label removes it and leaves the others in their relative order. */
  lemma TogglePresent(s: seq<string>, k: nat)
    requires NoDup(s) && k < |s|
    ensures Toggle(s, s[k]) == s[..k] + s[k + 1..]
  {
    DeleteAt(s, k);
  }

  /** For an absent label, two toggles restore the exact sequence. */
  lemma ToggleTwiceAbsent(s: seq<string>, x: string)
    requires x !in s
    ensures Toggle(Toggle(s, x), x) == s
  {
    ToggleAbsent(s, x);
    DeleteAppended(s, x);
  }

  /**
   * For a present label, two toggles restore membership but move the label
   * to the end, so the sequence differs unless the label was already last.
   */
  lemma ToggleTwicePresent(s: seq<string>, k: nat)
    requires NoDup(s) && k < |s|
    ensures Toggle(Toggle(s, s[k]), s[k]) == s[..k] + s[k + 1..] + [s[k]]
    ensures forall y :: y in Toggle(Toggle(s, s[k]), s[k]) <==> y in s
    ensures Toggle(Toggle(s, s[k]), s[k]) == s <==> k == |s| - 1
  {
    var x := s[k];
    var once := s[..k] + s[k + 1..];
    TogglePresent(s, k);
    assert x !in once by {
      forall i | 0 <= i < |once| ensures once[i] != x {
        if i < k { assert once[i] == s[i]; } else { assert once[i] == s[i + 1]; }
      }
    }
    ToggleAbsent(once, x);
    var twice := once + [x];
    if k == |s| - 1 {
      assert twice == s;
    } else {
      assert twice[k] == s[k + 1] != s[k];
    }
  }

  /** The number of characters of all the labels together. */
  function TotalLength(s: seq<string>): nat
  {
    if s == [] then 0 else |s[0]| + TotalLength(s[1..])
  }

  /** `Array.prototype.join`: the labels in order with the separator between neighbours. */
  function Join(s: seq<string>, sep: string): (r: string)
    ensures |s| > 0 ==> |r| == TotalLength(s) + (|s| - 1) * |sep|
    ensures |s| > 0 ==> IsPrefix(s[0], r)
  {
    if |s| == 0 then ""
    else if |s| == 1 then s[0]
    else s[0] + sep + Join(s[1..], sep)
  }

  /** Adding a label to the end of a non-empty selection adds the separator and the label to the end of its join. */
  lemma {:induction false} JoinAppend(s: seq<string>, x: string, sep: string)
    requires |s| > 0
    ensures Join(s + [x], sep) == Join(s, sep) + sep + x
  {
    if |s| > 1 {
      assert (s + [x])[1..] == s[1..] + [x];
      JoinAppend(s[1..], x, sep);
    } else {
      assert (s + [x])[1..] == [x];
    }
  }

  /** With a non-empty separator the join is empty exactly for no labels or the one label "". */
  lemma JoinEmptyIff(s: seq<string>, sep: string)
    requires |sep| > 0
    ensures Join(s, sep) == "" <==> s == [] || s == [""]
  {
    if |s| > 1 {
      assert |Join(s, sep)| >= |sep|;
    }
  }

  /** `p` is a prefix of `t`. */
  predicate IsPrefix(p: string, t: string)
  {
    |p| <= |t| && t[..|p|] == p
  }

  /** Cuts `t` at every occurrence of `sep`, scanning from the left: the inverse of `Join`. */
  function Split(t: string, sep: string): (r: seq<string>)
    requires |sep| > 0
    ensures |r| >= 1
    decreases |t|
  {
    if IsPrefix(sep, t) then [""] + Split(t[|sep|..], sep)
    else if t == [] then [""]
    else
      var rest := Split(t[1..], sep);
      [[t[0]] + rest[0]] + rest[1..]
  }

  /** A label the separator cannot be found in: it has no comma, the first character of `Sep`. */
  predicate CommaFree(l: string)
  {
    ',' !in l
  }

  /** Splitting stops at the first separator after a comma-free label. */
  lemma {:induction false} SplitAfterLabel(l: string, rest: string)
    requires CommaFree(l)
    ensures Split(l + Sep + rest, Sep) == [l] + Split(rest, Sep)
  {
    var t := l + Sep + rest;
    if l == [] {
      assert t == Sep + rest;
      assert t[..|Sep|] == Sep;
      assert t[|Sep|..] == rest;
    } else {
      assert t[0] == l[0] != ',';
      assert !IsPrefix(Sep, t);
      assert t[1..] == l[1..] + Sep + rest;
      SplitAfterLabel(l[1..], rest);
      assert [l[0]] + l[1..] == l;
    }
  }

  /** A comma-free label splits to itself. */
  lemma {:induction false} SplitLabel(l: string)
    requires CommaFree(l)
    ensures Split(l, Sep) == [l]
  {
    if l != [] {
      assert !IsPrefix(Sep, l) by {
        if |Sep| <= |l| { assert l[..|Sep|][0] == l[0] != ','; }
      }
      SplitLabel(l[1..]);
      assert [l[0]] + l[1..] == l;
    }
  }

  /** Splitting the join of a non-empty selection of comma-free labels gives the selection back, in order. */
  lemma {:induction false} SplitJoin(s: seq<string>)
    requires |s| > 0
    requires forall l :: l in s ==> CommaFree(l)
    ensures Split(Join(s, Sep), Sep) == s
  {
    if |s| == 1 {
      SplitLabel(s[0]);
    } else {
      SplitAfterLabel(s[0], Join(s[1..], Sep));
      SplitJoin(s[1..]);
      assert s == [s[0]] + s[1..];
    }
  }

  /** The first `n` labels of a selection, as `Array.prototype.slice(0, n)` gives them. */
  function Take(s: seq<string>, n: nat): (r: seq<string>)
    ensures |r| == if |s| < n then |s| else n
    ensures r == s[..|r|]
  {
    if |s| <= n then s else s[..n]
  }
}
