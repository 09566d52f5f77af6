/** String helpers used by the history search: `toLowerCase` and `includes`. */
module Text {

  /** Lower-casing of one character (ASCII letters; every other character is
      its own lower case in this model). */
  function LowerChar(c: char): char
  {
    if 'A' <= c <= 'Z' then (c as int + 32) as char else c
  }

  function Lower(s: string): (r: string)
    ensures |r| == |s|
    ensures forall i :: 0 <= i < |s| ==> r[i] == LowerChar(s[i])
  {
    if s == [] then [] else [LowerChar(s[0])] + Lower(s[1..])
  }

  predicate IsPrefix(p: string, s: string)
  {
    |p| <= |s| && s[..|p|] == p
  }

  /** `s.includes(q)`, computed by trying each start position in turn. */
  predicate Includes(s: string, q: string)
    decreases |s|
  {
    IsPrefix(q, s) || (s != [] && Includes(s[1..], q))
  }

  /** `q` occurs in `s` starting at position `i`. */
  predicate OccursAt(s: string, q: string, i: int)
  {
    0 <= i <= |s| - |q| && s[i..i + |q|] == q
  }

  /** `q` occurs somewhere in `s`. */
  ghost predicate OccursIn(s: string, q: string)
  {
    exists i :: OccursAt(s, q, i)
  }

  lemma OccursAtShift(s: string, q: string, i: int)
    requires s != [] && i > 0
    ensures OccursAt(s, q, i) <==> OccursAt(s[1..], q, i - 1)
  {
    if 0 <= i <= |s| - |q| {
      assert s[1..][i - 1..i - 1 + |q|] == s[i..i + |q|];
    }
  }

  lemma {:induction false} IncludesSound(s: string, q: string)
    requires Includes(s, q)
    ensures exists i :: OccursAt(s, q, i)
  {
    if IsPrefix(q, s) {
      assert OccursAt(s, q, 0);
    } else {
      IncludesSound(s[1..], q);
      var i :| OccursAt(s[1..], q, i);
      OccursAtShift(s, q, i + 1);
    }
  }

  lemma {:induction false} IncludesComplete(s: string, q: string, i: int)
    requires OccursAt(s, q, i)
    ensures Includes(s, q)
    decreases i
  {
    if i == 0 {
      assert IsPrefix(q, s);
    } else {
      OccursAtShift(s, q, i);
      IncludesComplete(s[1..], q, i - 1);
    }
  }

  /** `includes` holds exactly when `q` occurs in `s` at some position. */
  lemma IncludesIff(s: string, q: string)
    ensures Includes(s, q) <==> OccursIn(s, q)
  {
    if Includes(s, q) {
      IncludesSound(s, q);
    }
    if exists i :: OccursAt(s, q, i) {
      var i :| OccursAt(s, q, i);
      IncludesComplete(s, q, i);
    }
  }

  /** Every string includes the empty string. */
  lemma IncludesEmpty(s: string)
    ensures Includes(s, "")
  {
    assert IsPrefix("", s);
  }

  /** Lower-casing twice is lower-casing once. */
  lemma LowerIdempotent(s: string)
    ensures Lower(Lower(s)) == Lower(s)
  {
    var r := Lower(Lower(s));
    assert forall i :: 0 <= i < |s| ==> r[i] == LowerChar(LowerChar(s[i]));
  }
}
