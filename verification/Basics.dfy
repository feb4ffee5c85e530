/** Types shared by the other modules. */
module Basics {
  datatype Option<+T> = None | Some(value: T)

  /** All members of a sequence are different. */
  predicate Distinct<T(==)>(s: seq<T>) {
    forall i, j :: 0 <= i < j < |s| ==> s[i] != s[j]
  }

  lemma Associate<T>(a: seq<T>, b: seq<T>, c: seq<T>)
    ensures (a + b) + c == a + (b + c)
  {
  }

  function Flatten<T>(parts: seq<seq<T>>): seq<T> {
    if parts == [] then [] else Flatten(parts[..|parts| - 1]) + parts[|parts| - 1]
  }

  /** `includes` of a text. */
  predicate Includes(s: string, t: string) { t <= s || (s != "" && Includes(s[1..], t)) }

  ghost predicate OccursAt(s: string, t: string, i: nat) { i + |t| <= |s| && s[i..i + |t|] == t }

  lemma OccursInTail(s: string, t: string, i: nat)
    requires s != []
    ensures OccursAt(s, t, i + 1) <==> OccursAt(s[1..], t, i)
  {
    if i + 1 + |t| <= |s| {
      assert s[1..][i..i + |t|] == s[i + 1..i + 1 + |t|];
    }
  }

  lemma {:induction false} IncludesIff(s: string, t: string)
    ensures Includes(s, t) <==> exists i: nat :: OccursAt(s, t, i)
  {
    assert OccursAt(s, t, 0) <==> t <= s;
    if s != [] {
      IncludesIff(s[1..], t);
      if i: nat :| OccursAt(s[1..], t, i) { OccursInTail(s, t, i); }
      if i: nat :| OccursAt(s, t, i) && i > 0 { OccursInTail(s, t, i - 1); }
    }
  }

  /** All members but those equal to `x`, in order. */
  function Remove(s: seq<nat>, x: nat): (r: seq<nat>)
    ensures forall y :: y in r <==> y in s && y != x
  {
    if s == [] then [] else (if s[0] == x then [] else [s[0]]) + Remove(s[1..], x)
  }
}
