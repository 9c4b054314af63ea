/** Python's substring test `sub in s`, which the rubric uses on element text, on import
    URLs and on serialised declaration blocks. Matching is exact: case and whitespace count. */
module Text {

  /** `sub` is a prefix of `s`. */
  predicate IsPrefix(sub: string, s: string) {
    |sub| <= |s| && sub == s[..|sub|]
  }

  /** `sub in s`: `sub` starts at some position of `s`, tried left to right.
      The empty string occurs in every string, and nothing longer than `s` occurs in it. */
  predicate Contains(s: string, sub: string)
    ensures |sub| == 0 ==> Contains(s, sub)
    ensures Contains(s, sub) ==> |sub| <= |s|
    decreases |s|
  {
    IsPrefix(sub, s) || (|s| > 0 && Contains(s[1..], sub))
  }

  /** `sub` occurs in `s` starting at index `i`. */
  ghost predicate OccursAt(s: string, sub: string, i: int) {
    0 <= i && i + |sub| <= |s| && s[i..i + |sub|] == sub
  }

  /** The left-to-right scan finds `sub` exactly when some slice of `s` equals it. */
  lemma {:induction false} ContainsIffOccurs(s: string, sub: string)
    ensures Contains(s, sub) <==> exists i :: OccursAt(s, sub, i)
    decreases |s|
  {
    if IsPrefix(sub, s) {
      assert OccursAt(s, sub, 0);
    } else if |s| > 0 {
      ContainsIffOccurs(s[1..], sub);
      if Contains(s[1..], sub) {
        var i :| OccursAt(s[1..], sub, i);
        assert s[1..][i..i + |sub|] == s[i + 1..i + 1 + |sub|];
        assert OccursAt(s, sub, i + 1);
      } else {
        forall i | OccursAt(s, sub, i) ensures false {
          assert i != 0;
          assert s[1..][i - 1..i - 1 + |sub|] == s[i..i + |sub|];
          assert OccursAt(s[1..], sub, i - 1);
        }
      }
    }
  }
}
