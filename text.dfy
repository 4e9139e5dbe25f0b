/**
 * The string operations the feature-name rules use: Python's `str.lower`
 * (on ASCII letters), the removal of spaces and brackets, and the
 * substring test `sub in s`.
 */
module Text {

  function LowerChar(c: char): char {
    if 'A' <= c <= 'Z' then (c as int + 32) as char else c
  }

  /** `s.lower()`, restricted to ASCII letters. */
  function Lower(s: string): string {
    seq(|s|, i requires 0 <= i < |s| => LowerChar(s[i]))
  }

  /** `sub` occurs in `s` starting at index `k`. */
  predicate OccursAt(s: string, sub: string, k: int) {
    0 <= k <= |s| - |sub| && s[k..k + |sub|] == sub
  }

  /** Python's `sub in s`, scanning `s` from the left. */
  predicate Contains(s: string, sub: string) {
    |sub| <= |s| && (s[..|sub|] == sub || Contains(s[1..], sub))
  }

  /** `Contains` holds exactly when `sub` occurs at some index. */
  lemma {:induction false} ContainsOccurs(s: string, sub: string)
    ensures Contains(s, sub) <==> exists k :: OccursAt(s, sub, k)
  {
    if |sub| > |s| {
      forall k | OccursAt(s, sub, k) ensures false {
      }
    } else if s[..|sub|] == sub {
      assert OccursAt(s, sub, 0);
    } else {
      ContainsOccurs(s[1..], sub);
      if Contains(s, sub) {
        var k :| OccursAt(s[1..], sub, k);
        assert s[1..][k..k + |sub|] == s[k + 1..k + 1 + |sub|];
        assert OccursAt(s, sub, k + 1);
      } else {
        forall k | OccursAt(s, sub, k) ensures false {
          if k != 0 {
            assert s[1..][k - 1..k - 1 + |sub|] == s[k..k + |sub|];
            assert OccursAt(s[1..], sub, k - 1);
          }
        }
      }
    }
  }

  /** The characters `.replace(' ', '').replace('[', '')...` removes. */
  const Stripped: set<char> := {' ', '[', ']', '(', ')'}

  predicate Kept(c: char) {
    c !in Stripped
  }

  /** `s` without its spaces and brackets. */
  function Strip(s: string): string {
    if s == [] then []
    else (if Kept(s[0]) then [s[0]] else []) + Strip(s[1..])
  }

  lemma {:induction false} StripAppend(a: string, b: string)
    ensures Strip(a + b) == Strip(a) + Strip(b)
  {
    if a == [] {
      assert a + b == b;
    } else {
      var head := if Kept(a[0]) then [a[0]] else [];
      assert (a + b)[0] == a[0];
      assert (a + b)[1..] == a[1..] + b;
      calc {
        Strip(a + b);
        head + Strip(a[1..] + b);
        { StripAppend(a[1..], b); }
        head + (Strip(a[1..]) + Strip(b));
        (head + Strip(a[1..])) + Strip(b);
      }
    }
  }

  lemma {:induction false} StripNothingToStrip(s: string)
    requires forall c :: c in s ==> Kept(c)
    ensures Strip(s) == s
  {
    if s != [] {
      StripNothingToStrip(s[1..]);
    }
  }

  /** The normalised feature name the classification rules test. */
  function Normalize(name: string): string {
    Strip(Lower(name))
  }

  /**
   * Removing spaces and brackets cannot destroy an occurrence of a needle
   * that itself has none of them.
   */
  lemma StripKeepsSubstring(s: string, sub: string)
    requires Contains(s, sub)
    requires forall c :: c in sub ==> Kept(c)
    ensures Contains(Strip(s), sub)
  {
    ContainsOccurs(s, sub);
    var k :| OccursAt(s, sub, k);
    var before, after := s[..k], s[k + |sub|..];
    assert s == before + sub + after;
    StripAppend(before + sub, after);
    StripAppend(before, sub);
    StripNothingToStrip(sub);
    var t := Strip(s);
    assert t == Strip(before) + sub + Strip(after);
    var k' := |Strip(before)|;
    assert OccursAt(t, sub, k');
    ContainsOccurs(t, sub);
  }

  lemma Associate(a: string, b: string, c: string)
    ensures a + (b + c) == a + b + c
  {
  }

  /** Lower-casing keeps an occurrence, as an occurrence of the lower-cased needle. */
  lemma LowerKeepsSubstring(s: string, sub: string)
    requires Contains(s, sub)
    ensures Contains(Lower(s), Lower(sub))
  {
    ContainsOccurs(s, sub);
    var k :| OccursAt(s, sub, k);
    assert Lower(s)[k..k + |sub|] == Lower(sub) by {
      forall i | 0 <= i < |sub| ensures Lower(s)[k..k + |sub|][i] == Lower(sub)[i] {
        assert s[k..k + |sub|][i] == sub[i];
      }
    }
    assert OccursAt(Lower(s), Lower(sub), k);
    ContainsOccurs(Lower(s), Lower(sub));
  }
}
