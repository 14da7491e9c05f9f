/** The three Foundation string operations the screens rely on, over `string` (a
    sequence of Unicode scalar values): `lowercased()`, `contains(_:)` and
    `trimmingCharacters(in: .whitespacesAndNewlines)`.
    Case mapping covers ASCII and Latin-1 letters only; see README. */
module Text {

  /** Simple lower-case mapping of one character: A-Z and the Latin-1 capitals
      U+00C0..U+00DE (except the multiplication sign U+00D7) move down by 0x20. */
  function LowerChar(c: char): (d: char)
    ensures IsUpper(c) ==> d as int == c as int + 0x20
    ensures !IsUpper(c) ==> d == c
    ensures !IsUpper(d)
  {
    if IsUpper(c) then (c as int + 0x20) as char else c
  }

  predicate IsUpper(c: char)
  {
    ('A' <= c <= 'Z') || (0xC0 <= c as int <= 0xDE && c as int != 0xD7)
  }

  /** `lowercased()`: maps every character through LowerChar, keeping the length. */
  function Lowercased(s: string): (r: string)
    ensures |r| == |s|
    ensures forall i :: 0 <= i < |s| ==> r[i] == LowerChar(s[i])
  {
    if s == [] then [] else [LowerChar(s[0])] + Lowercased(s[1..])
  }

  /** `s.hasPrefix(p)`, character by character. */
  predicate StartsWith(s: string, p: string)
    ensures StartsWith(s, p) ==> |p| <= |s|
  {
    p == [] || (s != [] && s[0] == p[0] && StartsWith(s[1..], p[1..]))
  }

  /** `s.contains(p)`: p starts at the front of s, or somewhere in its tail. */
  predicate Contains(s: string, p: string)
    ensures Contains(s, p) ==> |p| <= |s|
  {
    StartsWith(s, p) || (s != [] && Contains(s[1..], p))
  }

  /** Reference definition of containment: p occupies positions i .. i+|p|-1 of s. */
  ghost predicate OccursAt(s: string, p: string, i: int)
  {
    0 <= i && i + |p| <= |s| && s[i..i + |p|] == p
  }

  /** `.whitespacesAndNewlines`: Unicode general category Z*, U+0009..U+000D and U+0085. */
  predicate IsWhitespace(c: char)
    ensures IsWhitespace(c) ==> !IsUpper(c) && !('a' <= c <= 'z')
  {
    var n := c as int;
    n == 0x20 || 0x09 <= n <= 0x0D || n == 0x85 || n == 0xA0 || n == 0x1680 ||
    0x2000 <= n <= 0x200A || n == 0x2028 || n == 0x2029 || n == 0x202F ||
    n == 0x205F || n == 0x3000
  }

  /** Drops leading whitespace. */
  function TrimStart(s: string): (r: string)
    ensures |r| <= |s|
    ensures r != [] ==> !IsWhitespace(r[0])
  {
    if s != [] && IsWhitespace(s[0]) then TrimStart(s[1..]) else s
  }

  /** Drops trailing whitespace. */
  function TrimEnd(s: string): (r: string)
    ensures |r| <= |s|
    ensures r != [] ==> !IsWhitespace(r[|r| - 1])
  {
    if s != [] && IsWhitespace(s[|s| - 1]) then TrimEnd(s[..|s| - 1]) else s
  }

  /** `trimmingCharacters(in: .whitespacesAndNewlines)`. */
  function Trim(s: string): (r: string)
    ensures |r| <= |s|
    ensures r != [] ==> !IsWhitespace(r[0]) && !IsWhitespace(r[|r| - 1])
  {
    TrimEndPrefix(TrimStart(s));
    TrimEnd(TrimStart(s))
  }

  /** The guard used by the assistant's send action and its send button: a
      string is blank exactly when every character in it is whitespace. */
  predicate IsBlank(s: string)
    ensures IsBlank(s) <==> forall i :: 0 <= i < |s| ==> IsWhitespace(s[i])
  {
    TrimEmptyIffAllWhitespace(s);
    Trim(s) == []
  }

  // ---------------------------------------------------------------------------
  // Lemmas

  lemma {:induction false} StartsWithIff(s: string, p: string)
    ensures StartsWith(s, p) <==> |p| <= |s| && s[..|p|] == p
  {
    if p != [] && s != [] {
      StartsWithIff(s[1..], p[1..]);
      if |p| <= |s| && s[..|p|] == p {
        assert s[1..][..|p| - 1] == s[..|p|][1..];
      }
    }
  }

  /** The executable containment test agrees with the positional definition. */
  lemma {:induction false} ContainsIff(s: string, p: string)
    ensures Contains(s, p) <==> exists i :: OccursAt(s, p, i)
  {
    StartsWithIff(s, p);
    if StartsWith(s, p) {
      assert OccursAt(s, p, 0);
    } else if s != [] {
      ContainsIff(s[1..], p);
      if Contains(s[1..], p) {
        var i :| OccursAt(s[1..], p, i);
        assert s[1..][i..i + |p|] == s[i + 1..i + 1 + |p|];
        assert OccursAt(s, p, i + 1);
      }
      if i :| OccursAt(s, p, i) && i > 0 {
        assert s[1..][i - 1..i - 1 + |p|] == s[i..i + |p|];
        assert OccursAt(s[1..], p, i - 1);
      }
    }
  }

  /** Whatever surrounds it, a string contains every piece it is built from. */
  lemma ContainsPiece(a: string, p: string, b: string)
    ensures Contains(a + p + b, p)
  {
    var s := a + p + b;
    assert s[|a|..|a| + |p|] == p;
    assert OccursAt(s, p, |a|);
    ContainsIff(s, p);
  }

  lemma {:induction false} LowercasedConcat(a: string, b: string)
    ensures Lowercased(a + b) == Lowercased(a) + Lowercased(b)
  {
    var l, r := Lowercased(a + b), Lowercased(a) + Lowercased(b);
    assert |l| == |r|;
    forall i | 0 <= i < |l| ensures l[i] == r[i] {
      if i < |a| { assert (a + b)[i] == a[i]; } else { assert (a + b)[i] == b[i - |a|]; }
    }
  }

  /** `lowercased()` is idempotent. */
  lemma LowercasedIdempotent(s: string)
    ensures Lowercased(Lowercased(s)) == Lowercased(s)
  {
  }

  /** Lower-casing preserves containment: a keyword found in any capitalisation
      is found, lower-cased, in the lower-cased text. */
  lemma ContainsLowercased(s: string, p: string)
    requires Contains(s, p)
    ensures Contains(Lowercased(s), Lowercased(p))
  {
    ContainsIff(s, p);
    var i :| OccursAt(s, p, i);
    var ls, lp := Lowercased(s), Lowercased(p);
    assert ls[i..i + |p|] == lp by {
      forall k | 0 <= k < |p| ensures ls[i..i + |p|][k] == lp[k] {
        assert s[i..i + |p|][k] == p[k];
      }
    }
    assert OccursAt(ls, lp, i);
    ContainsIff(ls, lp);
  }

  lemma {:induction false} TrimStartEmptyIff(s: string)
    ensures TrimStart(s) == [] <==> forall i :: 0 <= i < |s| ==> IsWhitespace(s[i])
  {
    if s != [] && IsWhitespace(s[0]) {
      TrimStartEmptyIff(s[1..]);
      assert forall i :: 1 <= i < |s| ==> s[i] == s[1..][i - 1];
    }
  }

  lemma {:induction false} TrimEndEmptyIff(s: string)
    ensures TrimEnd(s) == [] <==> forall i :: 0 <= i < |s| ==> IsWhitespace(s[i])
  {
    if s != [] && IsWhitespace(s[|s| - 1]) {
      TrimEndEmptyIff(s[..|s| - 1]);
      assert forall i :: 0 <= i < |s| - 1 ==> s[i] == s[..|s| - 1][i];
    }
  }

  /** TrimStart removes a run of leading whitespace and nothing else. */
  lemma {:induction false} TrimStartSuffix(s: string)
    ensures var r := TrimStart(s);
      r == s[|s| - |r|..] && forall i :: 0 <= i < |s| - |r| ==> IsWhitespace(s[i])
  {
    if s != [] && IsWhitespace(s[0]) {
      TrimStartSuffix(s[1..]);
    }
  }

  /** TrimEnd removes a run of trailing whitespace and nothing else. */
  lemma {:induction false} TrimEndPrefix(s: string)
    ensures var r := TrimEnd(s);
      r == s[..|r|] && forall i :: |r| <= i < |s| ==> IsWhitespace(s[i])
  {
    if s != [] && IsWhitespace(s[|s| - 1]) {
      TrimEndPrefix(s[..|s| - 1]);
    }
  }

  /** Trimming leaves nothing exactly when every character is whitespace. */
  lemma TrimEmptyIffAllWhitespace(s: string)
    ensures Trim(s) == [] <==> forall i :: 0 <= i < |s| ==> IsWhitespace(s[i])
  {
    TrimStartEmptyIff(s);
    TrimEndEmptyIff(TrimStart(s));
  }

  /** A text that contains p also contains every prefix of p. */
  lemma ContainsPrefix(s: string, p: string, k: nat)
    requires k <= |p| && Contains(s, p)
    ensures Contains(s, p[..k])
  {
    ContainsIff(s, p);
    var i :| OccursAt(s, p, i);
    assert s[i..i + k] == p[..k] by {
      assert s[i..i + k] == s[i..i + |p|][..k];
    }
    assert OccursAt(s, p[..k], i);
    ContainsIff(s, p[..k]);
  }

  /** A text none of whose characters is a capital letter is its own lower-case form. */
  lemma LowercasedUnchanged(s: string)
    requires forall k :: 0 <= k < |s| ==> !IsUpper(s[k])
    ensures Lowercased(s) == s
  {
  }

  /** A text lacking one of p's characters does not contain p. */
  lemma MissingCharNotContained(s: string, p: string, k: nat)
    requires k < |p| && p[k] !in s
    ensures !Contains(s, p)
  {
    ContainsIff(s, p);
  }

  /** A text in which p's first two characters never stand side by side does not contain p. */
  lemma MissingPairNotContained(s: string, p: string)
    requires |p| >= 2
    requires forall k :: 0 <= k < |s| - 1 ==> s[k] != p[0] || s[k + 1] != p[1]
    ensures !Contains(s, p)
  {
    ContainsIff(s, p);
    assert forall i :: !OccursAt(s, p, i) by {
      forall i | OccursAt(s, p, i) ensures s[i] == p[0] && s[i + 1] == p[1] {
        assert s[i..i + |p|][0] == s[i];
      }
    }
  }
}
