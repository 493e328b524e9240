/**
 * The two pieces of Ruby's String library that the sweep script relies on:
 * `String#strip`, applied to every text scraped from a page, and
 * `String#gsub!(pattern, '')`, used to delete currency symbols and group
 * separators from the balance text. Strings are sequences of characters.
 */
module RubyText {

  /** Ruby's whitespace for `strip`: NUL, horizontal tab, line feed, vertical
      tab, form feed, carriage return and space. */
  predicate IsSpace(c: char) {
    c == ' ' || c == '\0' || ('\t' <= c <= '\r')
  }

  /** `String#lstrip`: drops the leading whitespace, and only that. */
  function LStrip(s: string): (r: string)
    ensures |r| <= |s| && r == s[|s| - |r|..]
    ensures forall i :: 0 <= i < |s| - |r| ==> IsSpace(s[i])
    ensures r == [] || !IsSpace(r[0])
    decreases |s|
  {
    if |s| > 0 && IsSpace(s[0]) then LStrip(s[1..]) else s
  }

  /** `String#rstrip`: drops the trailing whitespace, and only that. */
  function RStrip(s: string): (r: string)
    ensures |r| <= |s| && r == s[..|r|]
    ensures forall i :: |r| <= i < |s| ==> IsSpace(s[i])
    ensures r == [] || !IsSpace(r[|r| - 1])
    decreases |s|
  {
    if |s| > 0 && IsSpace(s[|s| - 1]) then RStrip(s[..|s| - 1]) else s
  }

  /** `String#strip`: neither end of the result is whitespace. */
  function Strip(s: string): (r: string)
    ensures |r| <= |s|
    ensures r == [] || (!IsSpace(r[0]) && !IsSpace(r[|r| - 1]))
  {
    var l := LStrip(s);
    var r := RStrip(l);
    assert r != [] ==> r[0] == l[0];
    r
  }

  /** Dropping exactly the leading whitespace `s[..i]` is what `LStrip` does. */
  lemma {:induction false} LStripDropsLeading(s: string, i: nat)
    requires i <= |s|
    requires forall k :: 0 <= k < i ==> IsSpace(s[k])
    requires i < |s| ==> !IsSpace(s[i])
    ensures LStrip(s) == s[i..]
    decreases i
  {
    if i > 0 {
      var t := s[1..];
      assert forall k :: 0 <= k < i - 1 ==> t[k] == s[k + 1];
      LStripDropsLeading(t, i - 1);
      assert t[i - 1..] == s[i..];
    }
  }

  /** Dropping exactly the trailing whitespace `s[j..]` is what `RStrip` does. */
  lemma {:induction false} RStripDropsTrailing(s: string, j: nat)
    requires j <= |s|
    requires forall k :: j <= k < |s| ==> IsSpace(s[k])
    requires 0 < j ==> !IsSpace(s[j - 1])
    ensures RStrip(s) == s[..j]
    decreases |s| - j
  {
    if j < |s| {
      var t := s[..|s| - 1];
      assert forall k :: j <= k < |t| ==> t[k] == s[k];
      RStripDropsTrailing(t, j);
      assert t[..j] == s[..j];
    }
  }

  /** The suffix `s[i..]` keeps the trailing whitespace of `s` after `j`. */
  lemma TrailingOfSuffix(s: string, i: nat, j: nat)
    requires i <= j <= |s|
    requires forall k :: j <= k < |s| ==> IsSpace(s[k])
    requires i < j ==> !IsSpace(s[j - 1])
    ensures forall k :: j - i <= k < |s| - i ==> IsSpace(s[i..][k])
    ensures 0 < j - i ==> !IsSpace(s[i..][j - i - 1])
  {
    assert forall k :: j - i <= k < |s| - i ==> s[i..][k] == s[k + i];
  }

  /** Cutting `s[i..]` at `j - i` is slicing `s` from `i` to `j`. */
  lemma SliceOfSuffix(s: string, i: nat, j: nat)
    requires i <= j <= |s|
    ensures s[i..][..j - i] == s[i..j]
  {
  }

  /** A text of whitespace only strips to the empty text. */
  lemma StripOfBlank(s: string)
    requires forall k :: 0 <= k < |s| ==> IsSpace(s[k])
    ensures Strip(s) == []
  {
    LStripDropsLeading(s, |s|);
    assert RStrip([]) == [];
  }

  /** Right-stripping the suffix `s[i..]` leaves `s[i..j]` when `s[j..]` is
      whitespace only and `s[j - 1]` is not. */
  lemma RStripOfSuffix(s: string, i: nat, j: nat)
    requires i < j <= |s|
    requires forall k :: j <= k < |s| ==> IsSpace(s[k])
    requires !IsSpace(s[j - 1])
    ensures RStrip(s[i..]) == s[i..j]
  {
    TrailingOfSuffix(s, i, j);
    RStripDropsTrailing(s[i..], j - i);
    SliceOfSuffix(s, i, j);
  }

  /** Strip keeps exactly the trimmed core of a text: whenever `s[i..j]` is framed
      by whitespace only and does not itself begin or end with whitespace,
      `Strip(s)` is exactly `s[i..j]`. */
  lemma StripIsTrimmedSlice(s: string, i: nat, j: nat)
    requires i <= j <= |s|
    requires forall k :: 0 <= k < i ==> IsSpace(s[k])
    requires forall k :: j <= k < |s| ==> IsSpace(s[k])
    requires i < j ==> !IsSpace(s[i]) && !IsSpace(s[j - 1])
    ensures Strip(s) == s[i..j]
  {
    if i == j {
      assert forall k :: 0 <= k < |s| ==> IsSpace(s[k]) by {
        forall k | 0 <= k < |s|
          ensures IsSpace(s[k])
        {
          if k >= j {
          }
        }
      }
      StripOfBlank(s);
    } else {
      LStripDropsLeading(s, i);
      RStripOfSuffix(s, i, j);
    }
  }

  /** True when `s` begins with `p`, compared character by character. */
  predicate StartsWith(s: string, p: string)
    decreases |p|
  {
    p == [] || (s != [] && s[0] == p[0] && StartsWith(s[1..], p[1..]))
  }

  /** `StartsWith` is the comparison of the leading slice with the pattern. */
  lemma {:induction false} StartsWithIsPrefix(s: string, p: string)
    ensures StartsWith(s, p) <==> |p| <= |s| && s[..|p|] == p
    decreases |p|
  {
    if p != [] && s != [] {
      StartsWithIsPrefix(s[1..], p[1..]);
      if |p| <= |s| {
        assert s[..|p|] == [s[0]] + s[1..][..|p| - 1];
        assert p == [p[0]] + p[1..];
      }
    }
  }

  /** True when `p` occurs in `s` as a contiguous substring. */
  predicate Contains(s: string, p: string)
    decreases |s|
  {
    |p| <= |s| && (StartsWith(s, p) || Contains(s[1..], p))
  }

  /** `s.gsub(p, '')` for a literal, non-empty pattern: scanning from the left,
      every occurrence of `p` that does not overlap an earlier match is
      deleted. The result is never longer than `s`. */
  function RemoveAll(s: string, p: string): (r: string)
    requires p != []
    ensures |r| <= |s|
    decreases |s|
  {
    if |s| < |p| then s
    else if StartsWith(s, p) then RemoveAll(s[|p|..], p)
    else [s[0]] + RemoveAll(s[1..], p)
  }

  /** gsub goes on scanning after a match: when the first occurrence of `p`
      in `a + p + b` is the one after `a`, the result is `a` followed by gsub
      of the rest. With `RemoveAllChangesIffContains` this fixes `RemoveAll`
      on every input, and tells it apart from a first-match-only `sub`. */
  lemma {:induction false} RemoveAllFirstMatch(a: string, p: string, b: string)
    requires p != []
    requires !Contains(a + p[..|p| - 1], p)
    ensures RemoveAll(a + p + b, p) == a + RemoveAll(b, p)
    decreases |a|, 1
  {
    if a == [] {
      MatchAtHead(p, b);
      assert a + p + b == p + b && a + RemoveAll(b, p) == RemoveAll(b, p);
    } else {
      NoMatchAtHead(a, p, b);
      FirstMatchAfterHead(a, p, b);
    }
  }

  /** The step of `RemoveAllFirstMatch` past a head where no match starts. */
  lemma {:induction false} FirstMatchAfterHead(a: string, p: string, b: string)
    requires p != [] && a != []
    requires !StartsWith(a + p + b, p)
    requires !Contains(a[1..] + p[..|p| - 1], p)
    ensures RemoveAll(a + p + b, p) == a + RemoveAll(b, p)
    decreases |a|, 0
  {
    var rest := a[1..];
    calc {
      RemoveAll(a + p + b, p);
      { SkipHead(a + p + b, p); assert (a + p + b)[1..] == rest + p + b; }
      [a[0]] + RemoveAll(rest + p + b, p);
      { RemoveAllFirstMatch(rest, p, b); }
      [a[0]] + (rest + RemoveAll(b, p));
      { assert a == [a[0]] + rest; }
      a + RemoveAll(b, p);
    }
  }

  /** gsub keeps the head of a text where no match starts. */
  lemma SkipHead(s: string, p: string)
    requires p != [] && |p| <= |s| && !StartsWith(s, p)
    ensures RemoveAll(s, p) == [s[0]] + RemoveAll(s[1..], p)
  {
  }

  /** gsub deletes a match at the head of the text and carries on after it. */
  lemma MatchAtHead(p: string, b: string)
    requires p != []
    ensures RemoveAll(p + b, p) == RemoveAll(b, p)
  {
    var s := p + b;
    assert StartsWith(s, p) && s[|p|..] == b by {
      StartsWithIsPrefix(s, p);
      assert s[..|p|] == p;
    }
  }

  /** When no occurrence of `p` starts inside `a`, none starts at its head,
      nor inside its tail. */
  lemma NoMatchAtHead(a: string, p: string, b: string)
    requires p != [] && a != []
    requires !Contains(a + p[..|p| - 1], p)
    ensures !StartsWith(a + p + b, p)
    ensures !Contains(a[1..] + p[..|p| - 1], p)
  {
    var s := a + p + b;
    var x := a + p[..|p| - 1];
    StartsWithIsPrefix(s, p);
    StartsWithIsPrefix(x, p);
    assert s[..|p|] == x[..|p|];
    assert x[1..] == a[1..] + p[..|p| - 1];
  }

  /** gsub's result is made of characters of `s`, and keeps every character
      that does not appear in the pattern as often as `s` has it. */
  lemma {:induction false} RemoveAllKeepsOthers(s: string, p: string)
    requires p != []
    ensures multiset(RemoveAll(s, p)) <= multiset(s)
    ensures forall c :: c !in p ==> multiset(RemoveAll(s, p))[c] == multiset(s)[c]
    decreases |s|
  {
    if |s| < |p| {
    } else if StartsWith(s, p) {
      var rest := s[|p|..];
      assert multiset(s) == multiset(p) + multiset(rest) by {
        StartsWithIsPrefix(s, p);
        assert s == p + rest;
      }
      RemoveAllKeepsOthers(rest, p);
    } else {
      var rest := s[1..];
      assert multiset(s) == multiset([s[0]]) + multiset(rest) by {
        assert s == [s[0]] + rest;
      }
      assert multiset(RemoveAll(s, p)) == multiset([s[0]]) + multiset(RemoveAll(rest, p));
      RemoveAllKeepsOthers(rest, p);
    }
  }

  /** gsub leaves a string alone exactly when the pattern does not occur in it,
      and otherwise makes it strictly shorter. */
  lemma {:induction false} RemoveAllChangesIffContains(s: string, p: string)
    requires p != []
    ensures !Contains(s, p) ==> RemoveAll(s, p) == s
    ensures Contains(s, p) ==> |RemoveAll(s, p)| < |s|
    decreases |s|
  {
    if |s| < |p| {
    } else if StartsWith(s, p) {
    } else {
      RemoveAllChangesIffContains(s[1..], p);
      assert s == [s[0]] + s[1..];
    }
  }

  /** A pattern cannot occur where its first character does not. */
  lemma {:induction false} ContainsHead(s: string, p: string)
    requires p != [] && p[0] !in s
    ensures !Contains(s, p)
    decreases |s|
  {
    if |p| <= |s| {
      ContainsHead(s[1..], p);
    }
  }

  /** A one-character pattern occurs exactly when the character does. */
  lemma {:induction false} ContainsChar(s: string, c: char)
    ensures Contains(s, [c]) <==> c in s
    decreases |s|
  {
    if |s| > 0 {
      ContainsChar(s[1..], c);
      assert [c][1..] == [] && StartsWith(s[1..], []);
      assert StartsWith(s, [c]) <==> s[0] == c;
      assert s == [s[0]] + s[1..];
    }
  }

  /** Reference definition of deleting one character everywhere, in the manner
      of `String#delete`. */
  function Without(s: string, c: char): (r: string)
    ensures c !in r
    ensures c !in s ==> r == s
    decreases |s|
  {
    if s == [] then []
    else if s[0] == c then Without(s[1..], c)
    else [s[0]] + Without(s[1..], c)
  }

  /** gsub with a one-character pattern deletes every copy of that character
      and nothing else, keeping the order of the rest. */
  lemma {:induction false} RemoveCharIsWithout(s: string, c: char)
    ensures RemoveAll(s, [c]) == Without(s, c)
    decreases |s|
  {
    if |s| > 0 {
      RemoveCharIsWithout(s[1..], c);
      assert [c][1..] == [] && StartsWith(s[1..], []);
      assert StartsWith(s, [c]) <==> s[0] == c;
    }
  }
}
