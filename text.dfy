/**
 * The string primitives the CLI relies on: str.strip(), str.lower(),
 * character classes and "keep only these characters".  Character classes
 * are the ASCII ones.
 */
module Text {

  /** str.isspace() on ASCII: space, \t \n \v \f \r and the separators 0x1c-0x1f. */
  predicate IsSpace(c: char)
  {
    c == ' ' || 9 <= c as int <= 13 || 28 <= c as int <= 31
  }

  predicate IsUpper(c: char)
  {
    'A' <= c <= 'Z'
  }

  /** str.isalnum() on ASCII. */
  predicate IsAlnum(c: char)
  {
    'a' <= c <= 'z' || 'A' <= c <= 'Z' || '0' <= c <= '9'
  }

  /** The regular-expression class \w on ASCII. */
  predicate IsWordChar(c: char)
  {
    IsAlnum(c) || c == '_'
  }

  predicate IsBlank(s: string)
  {
    forall i :: 0 <= i < |s| ==> IsSpace(s[i])
  }

  /** Neither starts nor ends with whitespace. */
  predicate IsTrimmed(s: string)
  {
    s == [] || (!IsSpace(s[0]) && !IsSpace(s[|s| - 1]))
  }

  /** How many whitespace characters s starts with. */
  function LeadingBlanks(s: string): (n: nat)
    ensures n <= |s|
    ensures forall i :: 0 <= i < n ==> IsSpace(s[i])
    ensures n < |s| ==> !IsSpace(s[n])
  {
    if s != [] && IsSpace(s[0]) then 1 + LeadingBlanks(s[1..]) else 0
  }

  /** Where the trailing whitespace of s begins. */
  function TrailingStart(s: string): (m: nat)
    ensures m <= |s|
    ensures forall i :: m <= i < |s| ==> IsSpace(s[i])
    ensures m > 0 ==> !IsSpace(s[m - 1])
  {
    if s != [] && IsSpace(s[|s| - 1]) then TrailingStart(s[..|s| - 1]) else |s|
  }

  /** str.strip(): str.lstrip() followed by str.rstrip(). */
  function Strip(s: string): (r: string)
    ensures |r| <= |s|
    ensures IsTrimmed(r)
  {
    var t := s[LeadingBlanks(s)..];
    t[..TrailingStart(t)]
  }

  /** Strip removes a blank prefix and a blank suffix and keeps the middle as it is. */
  lemma {:induction false} StripSplit(s: string)
    ensures LeadingBlanks(s) + |Strip(s)| <= |s|
    ensures s == s[..LeadingBlanks(s)] + Strip(s) + s[LeadingBlanks(s) + |Strip(s)|..]
    ensures IsBlank(s[..LeadingBlanks(s)])
    ensures IsBlank(s[LeadingBlanks(s) + |Strip(s)|..])
  {
    var k := LeadingBlanks(s);
    var t := s[k..];
    var m := TrailingStart(t);
    assert Strip(s) == t[..m];
    forall i | k + m <= i < |s| ensures IsSpace(s[i]) {
      assert s[i] == t[i - k];
    }
    SplitBlank(s, k, m);
  }

  /** Cutting s at k and k + m, around a middle part, when both ends are whitespace. */
  lemma SplitBlank(s: string, k: nat, m: nat)
    requires k + m <= |s|
    requires forall i :: 0 <= i < k ==> IsSpace(s[i])
    requires forall i :: k + m <= i < |s| ==> IsSpace(s[i])
    ensures s == s[..k] + s[k..][..m] + s[k + m..]
    ensures IsBlank(s[..k]) && IsBlank(s[k + m..])
  {
    assert s[k..] == s[k..][..m] + s[k + m..];
    assert s == s[..k] + s[k..];
    var post := s[k + m..];
    forall i | 0 <= i < |post| ensures IsSpace(post[i]) {
      assert post[i] == s[k + m + i];
    }
  }

  lemma LeadingBlanksPadded(w: string, u: string)
    requires IsBlank(w) && (u == [] || !IsSpace(u[0]))
    ensures LeadingBlanks(w + u) == |w|
  {
    if u != [] {
      assert (w + u)[|w|] == u[0];
    } else {
      assert w + u == w;
    }
  }

  lemma TrailingStartPadded(u: string, w: string)
    requires IsBlank(w) && (u == [] || !IsSpace(u[|u| - 1]))
    ensures TrailingStart(u + w) == |u|
  {
    var m := TrailingStart(u + w);
    if u != [] {
      assert (u + w)[|u| - 1] == u[|u| - 1];
    }
  }

  /** Whatever whitespace surrounds a trimmed word, strip() returns exactly the word. */
  lemma StripPadded(w1: string, u: string, w2: string)
    requires IsBlank(w1) && IsBlank(w2) && IsTrimmed(u)
    ensures Strip(w1 + u + w2) == u
  {
    var s := w1 + u + w2;
    if u == [] {
      assert s == (w1 + w2) + [];
      LeadingBlanksPadded(w1 + w2, []);
      assert s[|s|..] == [];
    } else {
      assert s == w1 + (u + w2);
      LeadingBlanksPadded(w1, u + w2);
      assert s[|w1|..] == u + w2;
      TrailingStartPadded(u, w2);
    }
  }

  /** strip() yields "" exactly for blank strings. */
  lemma StripEmptyIffBlank(s: string)
    ensures Strip(s) == [] <==> IsBlank(s)
  {
    StripSplit(s);
    if IsBlank(s) {
      assert s == s + [] + [];
      StripPadded(s, [], []);
    }
  }

  lemma StripTrimmed(s: string)
    requires IsTrimmed(s)
    ensures Strip(s) == s
  {
    assert s == [] + s + [];
    StripPadded([], s, []);
  }

  function LowerChar(c: char): char
  {
    if IsUpper(c) then (c as int + 32) as char else c
  }

  /** str.lower() on ASCII letters. */
  function Lower(s: string): (r: string)
    ensures |r| == |s|
    ensures forall i :: 0 <= i < |s| ==> r[i] == LowerChar(s[i])
  {
    seq(|s|, i requires 0 <= i < |s| => LowerChar(s[i]))
  }

  /** The characters of s that satisfy keep, in their original order. */
  function Filter(keep: char -> bool, s: string): (r: string)
    ensures |r| <= |s|
    ensures forall i :: 0 <= i < |r| ==> keep(r[i])
  {
    if s == [] then [] else (if keep(s[0]) then [s[0]] else []) + Filter(keep, s[1..])
  }

  /** t is s with some characters deleted and the rest in their original order. */
  predicate IsSubsequence(t: string, s: string)
  {
    if t == [] then true
    else if s == [] then false
    else (t[0] == s[0] && IsSubsequence(t[1..], s[1..])) || IsSubsequence(t, s[1..])
  }

  lemma {:induction false} FilterConcat(keep: char -> bool, a: string, b: string)
    ensures Filter(keep, a + b) == Filter(keep, a) + Filter(keep, b)
  {
    if a == [] {
      assert a + b == b;
    } else {
      assert (a + b)[1..] == a[1..] + b;
      FilterConcat(keep, a[1..], b);
    }
  }

  lemma {:induction false} FilterIsSubsequence(keep: char -> bool, s: string)
    ensures IsSubsequence(Filter(keep, s), s)
  {
    if s != [] {
      FilterIsSubsequence(keep, s[1..]);
      if keep(s[0]) {
        assert Filter(keep, s) == [s[0]] + Filter(keep, s[1..]);
        assert Filter(keep, s)[1..] == Filter(keep, s[1..]);
      } else {
        assert Filter(keep, s) == Filter(keep, s[1..]);
      }
    }
  }

  /** Every kept character keeps all its occurrences; every other character has none. */
  lemma {:induction false} FilterCounts(keep: char -> bool, s: string, c: char)
    ensures multiset(Filter(keep, s))[c] == if keep(c) then multiset(s)[c] else 0
  {
    if s != [] {
      FilterCounts(keep, s[1..], c);
      assert s == [s[0]] + s[1..];
      assert multiset(s) == multiset([s[0]]) + multiset(s[1..]);
    }
  }

  lemma {:induction false} FilterKeepsAll(keep: char -> bool, s: string)
    requires forall i :: 0 <= i < |s| ==> keep(s[i])
    ensures Filter(keep, s) == s
  {
    if s != [] {
      FilterKeepsAll(keep, s[1..]);
      assert [s[0]] + s[1..] == s;
    }
  }

  lemma {:induction false} FilterDropsAll(keep: char -> bool, s: string)
    requires forall i :: 0 <= i < |s| ==> !keep(s[i])
    ensures Filter(keep, s) == []
  {
    if s != [] {
      FilterDropsAll(keep, s[1..]);
    }
  }

  lemma FilterIdempotent(keep: char -> bool, s: string)
    ensures Filter(keep, Filter(keep, s)) == Filter(keep, s)
  {
    FilterKeepsAll(keep, Filter(keep, s));
  }

  lemma {:induction false} FilterSame(p: char -> bool, q: char -> bool, s: string)
    requires forall c :: p(c) == q(c)
    ensures Filter(p, s) == Filter(q, s)
  {
    if s != [] {
      FilterSame(p, q, s[1..]);
    }
  }

  /** Lowering first or last makes no difference when lowering never changes membership. */
  lemma {:induction false} FilterLower(keep: char -> bool, s: string)
    requires forall c :: keep(LowerChar(c)) == keep(c)
    ensures Filter(keep, Lower(s)) == Lower(Filter(keep, s))
  {
    if s != [] {
      FilterLower(keep, s[1..]);
      assert Lower(s)[1..] == Lower(s[1..]);
      var head := if keep(s[0]) then [s[0]] else [];
      assert Filter(keep, s) == head + Filter(keep, s[1..]);
      assert Lower(head + Filter(keep, s[1..])) == Lower(head) + Lower(Filter(keep, s[1..]));
    }
  }

  /** Filtering a blank string with a predicate that rejects whitespace leaves nothing. */
  lemma FilterBlank(keep: char -> bool, s: string)
    requires forall c :: IsSpace(c) ==> !keep(c)
    requires IsBlank(s)
    ensures Filter(keep, s) == []
  {
    FilterDropsAll(keep, s);
  }

  /** Stripping first makes no difference to a filter that rejects whitespace. */
  lemma {:induction false} FilterStrip(keep: char -> bool, s: string)
    requires forall c :: IsSpace(c) ==> !keep(c)
    ensures Filter(keep, Strip(s)) == Filter(keep, s)
  {
    StripSplit(s);
    var k := LeadingBlanks(s);
    var pre, mid, post := s[..k], Strip(s), s[k + |Strip(s)|..];
    assert s == pre + mid + post;
    FilterConcat(keep, pre + mid, post);
    FilterConcat(keep, pre, Strip(s));
    FilterBlank(keep, pre);
    FilterBlank(keep, post);
  }
}
