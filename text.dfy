/** String operations of the Python runtime that the backend relies on:
    str.strip, str.rstrip(chars), str.lower, str.replace, re.split on a
    character class, the `in` substring test and the decimal rendering of
    a status code. Strings are sequences of characters. */
module Text {

  /** The characters Python's str.strip() removes, restricted to the ASCII
      and Latin-1 ranges. */
  const Whitespace: set<char> :=
    {' ', '\t', '\n', '\r', '\U{000B}', '\U{000C}', '\U{001C}', '\U{001D}', '\U{001E}', '\U{001F}',
     '\U{0085}', '\U{00A0}'}

  predicate IsSpace(c: char) {
    c in Whitespace
  }

  /** Every character of s at a position in [lo, hi) is whitespace. */
  predicate SpaceBetween(s: string, lo: nat, hi: nat)
    requires hi <= |s|
  {
    forall k :: lo <= k < hi ==> IsSpace(s[k])
  }

  /** Whitespace found in a suffix of s is whitespace of s itself. */
  lemma SpaceInSuffix(s: string, start: nat, lo: nat, hi: nat)
    requires start <= |s| && hi <= |s| - start && SpaceBetween(s[start..], lo, hi)
    ensures SpaceBetween(s, start + lo, start + hi)
  {
    forall k | start + lo <= k < start + hi
      ensures IsSpace(s[k])
    {
      assert s[k] == s[start..][k - start];
    }
  }

  /** The number of whitespace characters str.lstrip() removes. */
  function LeadingSpace(s: string): (n: nat)
    ensures n <= |s| && SpaceBetween(s, 0, n)
    ensures n < |s| ==> !IsSpace(s[n])
  {
    if |s| > 0 && IsSpace(s[0]) then
      var n := LeadingSpace(s[1..]);
      SpaceInSuffix(s, 1, 0, n);
      n + 1
    else 0
  }

  /** The number of whitespace characters str.rstrip() removes. */
  function TrailingSpace(s: string): (n: nat)
    ensures n <= |s| && SpaceBetween(s, |s| - n, |s|)
    ensures n < |s| ==> !IsSpace(s[|s| - n - 1])
  {
    if |s| > 0 && IsSpace(s[|s| - 1]) then
      var n := TrailingSpace(s[..|s| - 1]);
      assert forall k :: |s| - 1 - n <= k < |s| - 1 ==> s[..|s| - 1][k] == s[k];
      n + 1
    else 0
  }

  /** str.strip(): the infix of s left after dropping whitespace at both
      ends; it neither starts nor ends with whitespace. */
  function Strip(s: string): (r: string)
    ensures var lead := LeadingSpace(s);
      && lead + |r| <= |s| && r == s[lead..lead + |r|]
      && SpaceBetween(s, 0, lead) && SpaceBetween(s, lead + |r|, |s|)
    ensures r != [] ==> !IsSpace(r[0]) && !IsSpace(r[|r| - 1])
  {
    var lead := LeadingSpace(s);
    var rest := s[lead..];
    var trail := TrailingSpace(rest);
    SpaceInSuffix(s, lead, |rest| - trail, |rest|);
    rest[..|rest| - trail]
  }

  /** Text with no whitespace at either end is left as it is. */
  lemma StripUnpadded(s: string)
    requires s != [] && !IsSpace(s[0]) && !IsSpace(s[|s| - 1])
    ensures Strip(s) == s
  {
  }

  /** Stripping twice is stripping once. */
  lemma {:induction false} StripIdempotent(s: string)
    ensures Strip(Strip(s)) == Strip(s)
  {
    var r := Strip(s);
    if r != [] {
      StripUnpadded(r);
    }
  }

  /** str.rstrip(chars): drop every trailing character that is in chars. */
  function RStrip(s: string, chars: set<char>): (r: string)
    ensures |r| <= |s| && r == s[..|r|]
    ensures forall k :: |r| <= k < |s| ==> s[k] in chars
    ensures r != [] ==> r[|r| - 1] !in chars
  {
    if |s| > 0 && s[|s| - 1] in chars then RStrip(s[..|s| - 1], chars) else s
  }

  /** rstrip removes exactly a suffix made of the given characters when
      what precedes it ends in some other character. */
  lemma {:induction false} RStripSuffix(s: string, tail: string, chars: set<char>)
    requires s != [] && s[|s| - 1] !in chars
    requires forall k :: 0 <= k < |tail| ==> tail[k] in chars
    ensures RStrip(s + tail, chars) == s
  {
    if tail == [] {
      assert s + tail == s;
    } else {
      var shorter := tail[..|tail| - 1];
      assert (s + tail)[..|s + tail| - 1] == s + shorter;
      RStripSuffix(s, shorter, chars);
    }
  }

  /** Lower-case mapping of str.lower() on the ASCII letters. */
  function LowerChar(c: char): (r: char)
    ensures 'A' <= c <= 'Z' ==> 'a' <= r <= 'z' && r as int - c as int == 32
    ensures !('A' <= c <= 'Z') ==> r == c
  {
    if 'A' <= c <= 'Z' then (c as int + 32) as char else c
  }

  /** str.lower() */
  function Lower(s: string): (r: string)
    ensures |r| == |s|
    ensures forall k :: 0 <= k < |s| ==> r[k] == LowerChar(s[k])
  {
    if s == [] then [] else [LowerChar(s[0])] + Lower(s[1..])
  }

  /** str.replace(old, new) for single characters. */
  function Replace(s: string, from: char, to: char): (r: string)
    ensures |r| == |s|
    ensures forall k :: 0 <= k < |s| ==> r[k] == if s[k] == from then to else s[k]
  {
    if s == [] then [] else [if s[0] == from then to else s[0]] + Replace(s[1..], from, to)
  }

  /** s.lower().replace(' ', '+'): the search term sent to the text search. */
  function NormalizeTerm(s: string): (r: string)
    ensures |r| == |s|
    ensures forall k :: 0 <= k < |s| ==> r[k] == if s[k] == ' ' then '+' else LowerChar(s[k])
    ensures ' ' !in r
  {
    Replace(Lower(s), ' ', '+')
  }

  /** The separators of re.split(r'[,;]', ...). */
  predicate IsSep(c: char) {
    c == ',' || c == ';'
  }

  /** The separators occurring in s, in order. */
  function Seps(s: string): (r: string)
    ensures forall k :: 0 <= k < |r| ==> IsSep(r[k])
  {
    if s == [] then [] else (if IsSep(s[0]) then [s[0]] else []) + Seps(s[1..])
  }

  /** re.split(r'[,;]', s): the pieces between separators, untrimmed. */
  function Split(s: string): (r: seq<string>)
    ensures |r| == |Seps(s)| + 1
    ensures forall i, k :: 0 <= i < |r| && 0 <= k < |r[i]| ==> !IsSep(r[i][k])
  {
    if s == [] then [""]
    else if IsSep(s[0]) then [""] + Split(s[1..])
    else
      var rest := Split(s[1..]);
      [[s[0]] + rest[0]] + rest[1..]
  }

  /** Puts the pieces back together with the given separators between them. */
  function Interleave(pieces: seq<string>, seps: string): string
    requires |pieces| == |seps| + 1
  {
    if seps == [] then pieces[0]
    else pieces[0] + [seps[0]] + Interleave(pieces[1..], seps[1..])
  }

  /** Splitting loses nothing: the pieces and the separators rebuild s. */
  lemma {:induction false} SplitRebuilds(s: string)
    ensures Interleave(Split(s), Seps(s)) == s
  {
    if s != [] {
      var head, tail := s[0], s[1..];
      assert s == [head] + tail;
      SplitRebuilds(tail);
      var rest, seps := Split(tail), Seps(tail);
      if IsSep(head) {
        assert Split(s) == [""] + rest;
        assert Seps(s) == [head] + seps;
        assert Interleave(Split(s), Seps(s)) == "" + [head] + Interleave(rest, seps);
      } else {
        var pieces := Split(s);
        assert pieces == [[head] + rest[0]] + rest[1..];
        assert Seps(s) == seps;
        if seps == [] {
          assert Interleave(pieces, seps) == [head] + rest[0];
        } else {
          assert pieces[1..] == rest[1..];
          assert Interleave(pieces, seps) == ([head] + rest[0]) + [seps[0]] + Interleave(rest[1..], seps[1..]);
          assert Interleave(rest, seps) == rest[0] + [seps[0]] + Interleave(rest[1..], seps[1..]);
        }
      }
    }
  }

  predicate HasPrefix(s: string, p: string) {
    |p| <= |s| && s[..|p|] == p
  }

  /** Python's `p in s` for strings: p starts at some position of s. */
  predicate Contains(s: string, p: string) {
    HasPrefix(s, p) || (s != [] && Contains(s[1..], p))
  }

  /** p occurs in s starting at position i. */
  predicate OccursAt(s: string, p: string, i: int) {
    0 <= i <= |s| - |p| && s[i..i + |p|] == p
  }

  /** `p in s` holds exactly when p occurs at some position of s. */
  lemma {:induction false} ContainsAt(s: string, p: string)
    ensures Contains(s, p) <==> exists i :: OccursAt(s, p, i)
  {
    if HasPrefix(s, p) {
      assert OccursAt(s, p, 0);
    } else if s == [] {
      assert forall i :: !OccursAt(s, p, i);
    } else {
      var rest := s[1..];
      ContainsAt(rest, p);
      if Contains(s, p) {
        var j :| OccursAt(rest, p, j);
        assert s[j + 1..j + 1 + |p|] == rest[j..j + |p|];
        assert OccursAt(s, p, j + 1);
      } else {
        forall i | OccursAt(s, p, i)
          ensures false
        {
          if i > 0 {
            var j := i - 1;
            var here, there := s[i..i + |p|], rest[j..j + |p|];
            assert forall k :: 0 <= k < |p| ==> here[k] == there[k];
            assert here == there;
            assert OccursAt(rest, p, j);
          }
        }
      }
    }
  }

  /** A text lacking one of the pattern's characters cannot contain it. */
  lemma {:induction false} MissingCharExcludes(s: string, p: string, k: nat)
    requires k < |p| && p[k] !in s
    ensures !Contains(s, p)
  {
    if |p| <= |s| {
      assert s[..|p|][k] == s[k];
    }
    if s != [] {
      assert forall c :: c in s[1..] ==> c in s;
      MissingCharExcludes(s[1..], p, k);
    }
  }

  function DigitChar(d: nat): (r: char)
    requires d < 10
    ensures '0' <= r <= '9' && r as int - '0' as int == d
  {
    ('0' as int + d) as char
  }

  /** The number a string of decimal digits denotes, as int(s) reads it. */
  function DigitsValue(s: string): nat
    requires forall k :: 0 <= k < |s| ==> '0' <= s[k] <= '9'
  {
    if s == [] then 0 else DigitsValue(s[..|s| - 1]) * 10 + (s[|s| - 1] as int - '0' as int)
  }

  /** str(n) for a natural number: the digits that denote n, with no
      leading zero. */
  function DecimalText(n: nat): (r: string)
    ensures r != []
    ensures forall k :: 0 <= k < |r| ==> '0' <= r[k] <= '9'
    ensures DigitsValue(r) == n
    ensures r[0] == '0' <==> n == 0
  {
    if n < 10 then [DigitChar(n)]
    else
      var prefix := DecimalText(n / 10);
      var r := prefix + [DigitChar(n % 10)];
      assert r[..|r| - 1] == prefix;
      r
  }
}
