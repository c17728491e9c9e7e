/** The `None`-able values of the original program. */
module Wrappers {
  datatype Option<+T> = None | Some(value: T)

  /** A string-valued key of a JSON object: the key is missing, holds `null`, or holds a string. */
  datatype Field = Absent | Null | Str(text: string)
}

/**
 * The ASCII part of the Python string operations the program relies on:
 * truthiness, `lower`, `strip`, `title`, `startswith`, `in`, `split` and `join`,
 * and `str` of an integer.
 */
module Text {
  import opened Wrappers

  /** Python truthiness of an optional string: present and non-empty. */
  predicate Truthy(o: Option<string>) {
    o.Some? && o.value != ""
  }

  /** Python's `a or b` on two optional strings. */
  function Or(a: Option<string>, b: Option<string>): (r: Option<string>)
    ensures Truthy(r) <==> Truthy(a) || Truthy(b)
    ensures Truthy(a) ==> r == a
    ensures !Truthy(a) ==> r == b
  {
    if Truthy(a) then a else b
  }

  /** `str.isspace` restricted to ASCII: space, \t \n \v \f \r and the separators 0x1c-0x1f. */
  predicate IsSpace(c: char) {
    c == ' ' || 9 <= c as int <= 13 || 28 <= c as int <= 31
  }

  predicate IsUpper(c: char) { 'A' <= c <= 'Z' }
  predicate IsLower(c: char) { 'a' <= c <= 'z' }
  predicate IsLetter(c: char) { IsUpper(c) || IsLower(c) }

  function LowerChar(c: char): (r: char)
    ensures IsUpper(c) ==> IsLower(r) && r as int == c as int + 32
    ensures !IsUpper(c) ==> r == c
  {
    if IsUpper(c) then (c as int + 32) as char else c
  }

  function UpperChar(c: char): (r: char)
    ensures IsLower(c) ==> IsUpper(r) && r as int == c as int - 32
    ensures !IsLower(c) ==> r == c
  {
    if IsLower(c) then (c as int - 32) as char else c
  }

  /** `str.lower` on ASCII letters. */
  function Lower(s: string): (r: string)
    ensures |r| == |s|
    ensures forall i :: 0 <= i < |s| ==> r[i] == LowerChar(s[i])
  {
    seq(|s|, i requires 0 <= i < |s| => LowerChar(s[i]))
  }

  /** Lower-casing `s` gives `t` when it does so character by character. */
  lemma LowerByCharacters(s: string, t: string)
    requires |s| == |t|
    requires forall i | 0 <= i < |s| :: LowerChar(s[i]) == t[i]
    ensures Lower(s) == t
  {
  }

  /** `s.startswith(p)`. */
  predicate StartsWith(s: string, p: string) {
    p <= s
  }

  /** `p` occurs in `s` starting at index `i`. */
  predicate OccursAt(s: string, p: string, i: int) {
    0 <= i && i + |p| <= |s| && s[i..i + |p|] == p
  }

  /** Python's `p in s` on strings. */
  predicate Contains(s: string, p: string) {
    exists i | 0 <= i <= |s| - |p| :: OccursAt(s, p, i)
  }

  lemma OccursAfterPrefix(a: string, p: string)
    ensures OccursAt(a + p, p, |a|)
  {
    assert (a + p)[|a|..|a| + |p|] == p;
  }

  lemma ContainsWitness(s: string, p: string, i: int)
    requires OccursAt(s, p, i)
    ensures Contains(s, p)
  {
  }

  /** A phrase whose first character never appears in `s` does not occur in `s`. */
  lemma NotContainsWithoutFirstChar(s: string, p: string)
    requires |p| > 0 && p[0] !in s
    ensures !Contains(s, p)
  {
    forall i | 0 <= i <= |s| - |p| ensures !OccursAt(s, p, i) {
      assert s[i] in s;
      assert s[i..i + |p|][0] == s[i];
    }
  }

  lemma {:induction false} ContainsTransitive(a: string, b: string, c: string)
    requires Contains(a, b) && Contains(b, c)
    ensures Contains(a, c)
  {
    var i :| 0 <= i <= |a| - |b| && OccursAt(a, b, i);
    var j :| 0 <= j <= |b| - |c| && OccursAt(b, c, j);
    forall k | 0 <= k < |c| ensures a[i + j..i + j + |c|][k] == c[k] {
      assert a[i..i + |b|][j + k] == b[j + k];
      assert b[j..j + |c|][k] == b[j + k];
    }
    assert OccursAt(a, c, i + j);
  }

  /** `s.lstrip()`. */
  function TrimStart(s: string): (r: string)
    ensures |r| <= |s| && r == s[|s| - |r|..]
    ensures forall i :: 0 <= i < |s| - |r| ==> IsSpace(s[i])
    ensures r != [] ==> !IsSpace(r[0])
  {
    if |s| > 0 && IsSpace(s[0]) then TrimStart(s[1..]) else s
  }

  /** `s.rstrip()`. */
  function TrimEnd(s: string): (r: string)
    ensures |r| <= |s| && r == s[..|r|]
    ensures forall i :: |r| <= i < |s| ==> IsSpace(s[i])
    ensures r != [] ==> !IsSpace(r[|r| - 1])
  {
    if |s| > 0 && IsSpace(s[|s| - 1]) then TrimEnd(s[..|s| - 1]) else s
  }

  /** `s[lo..hi]` is what remains of `s` once white space is dropped at both ends. */
  predicate SpaceOutside(s: string, lo: int, hi: int) {
    && 0 <= lo <= hi <= |s|
    && (forall i :: 0 <= i < lo ==> IsSpace(s[i]))
    && (forall i :: hi <= i < |s| ==> IsSpace(s[i]))
  }

  /** Where `s.strip()` starts: the number of leading white-space characters. */
  function StripLo(s: string): nat {
    |s| - |TrimStart(s)|
  }

  /** Where `s.strip()` ends. */
  function StripHi(s: string): nat {
    StripLo(s) + |TrimEnd(TrimStart(s))|
  }

  /** `s.strip()`: the slice `s[StripLo(s)..StripHi(s)]`, with only white space outside it. */
  function Strip(s: string): (r: string)
    ensures SpaceOutside(s, StripLo(s), StripHi(s)) && r == s[StripLo(s)..StripHi(s)]
    ensures r != [] ==> !IsSpace(r[0]) && !IsSpace(r[|r| - 1])
  {
    var t := TrimStart(s);
    var r := TrimEnd(t);
    assert r == s[|s| - |t|..|s| - |t| + |r|];
    r
  }

  predicate Blank(s: string) {
    forall i :: 0 <= i < |s| ==> IsSpace(s[i])
  }

  /** Stripping a string leaves nothing exactly when the string is all white space. */
  lemma StripEmptyIffBlank(s: string)
    ensures Strip(s) == "" <==> Blank(s)
  {
    var r := Strip(s);
    var lo, hi := StripLo(s), StripHi(s);
    if r == "" {
      forall i | 0 <= i < |s| ensures IsSpace(s[i]) {
        assert i < lo || hi <= i;
      }
    } else {
      assert s[lo] == r[0];
    }
  }

  lemma SliceOccurrence(s: string, lo: int, hi: int, p: string, i: int)
    requires 0 <= lo <= hi <= |s| && 0 <= i && lo + i + |p| <= hi
    ensures OccursAt(s[lo..hi], p, i) <==> OccursAt(s, p, lo + i)
  {
    var inner, outer := s[lo..hi][i..i + |p|], s[lo + i..lo + i + |p|];
    forall k | 0 <= k < |p| ensures inner[k] == outer[k] {
      assert s[lo..hi][i + k] == s[lo + i + k];
    }
    assert inner == outer;
  }

  /**
   * A phrase that neither starts nor ends with white space occurs in `s.strip()`
   * exactly when it occurs in `s`.
   */
  lemma ContainsStrip(s: string, p: string)
    requires |p| > 0 && !IsSpace(p[0]) && !IsSpace(p[|p| - 1])
    ensures Contains(Strip(s), p) <==> Contains(s, p)
  {
    if Contains(Strip(s), p) {
      StrippedOccurrenceInS(s, p);
    }
    if Contains(s, p) {
      OccurrenceSurvivesStrip(s, p);
    }
  }

  lemma StrippedOccurrenceInS(s: string, p: string)
    requires Contains(Strip(s), p)
    ensures Contains(s, p)
  {
    var r, lo, hi := Strip(s), StripLo(s), StripHi(s);
    var i :| 0 <= i <= |r| - |p| && OccursAt(r, p, i);
    SliceOccurrence(s, lo, hi, p, i);
    ContainsWitness(s, p, lo + i);
  }

  lemma OccurrenceSurvivesStrip(s: string, p: string)
    requires |p| > 0 && !IsSpace(p[0]) && !IsSpace(p[|p| - 1])
    requires Contains(s, p)
    ensures Contains(Strip(s), p)
  {
    var i :| 0 <= i <= |s| - |p| && OccursAt(s, p, i);
    OccurrenceInSlice(s, StripLo(s), StripHi(s), p, i);
  }

  /** An occurrence that neither starts nor ends with white space lies inside a slice with only white space around it. */
  lemma OccurrenceInSlice(s: string, lo: int, hi: int, p: string, i: int)
    requires SpaceOutside(s, lo, hi) && OccursAt(s, p, i)
    requires |p| > 0 && !IsSpace(p[0]) && !IsSpace(p[|p| - 1])
    ensures Contains(s[lo..hi], p)
  {
    OccurrenceInside(s, lo, hi, p, i);
    var j := i - lo;
    SliceOccurrence(s, lo, hi, p, j);
    ContainsWitness(s[lo..hi], p, j);
  }

  lemma OccurrenceInside(s: string, lo: int, hi: int, p: string, i: int)
    requires SpaceOutside(s, lo, hi) && OccursAt(s, p, i)
    requires |p| > 0 && !IsSpace(p[0]) && !IsSpace(p[|p| - 1])
    ensures lo <= i && i + |p| <= hi
  {
    assert s[i] == p[0] by { assert s[i..i + |p|][0] == s[i]; }
    assert s[i + |p| - 1] == p[|p| - 1] by { assert s[i..i + |p|][|p| - 1] == s[i + |p| - 1]; }
  }

  /** `sep.join(parts)`. */
  function Join(parts: seq<string>, sep: string): (r: string)
    ensures |parts| == 1 ==> r == parts[0]
  {
    if |parts| == 0 then ""
    else if |parts| == 1 then parts[0]
    else parts[0] + sep + Join(parts[1..], sep)
  }

  /** `s.split(sep)` for a one-character separator: never empty, `""` gives `[""]`. */
  function Split(s: string, sep: char): (r: seq<string>)
    ensures |r| >= 1
    ensures forall k :: 0 <= k < |r| ==> sep !in r[k]
  {
    if s == [] then [""]
    else
      var rest := Split(s[1..], sep);
      if s[0] == sep then [""] + rest else [[s[0]] + rest[0]] + rest[1..]
  }

  /** Joining the pieces of a split with the separator gives back the string. */
  lemma {:induction false} JoinSplit(s: string, sep: char)
    ensures Join(Split(s, sep), [sep]) == s
  {
    if s != [] {
      var rest := Split(s[1..], sep);
      JoinSplit(s[1..], sep);
      if s[0] == sep {
        assert Split(s, sep) == [""] + rest;
        assert ([""] + rest)[1..] == rest;
      } else {
        var r := [[s[0]] + rest[0]] + rest[1..];
        assert Split(s, sep) == r;
        if |rest| == 1 {
          assert rest[0] == s[1..];
        } else {
          assert r[1..] == rest[1..];
          assert Join(rest, [sep]) == rest[0] + [sep] + Join(rest[1..], [sep]);
        }
      }
    }
  }

  lemma {:induction false} SplitPrefix(a: string, sep: char, rest: string)
    requires sep !in a
    ensures Split(a + [sep] + rest, sep) == [a] + Split(rest, sep)
    decreases |a|
  {
    if a == [] {
      assert ([sep] + rest)[1..] == rest;
    } else {
      assert (a + [sep] + rest)[1..] == a[1..] + [sep] + rest;
      SplitPrefix(a[1..], sep, rest);
      assert [a[0]] + a[1..] == a;
    }
  }

  lemma {:induction false} SplitNoSep(a: string, sep: char)
    requires sep !in a
    ensures Split(a, sep) == [a]
    decreases |a|
  {
    if a != [] {
      SplitNoSep(a[1..], sep);
      assert [a[0]] + a[1..] == a;
    }
  }

  /** Splitting a join of separator-free pieces gives back the pieces. */
  lemma {:induction false} SplitJoin(parts: seq<string>, sep: char)
    requires |parts| >= 1
    requires forall k :: 0 <= k < |parts| ==> sep !in parts[k]
    ensures Split(Join(parts, [sep]), sep) == parts
  {
    if |parts| == 1 {
      SplitNoSep(parts[0], sep);
    } else {
      SplitJoin(parts[1..], sep);
      SplitPrefix(parts[0], sep, Join(parts[1..], [sep]));
      assert [parts[0]] + parts[1..] == parts;
    }
  }

  /** Every piece of a join occurs in the joined string. */
  lemma {:induction false} JoinContainsPart(parts: seq<string>, sep: string, k: int)
    requires 0 <= k < |parts|
    ensures Contains(Join(parts, sep), parts[k])
  {
    var j := Join(parts, sep);
    if |parts| == 1 {
      assert OccursAt(j, parts[0], 0);
    } else if k == 0 {
      assert j[..|parts[0]|] == parts[0];
      assert OccursAt(j, parts[0], 0);
    } else {
      JoinContainsPart(parts[1..], sep, k - 1);
      var rest := Join(parts[1..], sep);
      assert j == (parts[0] + sep) + rest;
      assert Contains(j, rest) by {
        assert j[|parts[0] + sep|..|parts[0] + sep| + |rest|] == rest;
        assert OccursAt(j, rest, |parts[0] + sep|);
      }
      ContainsTransitive(j, rest, parts[k]);
    }
  }

  lemma ContainsSelf(s: string)
    ensures Contains(s, s)
  {
    assert OccursAt(s, s, 0);
  }

  /** A string occurs in any string built around it. */
  lemma InfixContains(a: string, p: string, b: string)
    ensures Contains(a + p + b, p)
  {
    assert (a + p + b)[|a|..|a| + |p|] == p;
    assert OccursAt(a + p + b, p, |a|);
  }

  /** Every line of the middle part of a line list occurs in the joined text. */
  lemma JoinContainsMiddle(pre: seq<string>, mid: seq<string>, post: seq<string>, sep: string, k: int)
    requires 0 <= k < |mid|
    ensures Contains(Join(pre + mid + post, sep), mid[k])
  {
    assert (pre + mid + post)[|pre| + k] == mid[k];
    JoinContainsPart(pre + mid + post, sep, |pre| + k);
  }

  /** Whatever a line of the middle part contains, the joined text contains too. */
  lemma JoinContainsInMiddle(pre: seq<string>, mid: seq<string>, post: seq<string>, sep: string, k: int, p: string)
    requires 0 <= k < |mid| && Contains(mid[k], p)
    ensures Contains(Join(pre + mid + post, sep), p)
  {
    JoinContainsMiddle(pre, mid, post, sep, k);
    ContainsTransitive(Join(pre + mid + post, sep), mid[k], p);
  }

  /** Joining blank pieces with a blank separator gives a blank string. */
  lemma {:induction false} JoinBlank(parts: seq<string>, sep: string)
    requires Blank(sep)
    requires forall i :: 0 <= i < |parts| ==> Blank(parts[i])
    ensures Blank(Join(parts, sep))
  {
    if |parts| > 1 {
      var rest := parts[1..];
      assert forall i :: 0 <= i < |rest| ==> rest[i] == parts[i + 1];
      JoinBlank(rest, sep);
      var j := Join(rest, sep);
      forall i | 0 <= i < |parts[0] + sep + j| ensures IsSpace((parts[0] + sep + j)[i]) {
        if i >= |parts[0] + sep| {
          assert (parts[0] + sep + j)[i] == j[i - |parts[0] + sep|];
        }
      }
    }
  }

  /** A join starts with its first piece. */
  lemma JoinStartsWithFirst(parts: seq<string>, sep: string)
    requires |parts| >= 1
    ensures StartsWith(Join(parts, sep), parts[0])
  {
  }

  /** A join ends with its last piece. */
  lemma {:induction false} JoinEndsWithLast(parts: seq<string>, sep: string)
    requires |parts| >= 1
    ensures |parts[|parts| - 1]| <= |Join(parts, sep)|
    ensures Join(parts, sep)[|Join(parts, sep)| - |parts[|parts| - 1]|..] == parts[|parts| - 1]
  {
    if |parts| > 1 {
      JoinEndsWithLast(parts[1..], sep);
      assert parts[1..][|parts| - 2] == parts[|parts| - 1];
    }
  }

  /** The joined text of a concatenation of two non-empty line lists. */
  lemma {:induction false} JoinAppend(a: seq<string>, b: seq<string>, sep: string)
    requires |a| >= 1 && |b| >= 1
    ensures Join(a + b, sep) == Join(a, sep) + sep + Join(b, sep)
  {
    if |a| == 1 {
      assert (a + b)[1..] == b;
    } else {
      assert (a + b)[1..] == a[1..] + b;
      JoinAppend(a[1..], b, sep);
    }
  }

  function Digit(d: nat): (c: char)
    requires d < 10
    ensures '0' <= c <= '9' && c as int == '0' as int + d
  {
    "0123456789"[d]
  }

  /** `str(n)` for a natural number: decimal digits, no leading zero. */
  function NatToString(n: nat): (r: string)
    ensures |r| >= 1
    ensures forall i :: 0 <= i < |r| ==> '0' <= r[i] <= '9'
    ensures r[0] == '0' ==> n == 0 && r == "0"
    decreases n
  {
    if n < 10 then [Digit(n)] else NatToString(n / 10) + [Digit(n % 10)]
  }

  /** The value of a string of decimal digits. */
  function DigitsValue(s: string): nat
    requires forall i :: 0 <= i < |s| ==> '0' <= s[i] <= '9'
  {
    if s == [] then 0 else 10 * DigitsValue(s[..|s| - 1]) + (s[|s| - 1] as int - '0' as int)
  }

  /** Reading back the digits of `NatToString(n)` gives `n`. */
  lemma {:induction false} NatToStringValue(n: nat)
    ensures DigitsValue(NatToString(n)) == n
    decreases n
  {
    if n >= 10 {
      NatToStringValue(n / 10);
      var r := NatToString(n);
      assert r[..|r| - 1] == NatToString(n / 10);
    }
  }

  /** Python's `str(i)` for an integer: a minus sign for a negative value, then the digits of its magnitude. */
  function IntToString(i: int): (r: string)
    ensures |r| >= 1
    ensures i < 0 <==> r[0] == '-'
    ensures r[if i < 0 then 1 else 0..] == NatToString(if i < 0 then -i else i)
  {
    if i < 0 then "-" + NatToString(-i) else NatToString(i)
  }

  /** Reading back the digits after the optional sign of `IntToString(i)` gives the magnitude of `i`. */
  lemma IntToStringValue(i: int)
    ensures var r := IntToString(i);
      var digits := r[if i < 0 then 1 else 0..];
      |digits| >= 1 && (forall k :: 0 <= k < |digits| ==> '0' <= digits[k] <= '9') &&
      (digits[0] == '0' ==> i == 0) &&
      DigitsValue(digits) == (if i < 0 then -i else i)
  {
    NatToStringValue(if i < 0 then -i else i);
  }

  /** Whether position `i` of `s` begins a word for `str.title`: no letter comes just before it. */
  predicate WordStart(s: string, i: nat, afterLetter: bool)
    requires i < |s|
  {
    if i == 0 then !afterLetter else !IsLetter(s[i - 1])
  }

  /**
   * `str.title` on ASCII: a letter is upper-cased when the character before it is
   * not a letter, and lower-cased otherwise; other characters are unchanged.
   * `afterLetter` says whether a letter precedes `s`.
   */
  function TitleFrom(s: string, afterLetter: bool): (r: string)
    ensures |r| == |s|
    ensures forall i :: 0 <= i < |s| ==> LowerChar(r[i]) == LowerChar(s[i])
    ensures forall i :: 0 <= i < |s| && !IsLetter(s[i]) ==> r[i] == s[i]
    ensures forall i :: 0 <= i < |s| && IsLetter(s[i]) ==>
      (IsUpper(r[i]) <==> WordStart(s, i, afterLetter)) && (IsLower(r[i]) <==> !WordStart(s, i, afterLetter))
  {
    if s == [] then []
    else
      var c := s[0];
      var t := if !IsLetter(c) then c else if afterLetter then LowerChar(c) else UpperChar(c);
      var rest := TitleFrom(s[1..], IsLetter(c));
      assert forall i :: 1 <= i < |s| ==> WordStart(s, i, afterLetter) == WordStart(s[1..], i - 1, IsLetter(c));
      [t] + rest
  }

  /**
   * `str.title` on ASCII: every letter that starts a word (no letter before it) is
   * upper case, every other letter lower case, every other character unchanged.
   */
  function Title(s: string): (r: string)
    ensures |r| == |s| && Lower(r) == Lower(s)
    ensures forall i :: 0 <= i < |s| && !IsLetter(s[i]) ==> r[i] == s[i]
    ensures forall i :: 0 <= i < |s| && IsLetter(s[i]) ==>
      (IsUpper(r[i]) <==> WordStart(s, i, false)) && (IsLower(r[i]) <==> !WordStart(s, i, false))
  {
    var r := TitleFrom(s, false);
    assert Lower(r) == Lower(s);
    r
  }
}
