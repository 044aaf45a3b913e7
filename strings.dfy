/** The Python string operations the application relies on, for the
    ASCII letters the application handles: `sep.join`, `str.split`,
    `str.replace` of one character, `str.title` and `str(int)`. */
module Strings {

  /** `s` occurs in `text` starting at position `k`. */
  predicate OccursAt(text: string, s: string, k: nat)
  {
    k + |s| <= |text| && text[k..k + |s|] == s
  }

  /** `s` occurs somewhere inside `text`. */
  ghost predicate Contains(text: string, s: string)
  {
    exists k: nat :: OccursAt(text, s, k)
  }

  lemma ContainsMiddle(before: string, s: string, after: string)
    ensures Contains(before + s + after, s)
  {
    var text := before + s + after;
    assert text[|before|..|before| + |s|] == s;
    assert OccursAt(text, s, |before|);
  }

  /** A string occurs at the end of anything it is appended to. */
  lemma ContainsEnd(before: string, s: string)
    ensures Contains(before + s, s)
  {
    ContainsMiddle(before, s, "");
    assert before + s + "" == before + s;
  }

  /** Appending text keeps every occurrence. */
  lemma ContainsExtend(text: string, more: string)
    ensures forall s :: Contains(text, s) ==> Contains(text + more, s)
  {
    forall s | Contains(text, s) ensures Contains(text + more, s) {
      var k: nat :| OccursAt(text, s, k);
      assert (text + more)[k..k + |s|] == text[k..k + |s|];
      assert OccursAt(text + more, s, k);
    }
  }

  /** Occurrence is transitive: what occurs in a part occurs in the whole. */
  lemma ContainsTransitive(text: string, mid: string, s: string)
    requires Contains(text, mid) && Contains(mid, s)
    ensures Contains(text, s)
  {
    var k: nat :| OccursAt(text, mid, k);
    var j: nat :| OccursAt(mid, s, j);
    assert mid == text[k..k + |mid|];
    forall n | 0 <= n < |s| ensures text[k + j + n] == s[n] {
      assert s[n] == mid[j + n] == text[k + j + n];
    }
    assert text[k + j..k + j + |s|] == s;
    assert OccursAt(text, s, k + j);
  }

  /** Python `sep.join(parts)`. */
  function Join(parts: seq<string>, sep: string): (s: string)
    ensures |parts| > 0 ==> parts[0] <= s
  {
    if |parts| == 0 then ""
    else if |parts| == 1 then parts[0]
    else parts[0] + sep + Join(parts[1..], sep)
  }

  /** Every part occurs in the joined string. */
  lemma {:induction false} JoinContains(parts: seq<string>, sep: string, i: nat)
    requires i < |parts|
    ensures Contains(Join(parts, sep), parts[i])
  {
    if |parts| == 1 {
      ContainsMiddle("", parts[0], "");
      assert "" + parts[0] + "" == parts[0];
    } else if i == 0 {
      ContainsMiddle("", parts[0], sep + Join(parts[1..], sep));
      assert "" + parts[0] + (sep + Join(parts[1..], sep)) == Join(parts, sep);
    } else {
      JoinContains(parts[1..], sep, i - 1);
      var rest := Join(parts[1..], sep);
      ContainsMiddle(parts[0] + sep, rest, "");
      assert parts[0] + sep + rest + "" == Join(parts, sep);
      ContainsTransitive(Join(parts, sep), rest, parts[i]);
    }
  }

  /** Python `s.split(sep)` for a one-character separator, read one
      character at a time from the right end inwards. */
  function Split(s: string, sep: char): (parts: seq<string>)
    ensures |parts| >= 1
  {
    if |s| == 0 then [""] else Prepend(s[0], sep, Split(s[1..], sep))
  }

  /** Puts one character in front of the pieces of the rest: a separator
      starts a new, empty piece, any other character joins the first one. */
  function Prepend(c: char, sep: char, rest: seq<string>): (parts: seq<string>)
    requires |rest| >= 1
    ensures |parts| >= 1
  {
    if c == sep then [""] + rest else [[c] + rest[0]] + rest[1..]
  }

  /** Joining the pieces with the separator gives back the string. */
  lemma {:induction false} JoinSplit(s: string, sep: char)
    ensures Join(Split(s, sep), [sep]) == s
  {
    if |s| > 0 {
      var rest := Split(s[1..], sep);
      JoinSplit(s[1..], sep);
      JoinPrepend(s[0], sep, rest);
      assert s == [s[0]] + s[1..];
    }
  }

  /** Joining after `Prepend` puts the character in front of the join. */
  lemma JoinPrepend(c: char, sep: char, rest: seq<string>)
    requires |rest| >= 1
    ensures Join(Prepend(c, sep, rest), [sep]) == [c] + Join(rest, [sep])
  {
    var parts := Prepend(c, sep, rest);
    var tail := Join(rest[1..], [sep]);
    if c == sep {
      assert parts[1..] == rest;
      assert Join(parts, [sep]) == "" + [sep] + Join(rest, [sep]);
    } else if |rest| == 1 {
      assert Join(parts, [sep]) == [c] + rest[0];
    } else {
      assert parts[1..] == rest[1..];
      var x := rest[0] + [sep];
      assert Join(rest, [sep]) == x + tail;
      assert Join(parts, [sep]) == ([c] + rest[0]) + [sep] + tail;
      AppendAssoc([c], rest[0], [sep]);
      AppendAssoc([c], x, tail);
    }
  }

  lemma AppendAssoc(a: string, b: string, c: string)
    ensures a + (b + c) == (a + b) + c
  {
  }

  /** There is more than one piece exactly when the separator occurs,
      and no piece contains it. */
  lemma {:induction false} SplitPieces(s: string, sep: char)
    ensures (|Split(s, sep)| == 1) == (sep !in s)
    ensures forall k :: 0 <= k < |Split(s, sep)| ==> sep !in Split(s, sep)[k]
  {
    if |s| > 0 {
      SplitPieces(s[1..], sep);
      assert s == [s[0]] + s[1..];
    }
  }

  /** Join peels off its first part. */
  lemma JoinFirst(parts: seq<string>, sep: string)
    requires |parts| >= 1
    ensures Join(parts, sep) == parts[0] + (if |parts| == 1 then "" else sep + Join(parts[1..], sep))
  {
  }

  /** Pieces appended after the first one pass through `Prepend`. */
  lemma PrependAppend(c: char, sep: char, left: seq<string>, right: seq<string>)
    requires |left| >= 1
    ensures Prepend(c, sep, left + right) == Prepend(c, sep, left) + right
  {
    if c != sep {
      assert (left + right)[1..] == left[1..] + right;
    }
  }

  /** Splitting at a separator placed between `a` and `b` splits each
      side on its own. */
  lemma {:induction false} SplitAround(a: string, b: string, sep: char)
    ensures Split(a + [sep] + b, sep) == Split(a, sep) + Split(b, sep)
  {
    var s := a + [sep] + b;
    if |a| == 0 {
      assert s[1..] == b;
    } else {
      assert s[1..] == a[1..] + [sep] + b;
      SplitAround(a[1..], b, sep);
      PrependAppend(a[0], sep, Split(a[1..], sep), Split(b, sep));
    }
  }

  /** The last two pieces of a path `prefix/seg/last` are `seg` and `last`. */
  lemma LastTwoPieces(prefix: string, seg: string, last: string, sep: char)
    requires sep !in seg && sep !in last
    ensures var parts := Split(prefix + [sep] + seg + [sep] + last, sep);
            |parts| >= 2 && parts[|parts| - 2] == seg && parts[|parts| - 1] == last
  {
    var tail := seg + [sep] + last;
    assert prefix + [sep] + seg + [sep] + last == prefix + [sep] + tail;
    SplitTwo(seg, last, sep);
    SplitAround(prefix, tail, sep);
  }

  lemma SplitTwo(seg: string, last: string, sep: char)
    requires sep !in seg && sep !in last
    ensures Split(seg + [sep] + last, sep) == [seg, last]
  {
    SplitAround(seg, last, sep);
    SplitWhole(seg, sep);
    SplitWhole(last, sep);
  }

  /** Without a separator the string is its only piece. */
  lemma SplitWhole(s: string, sep: char)
    requires sep !in s
    ensures Split(s, sep) == [s]
  {
    SplitPieces(s, sep);
    JoinSplit(s, sep);
  }

  /** Python `s.replace(from, to)` for single characters. */
  function ReplaceChar(s: string, from: char, to: char): (r: string)
    ensures |r| == |s|
    ensures forall i :: 0 <= i < |s| ==> r[i] == (if s[i] == from then to else s[i])
  {
    if |s| == 0 then ""
    else [if s[0] == from then to else s[0]] + ReplaceChar(s[1..], from, to)
  }

  /** Replacing works on each part of a concatenation separately. */
  lemma ReplaceCharAppend(a: string, b: string, from: char, to: char)
    ensures ReplaceChar(a + b, from, to) == ReplaceChar(a, from, to) + ReplaceChar(b, from, to)
  {
    var r, ra, rb := ReplaceChar(a + b, from, to), ReplaceChar(a, from, to), ReplaceChar(b, from, to);
    var ab, rab := a + b, ra + rb;
    forall i | 0 <= i < |r| ensures r[i] == rab[i] {
      if i < |a| {
        assert ab[i] == a[i] && rab[i] == ra[i];
      } else {
        var j := i - |a|;
        assert ab[i] == b[j] && rab[i] == rb[j];
      }
    }
    assert r == rab;
  }

  /** A string without the character is left as it is. */
  lemma ReplaceCharAbsent(s: string, from: char, to: char)
    requires from !in s
    ensures ReplaceChar(s, from, to) == s
  {
    var r := ReplaceChar(s, from, to);
    forall i | 0 <= i < |s| ensures r[i] == s[i] {
      assert s[i] in s;
    }
  }

  predicate IsLower(c: char) { 'a' <= c <= 'z' }
  predicate IsUpper(c: char) { 'A' <= c <= 'Z' }
  /** A cased character, in the ASCII range. */
  predicate IsLetter(c: char) { IsLower(c) || IsUpper(c) }

  function Upper(c: char): (u: char)
    ensures IsLetter(u) == IsLetter(c) && (IsLetter(c) ==> IsUpper(u))
  {
    if IsLower(c) then (c as int - 32) as char else c
  }

  function Lower(c: char): (l: char)
    ensures IsLetter(l) == IsLetter(c) && (IsLetter(c) ==> IsLower(l))
  {
    if IsUpper(c) then (c as int + 32) as char else c
  }

  /** What Python's `str.title` puts at position `i` of `s`: a letter
      that starts a run of letters is upper-cased, a letter that follows
      another letter is lower-cased, anything else is kept. */
  function TitleAt(s: string, i: nat): char
    requires i < |s|
  {
    if !IsLetter(s[i]) then s[i]
    else if i > 0 && IsLetter(s[i - 1]) then Lower(s[i])
    else Upper(s[i])
  }

  /** The left-to-right scan of `str.title`; `afterLetter` says whether
      the character before `s` was a letter. */
  function TitleFrom(s: string, afterLetter: bool): (r: string)
    ensures |r| == |s|
  {
    if |s| == 0 then ""
    else
      var c := s[0];
      [if !IsLetter(c) then c else if afterLetter then Lower(c) else Upper(c)]
        + TitleFrom(s[1..], IsLetter(c))
  }

  /** Python `s.title()`. */
  function Title(s: string): (r: string)
    ensures |r| == |s|
  {
    TitleFrom(s, false)
  }

  lemma {:induction false} TitleFromAt(s: string, afterLetter: bool, i: nat)
    requires i < |s|
    ensures TitleFrom(s, afterLetter)[i] ==
      (if !IsLetter(s[i]) then s[i]
       else if (if i == 0 then afterLetter else IsLetter(s[i - 1])) then Lower(s[i])
       else Upper(s[i]))
    decreases i
  {
    if i > 0 {
      TitleFromAt(s[1..], IsLetter(s[0]), i - 1);
    }
  }

  /** The scan computes the per-position rule at every position. */
  lemma TitleSpec(s: string)
    ensures forall i :: 0 <= i < |s| ==> Title(s)[i] == TitleAt(s, i)
  {
    forall i | 0 <= i < |s| ensures Title(s)[i] == TitleAt(s, i) {
      TitleFromAt(s, false, i);
    }
  }

  /** Title-casing keeps every character that is not a letter, and turns
      letters into letters. */
  lemma TitleKeepsNonLetters(s: string)
    ensures forall i :: 0 <= i < |s| ==>
      IsLetter(Title(s)[i]) == IsLetter(s[i]) && (!IsLetter(s[i]) ==> Title(s)[i] == s[i])
  {
    TitleSpec(s);
  }

  /** Title-casing an already title-cased string changes nothing. */
  lemma TitleIdempotent(s: string)
    ensures Title(Title(s)) == Title(s)
  {
    var t := Title(s);
    TitleSpec(s);
    TitleSpec(t);
    forall i | 0 <= i < |s| ensures Title(t)[i] == t[i] {
      assert IsLetter(t[i]) == IsLetter(s[i]);
      if i > 0 {
        assert IsLetter(t[i - 1]) == IsLetter(s[i - 1]);
      }
    }
  }

  /** Words separated by a non-letter are title-cased independently:
      the word after the separator starts afresh. */
  lemma {:induction false} TitleFromWords(a: string, c: char, b: string, afterLetter: bool)
    requires !IsLetter(c)
    ensures TitleFrom(a + [c] + b, afterLetter) == TitleFrom(a, afterLetter) + [c] + TitleFrom(b, false)
  {
    var s := a + [c] + b;
    if |a| == 0 {
      assert s[1..] == b;
    } else {
      assert s[1..] == a[1..] + [c] + b;
      TitleFromWords(a[1..], c, b, IsLetter(a[0]));
      var head := [if !IsLetter(a[0]) then a[0] else if afterLetter then Lower(a[0]) else Upper(a[0])];
      var x, y := TitleFrom(a[1..], IsLetter(a[0])), [c] + TitleFrom(b, false);
      assert TitleFrom(s, afterLetter) == head + (x + y);
      assert TitleFrom(a, afterLetter) == head + x;
      AppendAssoc(head, x, y);
      AppendAssoc(head + x, [c], TitleFrom(b, false));
      AppendAssoc(x, [c], TitleFrom(b, false));
    }
  }

  /** A word of lower-case letters with its first letter upper-cased. */
  function Capitalized(w: string): (r: string)
    requires |w| > 0 && forall i :: 0 <= i < |w| ==> IsLower(w[i])
    ensures |r| == |w| && IsUpper(r[0]) && r[1..] == w[1..]
  {
    [Upper(w[0])] + w[1..]
  }

  /** `str.title` of a lower-case word capitalizes it. */
  lemma TitleWord(w: string)
    requires |w| > 0 && forall i :: 0 <= i < |w| ==> IsLower(w[i])
    ensures Title(w) == Capitalized(w)
  {
    TitleSpec(w);
    var t, c := Title(w), Capitalized(w);
    forall i | 0 <= i < |w| ensures t[i] == c[i] {
      if i > 0 {
        assert c[i] == w[i];
      }
    }
  }

  predicate IsDigit(c: char) { '0' <= c <= '9' }

  function DigitChar(d: nat): (c: char)
    requires d < 10
    ensures IsDigit(c)
  {
    "0123456789"[d]
  }

  function DigitValue(c: char): nat
    requires IsDigit(c)
  {
    c as int - '0' as int
  }

  /** Decimal digits of `n`, most significant first, without leading zeros. */
  function NatToString(n: nat): (s: string)
    ensures |s| >= 1
    ensures forall i :: 0 <= i < |s| ==> IsDigit(s[i])
  {
    if n < 10 then [DigitChar(n)] else NatToString(n / 10) + [DigitChar(n % 10)]
  }

  /** Python `str(n)` for an int, as used in f-strings. */
  function IntToString(n: int): (s: string)
    ensures |s| >= 1
  {
    if n < 0 then "-" + NatToString(-n) else NatToString(n)
  }

  /** Reads back a string of decimal digits. */
  function ParseNat(s: string): nat
    requires forall i :: 0 <= i < |s| ==> IsDigit(s[i])
  {
    if |s| == 0 then 0 else 10 * ParseNat(s[..|s| - 1]) + DigitValue(s[|s| - 1])
  }

  lemma {:induction false} ParseNatToString(n: nat)
    ensures ParseNat(NatToString(n)) == n
  {
    var s := NatToString(n);
    if n >= 10 {
      ParseNatToString(n / 10);
      assert s[..|s| - 1] == NatToString(n / 10);
    }
  }

  lemma NatToStringInjective(a: nat, b: nat)
    requires NatToString(a) == NatToString(b)
    ensures a == b
  {
    ParseNatToString(a);
    ParseNatToString(b);
  }

  lemma IntToStringSign(n: int)
    ensures (IntToString(n)[0] == '-') == (n < 0)
  {
    if n >= 0 {
      assert IsDigit(NatToString(n)[0]);
    }
  }

  /** Distinct integers are rendered as distinct strings. */
  lemma IntToStringInjective(a: int, b: int)
    requires IntToString(a) == IntToString(b)
    ensures a == b
  {
    var s := IntToString(a);
    IntToStringSign(a);
    IntToStringSign(b);
    if a < 0 && b < 0 {
      assert NatToString(-a) == s[1..] == NatToString(-b);
      NatToStringInjective(-a, -b);
    } else if a >= 0 && b >= 0 {
      NatToStringInjective(a, b);
    }
  }
}
