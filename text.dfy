/** The parts of JavaScript's string API the repository relies on, over
    `seq<char>`: `includes`, `split` and `join` with a one-character
    separator, `trim` and the `\s` class of regular expressions, the decimal
    text of a number, and a scanner for the maximal run of a character class
    (the greedy `X*` / `X+` of a regular expression). */
module Text {
  import opened Wrappers

  /** `w` starts at position `i` of `s`. */
  predicate IsPrefixAt(s: string, i: nat, w: string) {
    i + |w| <= |s| && s[i..i + |w|] == w
  }

  /** `w` occurs somewhere in `s`: the reference meaning of `s.includes(w)`. */
  ghost predicate Occurs(s: string, w: string) {
    exists i: nat :: IsPrefixAt(s, i, w)
  }

  /** A left-to-right search for `w` in `s` from position `i` on. */
  predicate IncludesFrom(s: string, w: string, i: nat)
    ensures IncludesFrom(s, w, i) <==> exists j: nat :: i <= j && IsPrefixAt(s, j, w)
    decreases |s| - i
  {
    if i + |w| > |s| then false
    else IsPrefixAt(s, i, w) || IncludesFrom(s, w, i + 1)
  }

  /** `s.includes(w)`. */
  predicate Includes(s: string, w: string)
    ensures Includes(s, w) <==> Occurs(s, w)
  {
    IncludesFrom(s, w, 0)
  }

  lemma OccursInMiddle(a: string, w: string, b: string)
    ensures Occurs(a + w + b, w)
  {
    assert (a + w + b)[|a|..|a| + |w|] == w;
    assert IsPrefixAt(a + w + b, |a|, w);
  }

  /** A labelled field `caption + w` contains `w`. */
  lemma OccursAtEnd(caption: string, w: string)
    ensures Occurs(caption + w, w)
  {
    OccursInMiddle(caption, w, "");
    assert caption + w + "" == caption + w;
  }

  /** A word whose first character is missing from `s` does not occur in it. */
  lemma AbsentFirstChar(s: string, w: string)
    requires |w| > 0 && w[0] !in s
    ensures !Occurs(s, w)
  {
    forall i: nat ensures !IsPrefixAt(s, i, w) {
      if i + |w| <= |s| {
        assert s[i..i + |w|][0] == s[i];
      }
    }
  }

  lemma OccursInExtension(s: string, w: string, a: string, b: string)
    requires Occurs(s, w)
    ensures Occurs(a + s + b, w)
  {
    var i: nat :| IsPrefixAt(s, i, w);
    assert (a + s + b)[|a| + i..|a| + i + |w|] == s[i..i + |w|];
    assert IsPrefixAt(a + s + b, |a| + i, w);
  }

  /** The pieces of a template literal, written one after the other. */
  function Concat(parts: seq<string>): string {
    if |parts| == 0 then "" else parts[0] + Concat(parts[1..])
  }

  /** Every piece of a template literal occurs in its text. */
  lemma {:induction false} OccursInConcat(parts: seq<string>, k: nat)
    requires k < |parts|
    ensures Occurs(Concat(parts), parts[k])
    decreases k
  {
    if k == 0 {
      OccursInMiddle("", parts[0], Concat(parts[1..]));
      assert "" + parts[0] + Concat(parts[1..]) == Concat(parts);
    } else {
      OccursInConcat(parts[1..], k - 1);
      OccursInExtension(Concat(parts[1..]), parts[k], parts[0], "");
      assert parts[0] + Concat(parts[1..]) + "" == Concat(parts);
    }
  }

  // ---------------------------------------------------------------------------
  // Array.prototype.join and String.prototype.split with a one-character separator

  /** `items.join(sep)`: the empty list joins to the empty string. */
  function Join(items: seq<string>, sep: string): (r: string)
    ensures |items| == 1 ==> r == items[0]
  {
    if |items| == 0 then ""
    else if |items| == 1 then items[0]
    else items[0] + sep + Join(items[1..], sep)
  }

  /** `s.split(c)`: the pieces between the occurrences of `c`; a string without
      `c` (the empty string included) splits into itself alone. */
  function Split(s: string, c: char): (r: seq<string>)
    ensures |r| >= 1
    ensures forall k :: 0 <= k < |r| ==> c !in r[k]
    decreases |s|
  {
    if |s| == 0 then [""]
    else
      var rest := Split(s[1..], c);
      if s[0] == c then [""] + rest else [[s[0]] + rest[0]] + rest[1..]
  }

  /** A string without the separator is a single piece. */
  lemma {:induction false} SplitNoSeparator(s: string, c: char)
    requires c !in s
    ensures Split(s, c) == [s]
    decreases |s|
  {
    if |s| > 0 {
      SplitNoSeparator(s[1..], c);
      assert [s[0]] + s[1..] == s;
    }
  }

  /** Splitting at the first separator: the part before it is the first piece. */
  lemma {:induction false} SplitAtFirst(a: string, c: char, b: string)
    requires c !in a
    ensures Split(a + [c] + b, c) == [a] + Split(b, c)
    decreases |a|
  {
    if |a| == 0 {
      assert a + [c] + b == [c] + b;
      assert ([c] + b)[1..] == b;
    } else {
      assert (a + [c] + b)[1..] == a[1..] + [c] + b;
      SplitAtFirst(a[1..], c, b);
      assert [a[0]] + a[1..] == a;
    }
  }

  /** Splitting a join at its one-character separator gives the items back,
      provided there is at least one item and none contains the separator. */
  lemma {:induction false} SplitJoin(items: seq<string>, c: char)
    requires |items| >= 1
    requires forall k :: 0 <= k < |items| ==> c !in items[k]
    ensures Split(Join(items, [c]), c) == items
    decreases |items|
  {
    if |items| == 1 {
      SplitNoSeparator(items[0], c);
    } else {
      SplitJoin(items[1..], c);
      SplitAtFirst(items[0], c, Join(items[1..], [c]));
      assert [items[0]] + items[1..] == items;
    }
  }

  // ---------------------------------------------------------------------------
  // Whitespace, greedy runs and String.prototype.trim

  /** The characters matched by `\s` and removed by `trim`: ECMAScript's
      WhiteSpace (tab, vertical tab, form feed, space, no-break space, the
      byte-order mark and the Unicode space separators) and LineTerminator
      (line feed, carriage return, line and paragraph separators). */
  predicate IsWhitespace(c: char) {
    c == '\t' || c == '\n' || c == '\U{B}' || c == '\U{C}' || c == '\r' || c == ' '
    || c == '\U{A0}' || c == '\U{1680}' || ('\U{2000}' <= c <= '\U{200A}')
    || c == '\U{2028}' || c == '\U{2029}' || c == '\U{202F}' || c == '\U{205F}'
    || c == '\U{3000}' || c == '\U{FEFF}'
  }

  /** The end of the maximal run of characters satisfying `p` that starts at
      `i`: the greedy reading of `[class]*` in a regular expression. */
  function SpanWhile(s: string, i: nat, p: char -> bool): (j: nat)
    requires i <= |s|
    ensures i <= j <= |s|
    ensures forall k :: i <= k < j ==> p(s[k])
    ensures j == |s| || !p(s[j])
    decreases |s| - i
  {
    if i == |s| || !p(s[i]) then i else SpanWhile(s, i + 1, p)
  }

  /** A run that ends where `p` fails (or at the end) is the maximal one. */
  lemma SpanWhileIs(s: string, i: nat, j: nat, p: char -> bool)
    requires i <= j <= |s|
    requires forall k :: i <= k < j ==> p(s[k])
    requires j == |s| || !p(s[j])
    ensures SpanWhile(s, i, p) == j
  {
  }

  /** `s` without its trailing whitespace. */
  function TrimEnd(s: string): (r: string)
    ensures |r| <= |s| && r == s[..|r|]
    ensures forall k :: |r| <= k < |s| ==> IsWhitespace(s[k])
    ensures r == [] || !IsWhitespace(r[|r| - 1])
  {
    if |s| > 0 && IsWhitespace(s[|s| - 1]) then TrimEnd(s[..|s| - 1]) else s
  }

  /** `s.trim()`: the part of `s` between its leading and its trailing
      whitespace. */
  function Trim(s: string): (r: string)
    ensures exists i: nat :: IsPrefixAt(s, i, r)
                            && (forall k :: 0 <= k < i ==> IsWhitespace(s[k]))
                            && (forall k :: i + |r| <= k < |s| ==> IsWhitespace(s[k]))
    ensures r == [] || (!IsWhitespace(r[0]) && !IsWhitespace(r[|r| - 1]))
  {
    var i := SpanWhile(s, 0, IsWhitespace);
    var r := TrimEnd(s[i..]);
    assert s[i..i + |r|] == r;
    assert IsPrefixAt(s, i, r);
    assert forall k :: i + |r| <= k < |s| ==> s[k] == s[i..][k - i];
    r
  }

  lemma TrimKeepsOnly(s: string, c: char)
    requires c !in s
    ensures c !in Trim(s)
  {
    var r := Trim(s);
    var i: nat :| IsPrefixAt(s, i, r);
    assert r == s[i..i + |r|];
  }

  // ---------------------------------------------------------------------------
  // The decimal text of a number, as a template literal `${n}` writes it

  predicate IsDigit(c: char) {
    '0' <= c <= '9'
  }

  function DigitChar(d: nat): (c: char)
    requires d < 10
    ensures IsDigit(c) && c as int - '0' as int == d
  {
    ('0' as int + d) as char
  }

  /** `${n}` for a natural number: no leading zero, at least one digit. */
  function NatToString(n: nat): (r: string)
    ensures 1 <= |r|
    ensures forall k :: 0 <= k < |r| ==> IsDigit(r[k])
    ensures |r| > 1 ==> r[0] != '0'
    decreases n
  {
    if n < 10 then [DigitChar(n)] else NatToString(n / 10) + [DigitChar(n % 10)]
  }

  /** The number a non-empty run of decimal digits denotes. */
  function DigitsValue(s: string): (v: nat)
    requires 1 <= |s|
    requires forall k :: 0 <= k < |s| ==> IsDigit(s[k])
    decreases |s|
  {
    assert IsDigit(s[|s| - 1]);
    var last := s[|s| - 1] as int - '0' as int;
    if |s| == 1 then last else 10 * DigitsValue(s[..|s| - 1]) + last
  }

  /** Reading `${n}` back gives `n`, so different numbers have different texts. */
  lemma {:induction false} NatToStringValue(n: nat)
    ensures DigitsValue(NatToString(n)) == n
    decreases n
  {
    if n >= 10 {
      var r := NatToString(n);
      assert r[..|r| - 1] == NatToString(n / 10);
      NatToStringValue(n / 10);
    }
  }

  lemma NatToStringInjective(m: nat, n: nat)
    requires NatToString(m) == NatToString(n)
    ensures m == n
  {
    NatToStringValue(m);
    NatToStringValue(n);
  }
}
