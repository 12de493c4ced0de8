/**
 * The JavaScript text operations the generator is built from: a template
 * literal, `Array.prototype.join`, and `${n}` for a non-negative integer;
 * plus a reader that recovers such an integer from generated text.
 */
module Text {
  import opened Wrappers

  // ---------------------------------------------------------------------------
  // Template literals
  // ---------------------------------------------------------------------------

  /**
   * The value of the template literal `s0${v0}s1${v1}...sn`: its literal
   * strings interleaved with the substituted values, in order.
   */
  function Template(strings: seq<string>, values: seq<string>): string
    requires |strings| == |values| + 1
    decreases |values|
  {
    if |values| == 0 then strings[0]
    else strings[0] + (values[0] + Template(strings[1..], values[1..]))
  }

  /** Unfolding a template from its `j`-th literal string on: that string, the `j`-th value, and the rest. */
  lemma TemplateUnfold(strings: seq<string>, values: seq<string>, j: nat)
    requires |strings| == |values| + 1 && j < |values|
    ensures Template(strings[j..], values[j..]) == strings[j] + (values[j] + Template(strings[j + 1..], values[j + 1..]))
  {
    assert strings[j..][1..] == strings[j + 1..];
    assert values[j..][1..] == values[j + 1..];
  }

  /** After its last value, a template emits only its last literal string. */
  lemma TemplateLast(strings: seq<string>, values: seq<string>)
    requires |strings| == |values| + 1
    ensures Template(strings[|values|..], values[|values|..]) == strings[|values|]
  {
    assert values[|values|..] == [];
  }

  /** A template with six slots, written out as the concatenation it denotes. */
  lemma TemplateOfSix(s: seq<string>, v: seq<string>)
    requires |s| == 7 && |v| == 6
    ensures Template(s, v)
         == s[0] + (v[0] + (s[1] + (v[1] + (s[2] + (v[2] + (s[3] + (v[3] + (s[4] + (v[4] + (s[5] + (v[5] + s[6])))))))))))
  {
    assert s[0..] == s && v[0..] == v;
    TemplateUnfold(s, v, 0);
    TemplateUnfold(s, v, 1);
    TemplateUnfold(s, v, 2);
    TemplateUnfold(s, v, 3);
    TemplateUnfold(s, v, 4);
    TemplateUnfold(s, v, 5);
    TemplateLast(s, v);
  }

  /** The text `t` shows `v` starting at position `at`. */
  predicate Shows(t: string, at: int, v: string)
  {
    0 <= at && at + |v| <= |t| && t[at..at + |v|] == v
  }

  /** A text shows itself, from its start. */
  lemma ShowsWhole(t: string)
    ensures Shows(t, 0, t)
  {
    assert t[0..|t|] == t;
  }

  /** A concatenation shows its left part at its start. */
  lemma ShowsLeft(a: string, b: string)
    ensures Shows(a + b, 0, a)
  {
    assert (a + b)[0..|a|] == a;
  }

  /** A concatenation shows its right part where the left part ends, and ends with it. */
  lemma ShowsRight(a: string, b: string)
    ensures Shows(a + b, |a|, b) && |a| + |b| == |a + b|
  {
    assert (a + b)[|a|..|a| + |b|] == b;
  }

  /** `a + (b + c)` shows `b` where `a` ends. */
  lemma ShowsMiddle(a: string, b: string, c: string)
    ensures Shows(a + (b + c), |a|, b)
  {
    assert (a + (b + c))[|a|..|a| + |b|] == b;
  }

  /** What a text shows at `off` inside a piece of a larger text, the larger text shows at the piece's position plus `off`. */
  lemma ShowsWithin(t: string, at: int, w: string, off: int, v: string)
    requires Shows(t, at, w) && Shows(w, off, v)
    ensures Shows(t, at + off, v)
  {
    assert forall q :: 0 <= q < |v| ==> t[at + off + q] == w[off + q] == v[q];
  }

  /** A text made of `head`, a separator and a rest shows what `head` ends with, then the separator. */
  lemma ShowsBeforeSeparator(t: string, head: string, sep: string, rest: string, o: int, p: string)
    requires t == head + (sep + rest)
    requires Shows(head, o, p) && |head| == o + |p|
    ensures Shows(t, o, p) && Shows(t, o + |p|, sep)
  {
    ShowsLeft(head, sep + rest);
    ShowsWithin(t, 0, head, o, p);
    ShowsMiddle(head, sep, rest);
  }

  // ---------------------------------------------------------------------------
  // Array.prototype.join
  // ---------------------------------------------------------------------------

  /** `parts.join(sep)`: the parts in order, each after the first preceded by one `sep`; no parts give "". */
  function Join(parts: seq<string>, sep: string): string
    decreases |parts|
  {
    if |parts| == 0 then ""
    else if |parts| == 1 then parts[0]
    else Join(parts[..|parts| - 1], sep) + sep + parts[|parts| - 1]
  }

  /** The summed length of the parts. */
  function TotalLength(parts: seq<string>): nat
    decreases |parts|
  {
    if |parts| == 0 then 0 else |parts[0]| + TotalLength(parts[1..])
  }

  /** Joining two non-empty lists is joining each and putting one separator between them. */
  lemma {:induction false} JoinAppend(a: seq<string>, b: seq<string>, sep: string)
    requires |a| > 0 && |b| > 0
    ensures Join(a + b, sep) == Join(a, sep) + sep + Join(b, sep)
    decreases |b|
  {
    var ab := a + b;
    if |b| == 1 {
      assert ab[..|ab| - 1] == a;
    } else {
      var b' := b[..|b| - 1];
      assert ab[..|ab| - 1] == a + b';
      JoinAppend(a, b', sep);
    }
  }

  /** Joining the first `i + 1` parts is joining the first `i`, one separator (none when `i` is first) and part `i`. */
  lemma JoinPrefixEnd(parts: seq<string>, sep: string, i: nat)
    requires i < |parts|
    ensures Join(parts[..i + 1], sep) == (if i == 0 then "" else Join(parts[..i], sep) + sep) + parts[i]
  {
    assert parts[..i + 1][..i] == parts[..i];
  }

  /** The joined text begins with the first `n` parts joined, followed by one separator and the rest joined. */
  lemma JoinAfterPrefix(parts: seq<string>, sep: string, n: nat)
    requires 0 < n < |parts|
    ensures Join(parts, sep) == Join(parts[..n], sep) + (sep + Join(parts[n..], sep))
  {
    JoinAppend(parts[..n], parts[n..], sep);
    assert parts[..n] + parts[n..] == parts;
  }

  /** Where part `i` begins in `parts.join(sep)`: after the parts before it joined, and one separator. */
  function JoinOffset(parts: seq<string>, sep: string, i: nat): nat
    requires i <= |parts|
  {
    if i == 0 then 0 else |Join(parts[..i], sep)| + |sep|
  }

  /** The first `i + 1` parts joined end with part `i`, at JoinOffset. */
  lemma JoinPrefixShowsLast(parts: seq<string>, sep: string, i: nat)
    requires i < |parts|
    ensures Shows(Join(parts[..i + 1], sep), JoinOffset(parts, sep, i), parts[i])
    ensures |Join(parts[..i + 1], sep)| == JoinOffset(parts, sep, i) + |parts[i]|
  {
    JoinPrefixEnd(parts, sep, i);
    if i == 0 {
      ShowsWhole(parts[0]);
    } else {
      ShowsRight(Join(parts[..i], sep) + sep, parts[i]);
    }
  }

  /**
   * Part `i` stands in the joined text at JoinOffset; it is followed by one
   * separator and then part `i + 1`, or ends the text when it is the last.
   */
  lemma JoinPartAt(parts: seq<string>, sep: string, i: nat)
    requires i < |parts|
    ensures Shows(Join(parts, sep), JoinOffset(parts, sep, i), parts[i])
    ensures i + 1 < |parts| ==>
      Shows(Join(parts, sep), JoinOffset(parts, sep, i) + |parts[i]|, sep)
      && JoinOffset(parts, sep, i + 1) == JoinOffset(parts, sep, i) + |parts[i]| + |sep|
    ensures i + 1 == |parts| ==> JoinOffset(parts, sep, i) + |parts[i]| == |Join(parts, sep)|
  {
    var head := Join(parts[..i + 1], sep);
    JoinPrefixShowsLast(parts, sep, i);
    if i + 1 < |parts| {
      JoinAfterPrefix(parts, sep, i + 1);
      ShowsBeforeSeparator(Join(parts, sep), head, sep, Join(parts[i + 1..], sep), JoinOffset(parts, sep, i), parts[i]);
    } else {
      assert parts[..i + 1] == parts;
    }
  }

  /** `n` parts are joined with exactly `n - 1` separators and nothing else. */
  lemma {:induction false} JoinLength(parts: seq<string>, sep: string)
    requires |parts| > 0
    ensures |Join(parts, sep)| + |sep| == TotalLength(parts) + |parts| * |sep|
    decreases |parts|
  {
    if |parts| > 1 {
      var rest := parts[1..];
      JoinLength(rest, sep);
      JoinAppend([parts[0]], rest, sep);
      assert [parts[0]] + rest == parts;
    }
  }

  // ---------------------------------------------------------------------------
  // Decimal numbers: `${n}` and reading it back
  // ---------------------------------------------------------------------------

  predicate IsDigit(c: char) {
    '0' <= c <= '9'
  }

  predicate AllDigits(s: string) {
    forall k :: 0 <= k < |s| ==> IsDigit(s[k])
  }

  function DigitChar(d: nat): (c: char)
    requires d < 10
    ensures IsDigit(c)
  {
    (('0' as int) + d) as char
  }

  function DigitValue(c: char): (d: nat)
    requires IsDigit(c)
    ensures d < 10
  {
    (c as int) - ('0' as int)
  }

  /** `${n}` for a non-negative integer: its decimal digits, most significant first, without a leading zero. */
  function NatToString(n: nat): (s: string)
    ensures |s| > 0 && AllDigits(s)
    ensures s[0] == '0' ==> n == 0
    ensures n < 10 ==> |s| == 1
    decreases n
  {
    if n < 10 then [DigitChar(n)]
    else NatToString(n / 10) + [DigitChar(n % 10)]
  }

  /** The number a string of decimal digits denotes. */
  function ParseNat(s: string): nat
    requires AllDigits(s)
    decreases |s|
  {
    if |s| == 0 then 0
    else 10 * ParseNat(s[..|s| - 1]) + DigitValue(s[|s| - 1])
  }

  /** Reading back the decimal text of `n` gives `n`. */
  lemma {:induction false} ParseNatToString(n: nat)
    ensures ParseNat(NatToString(n)) == n
    decreases n
  {
    var s := NatToString(n);
    if n < 10 {
      assert s[..0] == [];
    } else {
      ParseNatToString(n / 10);
      assert s[..|s| - 1] == NatToString(n / 10);
    }
  }

  /** Different numbers have different decimal texts. */
  lemma NatToStringInjective(m: nat, n: nat)
    requires NatToString(m) == NatToString(n)
    ensures m == n
  {
    ParseNatToString(m);
    ParseNatToString(n);
  }

  /** The longest prefix of `s` made only of decimal digits. */
  function DigitRun(s: string): (r: string)
    ensures r <= s && AllDigits(r)
    ensures |r| < |s| ==> !IsDigit(s[|r|])
    decreases |s|
  {
    if |s| == 0 || !IsDigit(s[0]) then ""
    else [s[0]] + DigitRun(s[1..])
  }

  /** The number written right after `prefix` at the start of `text`, if `text` has that prefix and a digit follows it. */
  function ReadNumberAfter(prefix: string, text: string): Option<nat>
  {
    if prefix <= text then
      var d := DigitRun(text[|prefix|..]);
      if |d| == 0 then None else Some(ParseNat(d))
    else None
  }

  /** The digit run of a digit string followed by a non-digit (or nothing) is that digit string. */
  lemma {:induction false} DigitRunOfDigits(d: string, rest: string)
    requires AllDigits(d)
    requires rest == [] || !IsDigit(rest[0])
    ensures DigitRun(d + rest) == d
    decreases |d|
  {
    if |d| > 0 {
      assert (d + rest)[1..] == d[1..] + rest;
      DigitRunOfDigits(d[1..], rest);
      assert [d[0]] + d[1..] == d;
    } else {
      assert d + rest == rest;
    }
  }

  /** A number rendered after a prefix and before a non-digit is read back exactly. */
  lemma ReadRenderedNumber(prefix: string, n: nat, rest: string)
    requires rest == [] || !IsDigit(rest[0])
    ensures ReadNumberAfter(prefix, prefix + (NatToString(n) + rest)) == Some(n)
  {
    var text := prefix + (NatToString(n) + rest);
    assert text[|prefix|..] == NatToString(n) + rest;
    DigitRunOfDigits(NatToString(n), rest);
    ParseNatToString(n);
  }
}
