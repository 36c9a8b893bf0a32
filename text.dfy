/** String operations of Python's `str` that the modelled code relies on:
    substring search, `replace`, `strip`, `split`, `partition`, `join`,
    padding, and decimal and hexadecimal integer text. Characters are
    Dafny `char`s; Unicode-aware classes (`isnumeric`, `isspace`) are
    restricted to their ASCII members. */
module Text {
  import opened Wrappers

  predicate StartsWith(s: string, p: string) {
    |p| <= |s| && s[..|p|] == p
  }

  /** `sub in s` */
  predicate Contains(s: string, sub: string)
    decreases |s|
  {
    StartsWith(s, sub) || (s != [] && Contains(s[1..], sub))
  }

  /** `s.replace(pat, rep)`: every non-overlapping occurrence of `pat`,
      scanning left to right, is replaced by `rep`. */
  function ReplaceAll(s: string, pat: string, rep: string): string
    requires pat != []
    decreases |s|
  {
    if StartsWith(s, pat) then rep + ReplaceAll(s[|pat|..], pat, rep)
    else if s == [] then []
    else [s[0]] + ReplaceAll(s[1..], pat, rep)
  }

  /** Replacing a substring that does not occur changes nothing. */
  lemma {:induction false} ReplaceAbsent(s: string, pat: string, rep: string)
    requires pat != [] && !Contains(s, pat)
    ensures ReplaceAll(s, pat, rep) == s
    decreases |s|
  {
    if s != [] {
      ReplaceAbsent(s[1..], pat, rep);
    }
  }

  /** Replacing a substring by itself changes nothing. */
  lemma {:induction false} ReplaceSelf(s: string, pat: string)
    requires pat != []
    ensures ReplaceAll(s, pat, pat) == s
    decreases |s|
  {
    if StartsWith(s, pat) {
      ReplaceSelf(s[|pat|..], pat);
      assert s == pat + s[|pat|..];
    } else if s != [] {
      ReplaceSelf(s[1..], pat);
      assert s == [s[0]] + s[1..];
    }
  }

  /** A string in which the first character of `sub` never occurs does not
      contain `sub`. */
  lemma {:induction false} ContainsFirstChar(s: string, sub: string)
    requires sub != [] && sub[0] !in s
    ensures !Contains(s, sub)
    decreases |s|
  {
    if s != [] {
      ContainsFirstChar(s[1..], sub);
      assert !StartsWith(s, sub) by {
        if |sub| <= |s| {
          assert s[..|sub|][0] == s[0];
        }
      }
    }
  }

  /** A string shorter than `sub` does not contain it. */
  lemma {:induction false} ContainsShorter(s: string, sub: string)
    requires |s| < |sub|
    ensures !Contains(s, sub)
    decreases |s|
  {
    if s != [] {
      ContainsShorter(s[1..], sub);
    }
  }

  /** A prefix in which the first character of `pat` never occurs is copied
      by `replace` as it is. */
  lemma {:induction false} ReplaceAfterPrefix(pre: string, s: string, pat: string, rep: string)
    requires pat != [] && pat[0] !in pre
    ensures ReplaceAll(pre + s, pat, rep) == pre + ReplaceAll(s, pat, rep)
    decreases |pre|
  {
    if pre != [] {
      ReplaceAfterPrefix(pre[1..], s, pat, rep);
      var t := pre + s;
      assert t[0] == pre[0];
      assert !StartsWith(t, pat) by {
        if |pat| <= |t| {
          assert t[..|pat|][0] == t[0];
        }
      }
      assert t[1..] == pre[1..] + s;
      calc {
        ReplaceAll(t, pat, rep);
        [t[0]] + ReplaceAll(t[1..], pat, rep);
        [pre[0]] + (pre[1..] + ReplaceAll(s, pat, rep));
        pre + ReplaceAll(s, pat, rep);
      }
    } else {
      assert pre + s == s;
    }
  }

  /** `pat` occurring once, after a prefix without its first character and
      before a tail that does not contain it, is the one occurrence replaced. */
  lemma ReplaceOnce(pre: string, pat: string, rest: string, rep: string)
    requires pat != [] && !Contains(rest, pat)
    requires pat[0] !in pre
    ensures ReplaceAll(pre + pat + rest, pat, rep) == pre + rep + rest
  {
    ReplaceAtStart(pat, rest, rep);
    ReplaceAfterPrefix(pre, pat + rest, pat, rep);
    Assoc(pre, pat, rest);
    Assoc(pre, rep, rest);
  }

  /** A pattern at the very end, after a prefix without its first
      character, is the one occurrence replaced. */
  lemma ReplaceAtEnd(pre: string, pat: string, rep: string)
    requires pat != [] && pat[0] !in pre
    ensures ReplaceAll(pre + pat, pat, rep) == pre + rep
  {
    ContainsShorter([], pat);
    ReplaceOnce(pre, pat, [], rep);
    assert pre + pat + [] == pre + pat;
    assert pre + rep + [] == pre + rep;
  }

  lemma Assoc(a: string, b: string, c: string)
    ensures a + b + c == a + (b + c)
  {
  }

  lemma ReplaceAtStart(pat: string, rest: string, rep: string)
    requires pat != [] && !Contains(rest, pat)
    ensures ReplaceAll(pat + rest, pat, rep) == rep + rest
  {
    var t := pat + rest;
    assert StartsWith(t, pat) by { assert t[..|pat|] == pat; }
    assert t[|pat|..] == rest;
    ReplaceAbsent(rest, pat, rep);
  }

  predicate Occurs(s: string, sub: string, i: int) {
    0 <= i && i + |sub| <= |s| && s[i..i + |sub|] == sub
  }

  /** `Contains` is "occurs at some index". */
  lemma {:induction false} ContainsAt(s: string, sub: string)
    ensures Contains(s, sub) <==> exists i :: Occurs(s, sub, i)
    decreases |s|
  {
    if StartsWith(s, sub) {
      assert Occurs(s, sub, 0);
    } else if s != [] {
      ContainsAt(s[1..], sub);
      if Contains(s[1..], sub) {
        var i :| Occurs(s[1..], sub, i);
        assert s[1..][i..i + |sub|] == s[i + 1..i + 1 + |sub|];
        assert Occurs(s, sub, i + 1);
      }
      forall i | Occurs(s, sub, i) ensures Contains(s[1..], sub) {
        assert i != 0;
        assert s[1..][i - 1..i - 1 + |sub|] == s[i..i + |sub|];
        assert Occurs(s[1..], sub, i - 1);
      }
    }
  }

  /** Python's `str.isspace` for ASCII characters: the blank, `\t` to `\r`,
      and the separators `\x1c` to `\x1f`. */
  predicate IsSpace(c: char) {
    c == ' ' || ('\t' <= c <= '\r') || ('\U{001C}' <= c <= '\U{001F}')
  }

  /** `s.rstrip()` */
  function RStrip(s: string): string {
    if s != [] && IsSpace(s[|s| - 1]) then RStrip(s[..|s| - 1]) else s
  }

  /** `rstrip` keeps a prefix, ends on a non-blank and drops only blanks. */
  lemma {:induction false} RStripFacts(s: string)
    ensures var r := RStrip(s);
            && |r| <= |s| && r == s[..|r|]
            && (r == [] || !IsSpace(r[|r| - 1]))
            && forall i :: |r| <= i < |s| ==> IsSpace(s[i])
    decreases |s|
  {
    if s != [] && IsSpace(s[|s| - 1]) {
      var init := s[..|s| - 1];
      RStripFacts(init);
      var r := RStrip(init);
      assert s[..|r|] == init[..|r|];
      assert forall i :: |r| <= i < |init| ==> init[i] == s[i];
    }
  }

  /** Stripping the right of `a + b` only reaches into `b` while `b`
      has a non-blank. */
  lemma {:induction false} RStripAppend(a: string, b: string)
    requires RStrip(b) != []
    ensures RStrip(a + b) == a + RStrip(b)
    decreases |b|
  {
    var n := |b| - 1;
    assert (a + b)[|a + b| - 1] == b[n];
    if IsSpace(b[n]) {
      assert (a + b)[..|a + b| - 1] == a + b[..n];
      RStripAppend(a, b[..n]);
    }
  }

  /** Trailing blanks are stripped away entirely. */
  lemma {:induction false} RStripBlanks(a: string, t: string)
    requires forall i :: 0 <= i < |t| ==> IsSpace(t[i])
    ensures RStrip(a + t) == RStrip(a)
    decreases |t|
  {
    if t != [] {
      var n := |t| - 1;
      assert (a + t)[|a + t| - 1] == t[n];
      assert (a + t)[..|a + t| - 1] == a + t[..n];
      RStripBlanks(a, t[..n]);
    } else {
      assert a + t == a;
    }
  }

  /** `s.lstrip()` */
  function LStrip(s: string): string {
    if s != [] && IsSpace(s[0]) then LStrip(s[1..]) else s
  }

  /** `lstrip` keeps a suffix that starts on a non-blank. */
  lemma {:induction false} LStripFacts(s: string)
    ensures var r := LStrip(s);
            && |r| <= |s| && r == s[|s| - |r|..]
            && (r == [] || !IsSpace(r[0]))
    decreases |s|
  {
    if s != [] && IsSpace(s[0]) {
      LStripFacts(s[1..]);
      var r := LStrip(s[1..]);
      assert s[1..][|s| - 1 - |r|..] == s[|s| - |r|..];
    }
  }

  /** `s.strip()` */
  function Strip(s: string): string {
    LStrip(RStrip(s))
  }

  /** `c * n`, the character repeated (a negative count gives ""). */
  function Repeat(c: char, n: int): (r: string)
    ensures |r| == if n < 0 then 0 else n
    ensures forall i :: 0 <= i < |r| ==> r[i] == c
  {
    if n <= 0 then [] else [c] + Repeat(c, n - 1)
  }

  /** `s + " " * (width - len(s))` */
  function PadRight(s: string, width: int): string {
    s + Repeat(' ', width - |s|)
  }

  /** `sep.join(parts)` */
  function Join(sep: string, parts: seq<string>): string {
    if parts == [] then []
    else if |parts| == 1 then parts[0]
    else parts[0] + sep + Join(sep, parts[1..])
  }

  /** `s.split(sep)` for a one-character separator: always at least one
      piece, the pieces hold no separator, and joining them back with the
      separator gives `s`. */
  function Split(s: string, sep: char): (r: seq<string>)
    ensures |r| >= 1
    decreases |s|
  {
    if s == [] then [[]]
    else
      var rest := Split(s[1..], sep);
      if s[0] == sep then [[]] + rest else [[s[0]] + rest[0]] + rest[1..]
  }

  lemma {:induction false} SplitJoin(s: string, sep: char)
    ensures Join([sep], Split(s, sep)) == s
    ensures forall k :: 0 <= k < |Split(s, sep)| ==> sep !in Split(s, sep)[k]
    decreases |s|
  {
    if s != [] {
      SplitJoin(s[1..], sep);
      var rest := Split(s[1..], sep);
      if s[0] != sep {
        if |rest| == 1 {
          assert Split(s, sep) == [[s[0]] + rest[0]];
        } else {
          assert Split(s, sep)[1..] == rest[1..];
        }
      }
    }
  }

  /** A string without the separator is one piece. */
  lemma {:induction false} SplitFree(s: string, sep: char)
    requires sep !in s
    ensures Split(s, sep) == [s]
    decreases |s|
  {
    if s != [] {
      assert s[0] in s;
      assert forall c :: c in s[1..] ==> c in s;
      SplitFree(s[1..], sep);
      assert [s[0]] + s[1..] == s;
    }
  }

  /** Splitting at one separator splits the two sides apart. */
  lemma {:induction false} SplitAppend(x: string, y: string, sep: char)
    ensures Split(x + [sep] + y, sep) == Split(x, sep) + Split(y, sep)
    decreases |x|
  {
    if x == [] {
      assert x + [sep] + y == [sep] + y;
      assert ([sep] + y)[1..] == y;
    } else {
      var s := x + [sep] + y;
      assert s[0] == x[0];
      assert s[1..] == x[1..] + [sep] + y;
      SplitAppend(x[1..], y, sep);
    }
  }

  /** The converse of `SplitJoin`: joining pieces free of the separator
      and splitting again gives the pieces back. */
  lemma {:induction false} JoinSplit(parts: seq<string>, sep: char)
    requires parts != []
    requires forall k :: 0 <= k < |parts| ==> sep !in parts[k]
    ensures Split(Join([sep], parts), sep) == parts
    decreases |parts|
  {
    if |parts| == 1 {
      SplitFree(parts[0], sep);
    } else {
      var rest := parts[1..];
      forall k | 0 <= k < |rest|
        ensures sep !in rest[k]
      {
        assert rest[k] == parts[k + 1];
      }
      JoinSplit(rest, sep);
      SplitFree(parts[0], sep);
      assert Join([sep], parts) == parts[0] + [sep] + Join([sep], rest);
      SplitAppend(parts[0], Join([sep], rest), sep);
      assert [parts[0]] + rest == parts;
    }
  }

  /** A character in neither the separator nor any part is not in the
      joined string. */
  lemma {:induction false} JoinAvoids(sep: string, parts: seq<string>, c: char)
    requires c !in sep
    requires forall k :: 0 <= k < |parts| ==> c !in parts[k]
    ensures c !in Join(sep, parts)
    decreases |parts|
  {
    if |parts| > 1 {
      JoinAvoids(sep, parts[1..], c);
    }
  }

  /** `s.partition(sep)` for a one-character separator, as
      (before, found, after). */
  function Partition(s: string, sep: char): (r: (string, bool, string))
    ensures !r.1 ==> r.0 == s && r.2 == [] && sep !in s
    ensures r.1 ==> s == r.0 + [sep] + r.2 && sep !in r.0
    decreases |s|
  {
    if s == [] then ([], false, [])
    else if s[0] == sep then ([], true, s[1..])
    else
      var (b, f, a) := Partition(s[1..], sep);
      ([s[0]] + b, f, a)
  }

  /** A separator that the first part lacks is where `partition` cuts. */
  lemma {:induction false} PartitionFirst(a: string, b: string, sep: char)
    requires sep !in a
    ensures Partition(a + [sep] + b, sep) == (a, true, b)
    decreases |a|
  {
    var s := a + [sep] + b;
    if a == [] {
      assert s == [sep] + b;
    } else {
      assert s[0] == a[0] && a[0] != sep;
      assert s[1..] == a[1..] + [sep] + b;
      assert forall c :: c in a[1..] ==> c in a;
      PartitionFirst(a[1..], b, sep);
      assert [a[0]] + a[1..] == a;
    }
  }

  predicate IsDigit(c: char) {
    '0' <= c <= '9'
  }

  /** `s.isnumeric()` for ASCII text: non-empty, all digits. */
  predicate IsNumeric(s: string) {
    |s| > 0 && forall i :: 0 <= i < |s| ==> IsDigit(s[i])
  }

  /** `re.sub(r"\D", "", s)`: the digits of `s`, in order. */
  function DigitsOf(s: string): (r: string)
    ensures forall i :: 0 <= i < |r| ==> IsDigit(r[i])
    ensures |r| <= |s|
  {
    if s == [] then []
    else if IsDigit(s[0]) then [s[0]] + DigitsOf(s[1..])
    else DigitsOf(s[1..])
  }

  function DigitValue(c: char): nat
    requires IsDigit(c)
  {
    (c as int - '0' as int) as nat
  }

  function DigitChar(d: nat): char
    requires d < 10
  {
    ('0' as int + d) as char
  }

  /** The value of a string of decimal digits (leading zeros allowed). */
  function DecimalValue(s: string): nat
    requires forall i :: 0 <= i < |s| ==> IsDigit(s[i])
  {
    if s == [] then 0 else DecimalValue(s[..|s| - 1]) * 10 + DigitValue(s[|s| - 1])
  }

  /** `str(n)` for a natural number: shortest decimal text. */
  function NatToString(n: nat): (r: string)
    ensures |r| >= 1
    ensures forall i :: 0 <= i < |r| ==> IsDigit(r[i])
  {
    if n < 10 then [DigitChar(n)] else NatToString(n / 10) + [DigitChar(n % 10)]
  }

  lemma {:induction false} DecimalRoundTrip(n: nat)
    ensures DecimalValue(NatToString(n)) == n
  {
    if n >= 10 {
      DecimalRoundTrip(n / 10);
      var s := NatToString(n);
      assert s[..|s| - 1] == NatToString(n / 10);
    }
  }

  function Pow10(k: nat): nat {
    if k == 0 then 1 else 10 * Pow10(k - 1)
  }

  /** The value of two digit strings side by side. */
  lemma {:induction false} DecimalAppend(a: string, b: string)
    requires forall i :: 0 <= i < |a| ==> IsDigit(a[i])
    requires forall i :: 0 <= i < |b| ==> IsDigit(b[i])
    ensures DecimalValue(a + b) == DecimalValue(a) * Pow10(|b|) + DecimalValue(b)
    decreases |b|
  {
    if b == [] {
      assert a + b == a;
    } else {
      var n := |b| - 1;
      var init := b[..n];
      assert (a + b)[..|a + b| - 1] == a + init;
      assert (a + b)[|a + b| - 1] == b[n];
      DecimalAppend(a, init);
      var d := DigitValue(b[n]);
      assert DecimalValue(a + b) == DecimalValue(a + init) * 10 + d;
      assert DecimalValue(b) == DecimalValue(init) * 10 + d;
      assert Pow10(|b|) == Pow10(n) * 10;
      ShiftDigit(DecimalValue(a), Pow10(n), DecimalValue(init), d);
    }
  }

  /** One more digit after a shifted prefix. */
  lemma ShiftDigit(x: int, p: int, y: int, d: int)
    ensures (x * p + y) * 10 + d == x * (p * 10) + (y * 10 + d)
  {
  }

  /** Leading zeros do not change the value. */
  lemma {:induction false} DecimalZeros(k: nat)
    ensures DecimalValue(Repeat('0', k)) == 0
    decreases k
  {
    if k > 0 {
      var z := Repeat('0', k);
      assert z[..k - 1] == Repeat('0', k - 1);
      DecimalZeros(k - 1);
    }
  }

  /** A number below `10^k` has at most `k` digits. */
  lemma {:induction false} NatToStringShort(n: nat, k: nat)
    requires k >= 1 && n < Pow10(k)
    ensures |NatToString(n)| <= k
    decreases k
  {
    if n >= 10 {
      assert Pow10(k) == 10 * Pow10(k - 1);
      if k == 1 {
        assert false;
      }
      NatToStringShort(n / 10, k - 1);
    }
  }

  /** The digits of a concatenation, and of a string of digits. */
  lemma {:induction false} DigitsOfAppend(a: string, b: string)
    ensures DigitsOf(a + b) == DigitsOf(a) + DigitsOf(b)
    decreases |a|
  {
    if a != [] {
      assert (a + b)[0] == a[0] && (a + b)[1..] == a[1..] + b;
      DigitsOfAppend(a[1..], b);
    } else {
      assert a + b == b;
    }
  }

  lemma {:induction false} DigitsOfDigits(s: string)
    requires forall i :: 0 <= i < |s| ==> IsDigit(s[i])
    ensures DigitsOf(s) == s
    decreases |s|
  {
    if s != [] {
      DigitsOfDigits(s[1..]);
      assert [s[0]] + s[1..] == s;
    }
  }

  /** `c.upper()` for an ASCII letter; other characters are kept. */
  function UpperChar(c: char): char {
    if 'a' <= c <= 'z' then (c as int - 32) as char else c
  }

  /** `s.upper()`, ASCII letters only. */
  function Upper(s: string): (r: string)
    ensures |r| == |s| && forall i :: 0 <= i < |s| ==> r[i] == UpperChar(s[i])
  {
    seq(|s|, i requires 0 <= i < |s| => UpperChar(s[i]))
  }

  /** `str(i)` for any integer. */
  function IntToString(i: int): string {
    if i < 0 then "-" + NatToString(-i) else NatToString(i)
  }

  /** `int(s)` for decimal text: an optional sign and at least one digit
      (surrounding whitespace and `_` separators are not modelled). */
  function ParseInt(s: string): (r: Result<int>)
  {
    if s != [] && (s[0] == '-' || s[0] == '+') then
      if IsNumeric(s[1..]) then
        Ok(if s[0] == '-' then -(DecimalValue(s[1..]) as int) else DecimalValue(s[1..]))
      else Err(ValueError)
    else if IsNumeric(s) then Ok(DecimalValue(s))
    else Err(ValueError)
  }

  lemma ParseIntToString(i: int)
    ensures ParseInt(IntToString(i)) == Ok(i)
  {
    if i < 0 {
      var t := NatToString(-i);
      DecimalRoundTrip(-i);
      assert IntToString(i)[0] == '-' && IntToString(i)[1..] == t;
      assert IsNumeric(t);
    } else {
      var t := NatToString(i);
      DecimalRoundTrip(i);
      assert IsDigit(t[0]) && IsNumeric(t);
    }
  }

  predicate IsHexDigit(c: char) {
    IsDigit(c) || 'a' <= c <= 'f' || 'A' <= c <= 'F'
  }

  function HexDigitValue(c: char): nat
    requires IsHexDigit(c)
    ensures HexDigitValue(c) < 16
  {
    if IsDigit(c) then DigitValue(c)
    else if 'a' <= c <= 'f' then (c as int - 'a' as int + 10) as nat
    else (c as int - 'A' as int + 10) as nat
  }

  /** The upper-case hexadecimal digit of `d`. */
  function HexChar(d: nat): (c: char)
    requires d < 16
    ensures IsHexDigit(c) && HexDigitValue(c) == d
  {
    if d < 10 then DigitChar(d) else ('A' as int + d - 10) as char
  }

  predicate AllHex(s: string) {
    forall i :: 0 <= i < |s| ==> IsHexDigit(s[i])
  }

  function HexValue(s: string): nat
    requires AllHex(s)
  {
    if s == [] then 0 else HexValue(s[..|s| - 1]) * 16 + HexDigitValue(s[|s| - 1])
  }

  /** `"%X" % n`: shortest upper-case hexadecimal text of `n`. */
  function HexUpper(n: nat): (r: string)
    ensures |r| >= 1 && AllHex(r)
    ensures forall i :: 0 <= i < |r| ==> !('a' <= r[i] <= 'f')
  {
    if n < 16 then [HexChar(n)] else HexUpper(n / 16) + [HexChar(n % 16)]
  }

  /** The number of digits of `hex(n)` after its "0x" prefix. */
  function HexWidth(n: nat): (w: nat)
    ensures w >= 1
  {
    if n < 16 then 1 else HexWidth(n / 16) + 1
  }

  lemma {:induction false} HexUpperWidth(n: nat)
    ensures |HexUpper(n)| == HexWidth(n)
  {
    if n >= 16 {
      HexUpperWidth(n / 16);
    }
  }

  lemma {:induction false} HexRoundTrip(n: nat)
    ensures HexValue(HexUpper(n)) == n
  {
    if n >= 16 {
      HexRoundTrip(n / 16);
      var s := HexUpper(n);
      assert s[..|s| - 1] == HexUpper(n / 16);
    }
  }

  /** `"%0{w}X" % n`: `HexUpper(n)` left-padded with zeros to `w` digits. */
  function ZeroPad(s: string, width: int): (r: string)
    ensures |r| == if width > |s| then width else |s|
    ensures r[|r| - |s|..] == s
  {
    Repeat('0', width - |s|) + s
  }

  lemma {:induction false} HexValueLeadingZeros(z: string, s: string)
    requires forall i :: 0 <= i < |z| ==> z[i] == '0'
    requires AllHex(s)
    ensures AllHex(z + s) && HexValue(z + s) == HexValue(s)
    decreases |s|
  {
    if s == [] {
      assert z + s == z;
      AllZerosValue(z);
    } else {
      var t := z + s;
      assert t[..|t| - 1] == z + s[..|s| - 1];
      HexValueLeadingZeros(z, s[..|s| - 1]);
    }
  }

  lemma {:induction false} AllZerosValue(z: string)
    requires forall i :: 0 <= i < |z| ==> z[i] == '0'
    ensures AllHex(z) && HexValue(z) == 0
  {
    if z != [] {
      AllZerosValue(z[..|z| - 1]);
    }
  }

  /** `int(s, 16)`: an optional "0x"/"0X" prefix and at least one hex digit
      (sign, whitespace and `_` separators are not modelled). */
  function ParseHex(s: string): (r: Result<nat>)
  {
    var digits := if |s| >= 2 && s[0] == '0' && (s[1] == 'x' || s[1] == 'X') then s[2..] else s;
    if digits != [] && AllHex(digits) then Ok(HexValue(digits)) else Err(ValueError)
  }
}
