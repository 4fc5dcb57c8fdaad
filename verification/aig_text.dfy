/** The Python string built-ins the AIGER decoder (verification/aig.py)
    relies on: `str.strip`, `str.split` without arguments,
    `str.partition(' ')` and `int` on a decimal string. White space is the
    ASCII part of what `str.isspace` accepts; `int` skips a narrower set
    around a number. */
module AigText {
  import opened Wrappers

  /** The ASCII characters `str.isspace` accepts. */
  predicate IsWs(c: char)
  {
    c == ' ' || c == '\t' || c == '\n' || c == '\r' || c == '\U{000B}' || c == '\U{000C}'
    || ('\U{001C}' <= c <= '\U{001F}')
  }

  /** The ASCII white space `int` skips around a number: space, `\t`,
      `\n`, `\v`, `\f` and `\r`. Unlike `str.isspace`, it leaves out the
      separators `\x1c`-`\x1f`. */
  predicate IsIntSpace(c: char)
  {
    c == ' ' || c == '\t' || c == '\n' || c == '\r' || c == '\U{000B}' || c == '\U{000C}'
  }

  predicate AllIntSpace(s: string)
  {
    forall k :: 0 <= k < |s| ==> IsIntSpace(s[k])
  }

  predicate IsDigit(c: char)
  {
    '0' <= c <= '9'
  }

  predicate AllWs(s: string)
  {
    forall k :: 0 <= k < |s| ==> IsWs(s[k])
  }

  predicate NoWs(s: string)
  {
    forall k :: 0 <= k < |s| ==> !IsWs(s[k])
  }

  /** The first offset at or after `i` that holds no white space. */
  function SkipWs(s: string, i: nat): (j: nat)
    requires i <= |s|
    ensures i <= j <= |s|
    ensures forall k :: i <= k < j ==> IsWs(s[k])
    ensures j < |s| ==> !IsWs(s[j])
    decreases |s| - i
  {
    if i == |s| || !IsWs(s[i]) then i else SkipWs(s, i + 1)
  }

  /** The first offset at or after `i` that holds white space. */
  function SkipWord(s: string, i: nat): (j: nat)
    requires i <= |s|
    ensures i <= j <= |s|
    ensures forall k :: i <= k < j ==> !IsWs(s[k])
    ensures j < |s| ==> IsWs(s[j])
    decreases |s| - i
  {
    if i == |s| || IsWs(s[i]) then i else SkipWord(s, i + 1)
  }

  /** The offset after the last character before `j` that is not white
      space. */
  function BackWs(s: string, j: nat): (i: nat)
    requires j <= |s|
    ensures i <= j
    ensures forall k :: i <= k < j ==> IsWs(s[k])
    ensures i > 0 ==> !IsWs(s[i - 1])
    decreases j
  {
    if j == 0 || !IsWs(s[j - 1]) then j else BackWs(s, j - 1)
  }

  /** `str.strip()`: the text without white space at either end. */
  function Strip(s: string): (r: string)
    ensures |r| > 0 ==> !IsWs(r[0]) && !IsWs(r[|r| - 1])
  {
    var a := SkipWs(s, 0);
    var b := BackWs(s, |s|);
    if a <= b then s[a..b] else ""
  }

  /** Padding with white space does not change what `strip` returns, and
      text that neither starts nor ends with white space is its own
      stripped form. */
  lemma StripPadding(lead: string, t: string, trail: string)
    requires AllWs(lead) && AllWs(trail)
    requires |t| > 0 ==> !IsWs(t[0]) && !IsWs(t[|t| - 1])
    ensures Strip(lead + t + trail) == t
  {
    var s := lead + t + trail;
    var a := SkipWs(s, 0);
    var b := BackWs(s, |s|);
    if |t| == 0 {
      assert AllWs(s) by {
        forall k | 0 <= k < |s| ensures IsWs(s[k]) {
          if k < |lead| { assert s[k] == lead[k]; } else { assert s[k] == trail[k - |lead|]; }
        }
      }
      assert a == |s|;
      if a <= b {
        assert b == |s|;
        assert s[a..b] == "";
      }
    } else {
      assert s[|lead|] == t[0];
      assert s[|lead| + |t| - 1] == t[|t| - 1];
      assert a == |lead| by {
        assert forall k :: 0 <= k < |lead| ==> s[k] == lead[k];
      }
      assert b == |lead| + |t| by {
        assert forall k :: |lead| + |t| <= k < |s| ==> s[k] == trail[k - |lead| - |t|];
      }
      assert s[a..b] == t;
    }
  }

  /** `strip` is idempotent. */
  lemma StripIdempotent(s: string)
    ensures Strip(Strip(s)) == Strip(s)
  {
    StripPadding("", Strip(s), "");
    assert "" + Strip(s) + "" == Strip(s);
  }

  /** `str.split()`: the maximal runs of characters other than white
      space, in order. */
  function Split(s: string): (fs: seq<string>)
    ensures forall f :: f in fs ==> |f| > 0 && NoWs(f)
    decreases |s|
  {
    if |s| == 0 then []
    else if IsWs(s[0]) then Split(s[1..])
    else
      var b := SkipWord(s, 0);
      [s[..b]] + Split(s[b..])
  }

  /** Fields joined by single spaces. */
  function Join(fs: seq<string>): string
  {
    if |fs| == 0 then "" else if |fs| == 1 then fs[0] else fs[0] + " " + Join(fs[1..])
  }

  /** Splitting undoes joining with single spaces, for fields that are not
      empty and hold no white space. */
  lemma {:induction false} SplitJoin(fs: seq<string>)
    requires forall f :: f in fs ==> |f| > 0 && NoWs(f)
    ensures Split(Join(fs)) == fs
    decreases |fs|
  {
    if |fs| > 0 {
      var f := fs[0];
      assert f in fs;
      var s := Join(fs);
      var tail := if |fs| == 1 then "" else " " + Join(fs[1..]);
      assert s == f + tail;
      SplitField(f, tail);
      if |fs| > 1 {
        SplitJoin(fs[1..]);
        assert tail[1..] == Join(fs[1..]);
      }
    }
  }

  /** A field followed by nothing or by white space is split off first. */
  lemma SplitField(f: string, tail: string)
    requires |f| > 0 && NoWs(f)
    requires |tail| > 0 ==> IsWs(tail[0])
    ensures Split(f + tail) == [f] + Split(tail)
  {
    var s := f + tail;
    assert s[0] == f[0];
    SkipWordOver(s, 0, |f|);
    assert s[..|f|] == f;
    assert s[|f|..] == tail;
  }

  /** Over white space `SkipWs` runs to the first other character. */
  lemma SkipWsOver(s: string, i: nat, j: nat)
    requires i <= j <= |s|
    requires forall k :: i <= k < j ==> IsWs(s[k])
    requires j < |s| ==> !IsWs(s[j])
    ensures SkipWs(s, i) == j
  {
  }

  /** Over other characters `SkipWord` runs to the first white space. */
  lemma SkipWordOver(s: string, i: nat, j: nat)
    requires i <= j <= |s|
    requires forall k :: i <= k < j ==> !IsWs(s[k])
    requires j < |s| ==> IsWs(s[j])
    ensures SkipWord(s, i) == j
  {
  }

  /** `str.partition(' ')`: the text before the first space, whether there
      was one, and the text after it. */
  function Partition(s: string): (r: (string, bool, string))
    ensures r.1 ==> s == r.0 + " " + r.2
    ensures !r.1 ==> r.0 == s && r.2 == ""
    ensures ' ' !in r.0
  {
    if |s| == 0 then ("", false, "")
    else if s[0] == ' ' then ("", true, s[1..])
    else
      var r := Partition(s[1..]);
      assert s == [s[0]] + s[1..];
      ([s[0]] + r.0, r.1, r.2)
  }

  /** The value of a non-empty run of decimal digits. */
  function DigitsValue(ds: string): nat
    requires forall k :: 0 <= k < |ds| ==> IsDigit(ds[k])
  {
    if |ds| == 0 then 0
    else DigitsValue(ds[..|ds| - 1]) * 10 + DigitOf(ds[|ds| - 1])
  }

  function DigitOf(c: char): nat
    requires IsDigit(c)
  {
    c as int - '0' as int
  }

  predicate IsDigits(ds: string)
  {
    |ds| > 0 && forall k :: 0 <= k < |ds| ==> IsDigit(ds[k])
  }

  /** The text without the white space `int` skips at its start. */
  function DropLead(s: string): (r: string)
    ensures |r| <= |s| && r == s[|s| - |r|..]
    ensures |r| > 0 ==> !IsIntSpace(r[0])
    ensures AllIntSpace(s[..|s| - |r|])
    decreases |s|
  {
    if |s| > 0 && IsIntSpace(s[0]) then
      var r := DropLead(s[1..]);
      assert s[..|s| - |r|] == [s[0]] + s[1..][..|s| - 1 - |r|];
      r
    else s
  }

  /** The text without the white space `int` skips at its end. */
  function DropTrail(s: string): (r: string)
    ensures |r| <= |s| && r == s[..|r|]
    ensures |r| > 0 ==> !IsIntSpace(r[|r| - 1])
    ensures AllIntSpace(s[|r|..])
    decreases |s|
  {
    if |s| > 0 && IsIntSpace(s[|s| - 1]) then
      var r := DropTrail(s[..|s| - 1]);
      assert s[|r|..] == s[..|s| - 1][|r|..] + [s[|s| - 1]];
      r
    else s
  }

  /** The text `int` reads digits from: its argument without the white
      space `int` skips at either end. */
  function TrimInt(s: string): (r: string)
    ensures |r| > 0 ==> !IsIntSpace(r[0]) && !IsIntSpace(r[|r| - 1])
  {
    DropTrail(DropLead(s))
  }

  /** `int(s)` for base ten: `int` white space around an optional sign and a
      run of ASCII digits; anything else raises `ValueError`, here `None`.
      A value read is never blank: the trimmed text ends in a digit. */
  function ParseInt(s: string): (r: Option<int>)
    ensures r.Some? ==> |TrimInt(s)| > 0 && IsDigit(TrimInt(s)[|TrimInt(s)| - 1])
    ensures r.Some? && r.value < 0 ==> TrimInt(s)[0] == '-'
  {
    var t := TrimInt(s);
    if |t| > 0 && (t[0] == '-' || t[0] == '+') then
      if IsDigits(t[1..]) then
        var v: int := DigitsValue(t[1..]);
        assert t[1..][|t| - 2] == t[|t| - 1];
        Some(if t[0] == '-' then -v else v)
      else None
    else if IsDigits(t) then Some(DigitsValue(t))
    else None
  }

  /** The decimal digits of a natural number. */
  function Decimal(n: nat): (ds: string)
    ensures IsDigits(ds)
  {
    if n < 10 then [('0' as int + n) as char]
    else Decimal(n / 10) + [('0' as int + n % 10) as char]
  }

  lemma {:induction false} DecimalValue(n: nat)
    ensures DigitsValue(Decimal(n)) == n
  {
    var ds := Decimal(n);
    if n >= 10 {
      assert ds[..|ds| - 1] == Decimal(n / 10);
      DecimalValue(n / 10);
    } else {
      assert ds[..0] == "";
    }
  }

  /** `int` of text that trims to digits. */
  lemma ParsePositive(s: string)
    requires IsDigits(TrimInt(s))
    ensures ParseInt(s) == Some(DigitsValue(TrimInt(s)))
  {
  }

  /** `int` of text that trims to a minus sign and digits. */
  lemma ParseNegative(s: string)
    requires |TrimInt(s)| > 0 && TrimInt(s)[0] == '-' && IsDigits(TrimInt(s)[1..])
    ensures ParseInt(s) == Some(-(DigitsValue(TrimInt(s)[1..]) as int))
  {
  }

  /** Leading `int` white space is skipped up to the first other
      character. */
  lemma {:induction false} DropLeadPadding(lead: string, x: string)
    requires AllIntSpace(lead) && (|x| > 0 ==> !IsIntSpace(x[0]))
    ensures DropLead(lead + x) == x
    decreases |lead|
  {
    if |lead| > 0 {
      assert (lead + x)[1..] == lead[1..] + x;
      DropLeadPadding(lead[1..], x);
    } else {
      assert lead + x == x;
    }
  }

  /** Trailing `int` white space is dropped back to the last other
      character. */
  lemma {:induction false} DropTrailPadding(x: string, trail: string)
    requires AllIntSpace(trail) && (|x| > 0 ==> !IsIntSpace(x[|x| - 1]))
    ensures DropTrail(x + trail) == x
    decreases |trail|
  {
    if |trail| > 0 {
      var t' := trail[..|trail| - 1];
      assert (x + trail)[..|x + trail| - 1] == x + t';
      DropTrailPadding(x, t');
    } else {
      assert x + trail == x;
    }
  }

  /** Padding with `int` white space does not change the text `int`
      reads. */
  lemma TrimIntPadding(lead: string, t: string, trail: string)
    requires AllIntSpace(lead) && AllIntSpace(trail)
    requires |t| > 0 && !IsIntSpace(t[0]) && !IsIntSpace(t[|t| - 1])
    ensures TrimInt(lead + t + trail) == t
  {
    assert lead + t + trail == lead + (t + trail);
    DropLeadPadding(lead, t + trail);
    DropTrailPadding(t, trail);
  }

  /** `int` reads back what `str` prints for an integer, padded with the
      white space `int` skips or not. */
  lemma ParseDecimal(n: int, lead: string, trail: string)
    requires AllIntSpace(lead) && AllIntSpace(trail)
    ensures n >= 0 ==> ParseInt(lead + Decimal(n) + trail) == Some(n)
    ensures n < 0 ==> ParseInt(lead + "-" + Decimal(-n) + trail) == Some(n)
  {
    if n >= 0 {
      PositivePadded(n, lead, trail);
    } else {
      NegativePadded(-n, lead, trail);
    }
  }

  lemma PositivePadded(n: nat, lead: string, trail: string)
    requires AllIntSpace(lead) && AllIntSpace(trail)
    ensures ParseInt(lead + Decimal(n) + trail) == Some(n)
  {
    var ds := Decimal(n);
    assert IsDigit(ds[0]) && IsDigit(ds[|ds| - 1]);
    TrimIntPadding(lead, ds, trail);
    DecimalValue(n);
    ParsePositive(lead + ds + trail);
  }

  lemma NegativePadded(n: nat, lead: string, trail: string)
    requires AllIntSpace(lead) && AllIntSpace(trail)
    ensures ParseInt(lead + "-" + Decimal(n) + trail) == Some(-(n as int))
  {
    var digits := Decimal(n);
    var ds := "-" + digits;
    var x := lead + ds + trail;
    assert lead + "-" + digits + trail == x;
    assert ds[0] == '-' && ds[1..] == digits;
    assert !IsIntSpace(ds[|ds| - 1]) by {
      assert ds[|ds| - 1] == digits[|digits| - 1];
      assert IsDigit(digits[|digits| - 1]);
    }
    TrimIntPadding(lead, ds, trail);
    DecimalValue(n);
    ParseNegative(x);
  }

  /** The separators `\x1c`-`\x1f` are white space to `strip` but not to
      `int`: `"0\x1c".strip()` is `"0"`, while `int("0\x1c")` raises. */
  lemma SeparatorIsNoIntSpace()
    ensures Strip("0\U{001C}") == "0"
    ensures ParseInt("0\U{001C}") == None
  {
    var s := "0\U{001C}";
    assert !IsIntSpace(s[1]) && !IsIntSpace(s[0]);
    assert DropLead(s) == s;
    assert DropTrail(s) == s;
    assert !IsDigits(s) by { assert !IsDigit(s[1]); }
    StripPadding("", "0", "\U{001C}");
    assert "" + "0" + "\U{001C}" == s;
  }
}
