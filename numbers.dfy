/** `int.TryParse(s, CultureInfo.InvariantCulture, out v)` with the default
    `NumberStyles.Integer`: optional surrounding white space, an optional sign,
    one or more decimal digits, and a value that fits 32 bits. */
module Numbers {
  import opened Types

  /** The white space `NumberStyles.AllowLeadingWhite`/`AllowTrailingWhite` accept. */
  predicate IsNumberWhite(c: char) {
    c == ' ' || (0x09 <= c as int <= 0x0D)
  }

  predicate IsDigit(c: char) {
    '0' <= c <= '9'
  }

  predicate AllDigits(s: string) {
    forall i :: 0 <= i < |s| ==> IsDigit(s[i])
  }

  function StripNumberWhite(s: string): (r: string)
    ensures |r| <= |s|
    ensures forall i :: 0 <= i < |r| ==> r[i] in s
    decreases |s|
  {
    if s != [] && IsNumberWhite(s[0]) then StripNumberWhite(s[1..])
    else if s != [] && IsNumberWhite(s[|s| - 1]) then StripNumberWhite(s[..|s| - 1])
    else s
  }

  /** The value of a string of decimal digits, most significant first. */
  function DigitsValue(d: string): (v: nat)
    requires AllDigits(d)
  {
    if d == [] then 0
    else DigitsValue(d[..|d| - 1]) * 10 + (d[|d| - 1] as int - '0' as int)
  }

  function TryParseInt32(s: string): Option<int32> {
    ParseStripped(StripNumberWhite(s))
  }

  /** The sign-and-digits part of `TryParseInt32`, after the padding is gone. */
  function ParseStripped(t: string): Option<int32> {
    if t == [] then None
    else
      var negative := t[0] == '-';
      var body := if t[0] == '-' || t[0] == '+' then t[1..] else t;
      if body == [] || !AllDigits(body) then None
      else
        var magnitude: int := DigitsValue(body);
        var v := if negative then -magnitude else magnitude;
        if MinInt32 <= v <= MaxInt32 then Some(v as int32) else None
  }

  /** The decimal digits of `n`, without leading zeros. */
  function NatDigits(n: nat): (d: string)
    ensures d != [] && AllDigits(d)
    ensures d[0] != '0' || n == 0
  {
    if n < 10 then [('0' as int + n) as char]
    else NatDigits(n / 10) + [('0' as int + n % 10) as char]
  }

  /** `int.ToString(CultureInfo.InvariantCulture)`. */
  function FormatInt32(n: int32): (s: string)
    ensures s != []
  {
    if n < 0 then "-" + NatDigits(-(n as int)) else NatDigits(n as int)
  }

  lemma {:induction false} NatDigitsValue(n: nat)
    ensures DigitsValue(NatDigits(n)) == n
  {
    if n >= 10 {
      NatDigitsValue(n / 10);
      var d := NatDigits(n);
      assert d[..|d| - 1] == NatDigits(n / 10);
    }
  }

  /** Parsing what the formatter printed gives back the same integer. */
  lemma ParseFormatRoundTrip(n: int32)
    ensures TryParseInt32(FormatInt32(n)) == Some(n)
  {
    var s := FormatInt32(n);
    var m: nat := if n < 0 then -(n as int) else n as int;
    NatDigitsValue(m);
    assert StripNumberWhite(s) == s;
    if n < 0 {
      assert s[1..] == NatDigits(m);
    }
  }

  predicate AllNumberWhite(s: string) {
    forall i :: 0 <= i < |s| ==> IsNumberWhite(s[i])
  }

  /** Any number white space before and after the text is ignored. */
  lemma ParseIgnoresPadding(p: string, s: string, q: string)
    requires AllNumberWhite(p) && AllNumberWhite(q)
    ensures TryParseInt32(p + s + q) == TryParseInt32(s)
  {
    assert p + s + q == p + (s + q);
    StripLeadingWhite(p, s + q);
    StripTrailingWhite(s, q);
  }

  lemma {:induction false} StripLeadingWhite(p: string, t: string)
    requires AllNumberWhite(p)
    ensures StripNumberWhite(p + t) == StripNumberWhite(t)
    decreases |p|
  {
    if p != [] {
      assert (p + t)[0] == p[0];
      assert (p + t)[1..] == p[1..] + t;
      StripLeadingWhite(p[1..], t);
    } else {
      assert p + t == t;
    }
  }

  lemma {:induction false} StripAllWhite(q: string)
    requires AllNumberWhite(q)
    ensures StripNumberWhite(q) == []
    decreases |q|
  {
    if q != [] {
      StripAllWhite(q[1..]);
    }
  }

  lemma {:induction false} StripTrailingWhite(s: string, q: string)
    requires AllNumberWhite(q)
    ensures StripNumberWhite(s + q) == StripNumberWhite(s)
    decreases |s| + |q|
  {
    var t := s + q;
    if s == [] {
      assert t == q;
      StripAllWhite(q);
    } else if IsNumberWhite(s[0]) {
      assert t[0] == s[0];
      assert t[1..] == s[1..] + q;
      StripTrailingWhite(s[1..], q);
    } else if q != [] {
      assert t[0] == s[0];
      assert t[|t| - 1] == q[|q| - 1];
      assert t[..|t| - 1] == s + q[..|q| - 1];
      StripTrailingWhite(s, q[..|q| - 1]);
    } else {
      assert t == s;
    }
  }

  /** Text without a single decimal digit is never an integer. */
  lemma ParseRejectsNonDigits(s: string)
    requires forall i :: 0 <= i < |s| ==> !IsDigit(s[i])
    ensures TryParseInt32(s) == None
  {
    var t := StripNumberWhite(s);
    assert t != [] ==> t[0] in s && (|t| > 1 ==> t[1] in s);
  }
}
