/**
 * The string formatting the validator relies on: `str(n)` for integers, as
 * used by the f-strings of the messages and the `$i` path segments, and
 * `sep.join(parts)`, which renders the path stack.
 */
module Text {

  predicate IsDigit(c: char) { '0' <= c <= '9' }

  function DigitChar(d: nat): (c: char)
    requires d < 10
    ensures IsDigit(c)
  {
    ('0' as int + d) as char
  }

  function DigitValue(c: char): (d: nat)
    requires IsDigit(c)
    ensures d < 10 && DigitChar(d) == c
  {
    c as int - '0' as int
  }

  /** Decimal digits of `n`, most significant first, without leading zeros. */
  function NatToString(n: nat): (s: string)
    ensures |s| >= 1
    ensures forall i :: 0 <= i < |s| ==> IsDigit(s[i])
    ensures s[0] == '0' ==> n == 0 && s == "0"
  {
    if n < 10 then [DigitChar(n)] else NatToString(n / 10) + [DigitChar(n % 10)]
  }

  /** Reads back a string of decimal digits. */
  function ParseNat(s: string): nat
    requires forall i :: 0 <= i < |s| ==> IsDigit(s[i])
  {
    if s == [] then 0 else ParseNat(s[..|s| - 1]) * 10 + DigitValue(s[|s| - 1])
  }

  lemma {:induction false} ParseNatToString(n: nat)
    ensures ParseNat(NatToString(n)) == n
  {
    var s := NatToString(n);
    if n >= 10 {
      assert s[..|s| - 1] == NatToString(n / 10);
      ParseNatToString(n / 10);
    }
  }

  /** An optional minus sign followed by at least one decimal digit. */
  predicate IsIntText(s: string)
  {
    |s| >= 1 && |s| >= (if s[0] == '-' then 2 else 1) &&
    forall k :: (if s[0] == '-' then 1 else 0) <= k < |s| ==> IsDigit(s[k])
  }

  /** `str(i)` for a Python int: a minus sign exactly for negatives, then decimal digits without a leading zero. */
  function IntToString(i: int): (s: string)
    ensures IsIntText(s) && (s[0] == '-' <==> i < 0)
    ensures s[if i < 0 then 1 else 0] == '0' ==> s == "0"
  {
    if i < 0 then "-" + NatToString(-i) else NatToString(i)
  }

  /** Reads back what `IntToString` writes. */
  function ParseInt(s: string): int
    requires IsIntText(s)
  {
    if s[0] == '-' then 0 - ParseNat(s[1..]) else ParseNat(s) as int
  }

  lemma IntToStringRoundTrip(i: int)
    ensures ParseInt(IntToString(i)) == i
  {
    ParseNatToString(if i < 0 then -i else i);
    if i < 0 {
      assert IntToString(i)[1..] == NatToString(-i);
    }
  }

  /** `sep.join(parts)`: it begins with the first part. */
  function Join(parts: seq<string>, sep: string): (s: string)
    ensures parts != [] ==> |parts[0]| <= |s| && s[..|parts[0]|] == parts[0]
  {
    if parts == [] then ""
    else if |parts| == 1 then parts[0]
    else parts[0] + sep + Join(parts[1..], sep)
  }

  /** Joining one more part extends the rendering by the separator and that part. */
  lemma {:induction false} JoinAppend(parts: seq<string>, part: string, sep: string)
    requires parts != []
    ensures Join(parts + [part], sep) == Join(parts, sep) + sep + part
  {
    if |parts| > 1 {
      assert (parts + [part])[1..] == parts[1..] + [part];
      JoinAppend(parts[1..], part, sep);
    }
  }

  /** Each part preceded by the separator, as `Join` writes every part after the first. */
  function Prefixed(parts: seq<string>, sep: string): (s: string)
    ensures parts != [] ==> |sep| + |parts[0]| <= |s| && s[..|sep| + |parts[0]|] == sep + parts[0]
  {
    if parts == [] then "" else sep + parts[0] + Prefixed(parts[1..], sep)
  }

  /** Joining renders the first part, then the separator and each further part in turn. */
  lemma {:induction false} JoinFirst(head: string, rest: seq<string>, sep: string)
    decreases |rest|
    ensures Join([head] + rest, sep) == head + Prefixed(rest, sep)
  {
    if rest != [] {
      assert ([head] + rest)[1..] == rest;
      assert rest == [rest[0]] + rest[1..];
      JoinFirst(rest[0], rest[1..], sep);
    }
  }
}
