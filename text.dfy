/**
 * The pieces of Go's standard library the router relies on, stated over strings of characters:
 * `strings.Split` and `strings.Join` with a one-character separator, and the `%d` verb of
 * `fmt.Sprintf`. Each comes with its inverse (Join for Split, a decimal parser for `%d`,
 * a host/port splitter for the `"%s:%d"` host form) and the lemma that connects the two.
 */
module Text {
  import opened Base

  /** `strings.Split(s, string(sep))`: the pieces of `s` between occurrences of `sep`, in order.
      There is always at least one piece, and no piece holds the separator. */
  function Split(s: string, sep: char): (parts: seq<string>)
    ensures |parts| >= 1
    ensures forall i :: 0 <= i < |parts| ==> sep !in parts[i]
    decreases |s|
  {
    if s == [] then [""]
    else
      var rest := Split(s[1..], sep);
      if s[0] == sep then [""] + rest
      else [[s[0]] + rest[0]] + rest[1..]
  }

  /** There is a second piece exactly when the separator occurs. */
  lemma {:induction false} SplitHasSecondPiece(s: string, sep: char)
    ensures |Split(s, sep)| >= 2 <==> sep in s
    decreases |s|
  {
    if s != [] {
      SplitHasSecondPiece(s[1..], sep);
      assert s == [s[0]] + s[1..];
    }
  }

  /** `strings.Join(parts, string(sep))`: the first piece is a prefix of the result, and the
      separator follows it when there is a second piece. */
  function Join(parts: seq<string>, sep: char): (s: string)
    ensures |parts| >= 1 ==> parts[0] <= s
    ensures |parts| >= 2 ==> |s| > |parts[0]| && s[|parts[0]|] == sep
  {
    if |parts| == 0 then ""
    else if |parts| == 1 then parts[0]
    else parts[0] + [sep] + Join(parts[1..], sep)
  }

  /** Joining the pieces of a split with the same separator gives back the string. */
  lemma {:induction false} JoinSplit(s: string, sep: char)
    ensures Join(Split(s, sep), sep) == s
    decreases |s|
  {
    if s != [] {
      var rest := Split(s[1..], sep);
      JoinSplit(s[1..], sep);
      if s[0] == sep {
        assert ([""] + rest)[1..] == rest;
        assert s == [sep] + s[1..];
      } else if |rest| == 1 {
        assert s == [s[0]] + s[1..];
      } else {
        var parts := [[s[0]] + rest[0]] + rest[1..];
        assert parts[1..] == rest[1..];
        assert Join(rest, sep) == rest[0] + [sep] + Join(rest[1..], sep);
        assert s == [s[0]] + s[1..];
      }
    }
  }

  /** A string without the separator is a single piece. */
  lemma {:induction false} SplitWithoutSeparator(a: string, sep: char)
    requires sep !in a
    ensures Split(a, sep) == [a]
    decreases |a|
  {
    if a != [] {
      SplitWithoutSeparator(a[1..], sep);
      assert a == [a[0]] + a[1..];
    }
  }

  /** A separator-free prefix followed by the separator is split off as the first piece. */
  lemma {:induction false} SplitAfterPiece(a: string, b: string, sep: char)
    requires sep !in a
    ensures Split(a + [sep] + b, sep) == [a] + Split(b, sep)
    decreases |a|
  {
    var s := a + [sep] + b;
    if a == [] {
      assert s[1..] == b;
    } else {
      assert s[1..] == a[1..] + [sep] + b;
      SplitAfterPiece(a[1..], b, sep);
      assert a == [a[0]] + a[1..];
    }
  }

  /** Two '/'-free pieces around one '/' split into exactly those two. */
  lemma SplitOfServicePath(prefix: string, name: string)
    requires '/' !in prefix && '/' !in name
    ensures Split(prefix + "/" + name, '/') == [prefix, name]
  {
    assert prefix + "/" + name == prefix + ['/'] + name;
    SplitAfterPiece(prefix, name, '/');
    SplitWithoutSeparator(name, '/');
  }

  /** Two '/'-free pieces, each followed by '/', are split off before the pieces of the rest. */
  lemma SplitOfLongServicePath(prefix: string, name: string, rest: string)
    requires '/' !in prefix && '/' !in name
    ensures Split(prefix + "/" + name + "/" + rest, '/') == [prefix, name] + Split(rest, '/')
  {
    var tail := name + ['/'] + rest;
    assert prefix + "/" + name + "/" + rest == prefix + ['/'] + tail;
    SplitAfterPiece(prefix, tail, '/');
    SplitAfterPiece(name, rest, '/');
  }

  /** Splitting a join of separator-free pieces gives back the pieces. */
  lemma {:induction false} SplitJoin(parts: seq<string>, sep: char)
    requires |parts| >= 1
    requires forall i :: 0 <= i < |parts| ==> sep !in parts[i]
    ensures Split(Join(parts, sep), sep) == parts
    decreases |parts|
  {
    if |parts| == 1 {
      SplitWithoutSeparator(parts[0], sep);
    } else {
      SplitJoin(parts[1..], sep);
      SplitAfterPiece(parts[0], Join(parts[1..], sep), sep);
      assert parts == [parts[0]] + parts[1..];
    }
  }

  predicate IsDigit(c: char)
  {
    '0' <= c <= '9'
  }

  predicate AllDigits(s: string)
  {
    forall i :: 0 <= i < |s| ==> IsDigit(s[i])
  }

  function DigitChar(d: nat): (c: char)
    requires d < 10
  {
    ('0' as int + d) as char
  }

  function DigitValue(c: char): nat
    requires IsDigit(c)
  {
    c as int - '0' as int
  }

  /** The decimal digits of `n`, most significant first, without leading zeros. */
  function NatToDecimal(n: nat): (s: string)
    ensures |s| >= 1 && AllDigits(s)
    ensures s[0] == '0' ==> n == 0
    decreases n
  {
    if n < 10 then [DigitChar(n)]
    else NatToDecimal(n / 10) + [DigitChar(n % 10)]
  }

  /** What `fmt.Sprintf("%d", n)` writes for a Go `int`: a minus sign before the digits of a
      negative value, nothing but digits otherwise, and no leading zero. */
  function IntToDecimal(n: int): (s: string)
    ensures |s| >= 1
    ensures n < 0 <==> s[0] == '-'
    ensures n < 0 ==> |s| >= 2
    ensures forall i :: (if n < 0 then 1 else 0) <= i < |s| ==> IsDigit(s[i])
    ensures s[if n < 0 then 1 else 0] == '0' ==> s == "0"
  {
    if n < 0 then "-" + NatToDecimal(-n) else NatToDecimal(n)
  }

  /** The value of a string of decimal digits. */
  function DigitsValue(s: string): nat
    requires AllDigits(s)
    decreases |s|
  {
    if s == [] then 0 else DigitsValue(s[..|s| - 1]) * 10 + DigitValue(s[|s| - 1])
  }

  /** A decimal integer parser: an optional minus sign and at least one digit, nothing else. */
  function ParseInt(s: string): Option<int>
  {
    if |s| >= 2 && s[0] == '-' && AllDigits(s[1..]) then Some(0 - DigitsValue(s[1..]))
    else if |s| >= 1 && AllDigits(s) then Some(DigitsValue(s))
    else None
  }

  lemma {:induction false} DigitsOfNat(n: nat)
    ensures DigitsValue(NatToDecimal(n)) == n
    decreases n
  {
    var s := NatToDecimal(n);
    if n >= 10 {
      var front := NatToDecimal(n / 10);
      DigitsOfNat(n / 10);
      assert s == front + [DigitChar(n % 10)];
      assert s[..|s| - 1] == front;
      assert DigitValue(s[|s| - 1]) == n % 10;
    }
  }

  /** `%d` is read back by the parser: the decimal form of every integer parses to that integer. */
  lemma DecimalRoundTrip(n: int)
    ensures ParseInt(IntToDecimal(n)) == Some(n)
  {
    var magnitude: nat := if n < 0 then -n else n;
    var d := NatToDecimal(magnitude);
    DigitsOfNat(magnitude);
    if n < 0 {
      var s := "-" + d;
      assert s == IntToDecimal(n);
      assert s[0] == '-' && s[1..] == d;
      assert ParseInt(s) == Some(0 - DigitsValue(d));
    } else {
      assert d == IntToDecimal(n);
      assert IsDigit(d[0]);
      assert ParseInt(d) == Some(DigitsValue(d));
    }
  }

  /** The index of the last occurrence of `c` in `s`, or -1 when there is none. */
  function LastIndex(s: string, c: char): (i: int)
    ensures -1 <= i < |s|
    ensures i >= 0 ==> s[i] == c
    ensures forall k :: i < k < |s| ==> s[k] != c
    decreases |s|
  {
    if s == [] then -1
    else if s[|s| - 1] == c then |s| - 1
    else LastIndex(s[..|s| - 1], c)
  }

  /** The authority `fmt.Sprintf("%s:%d", address, port)` builds for an outbound request: the
      address, then a ':' that is the last one in the result. */
  function HostPort(address: string, port: int): (h: string)
    ensures address <= h
    ensures |h| > |address| && h[|address|] == ':'
    ensures forall k :: |address| < k < |h| ==> h[k] != ':'
  {
    address + ":" + IntToDecimal(port)
  }

  /** Reference reading of an authority: the address is everything before the last ':',
      the port the decimal integer after it. */
  function SplitHostPort(hostport: string): Option<(string, int)>
  {
    var i := LastIndex(hostport, ':');
    if i < 0 then None
    else
      match ParseInt(hostport[i + 1..])
      case None => None
      case Some(port) => Some((hostport[..i], port))
  }

  lemma LastIndexAfterFree(a: string, b: string, c: char)
    requires c !in b
    ensures LastIndex(a + [c] + b, c) == |a|
  {
    var s := a + [c] + b;
    var i := LastIndex(s, c);
    assert s[|a|] == c;
  }

  /** The host the router builds names its instance: splitting it gives back address and port,
      whatever the address contains. */
  lemma HostPortRoundTrip(address: string, port: int)
    ensures SplitHostPort(HostPort(address, port)) == Some((address, port))
  {
    var d := IntToDecimal(port);
    assert ':' !in d;
    var s := HostPort(address, port);
    assert s == address + [':'] + d;
    LastIndexAfterFree(address, d, ':');
    assert s[|address| + 1..] == d;
    assert s[..|address|] == address;
    DecimalRoundTrip(port);
  }
}
