/**
 * The `"host:port"` text form of an address used by the flood dialect's peer
 * lists: written with `'{}:{}'.format(host, port)` and read back with
 * `host, port = p.split(':')` followed by `int(port)`.
 */
module HostPort {
  import opened Wrappers
  import opened Messages

  predicate IsDigit(c: char) { '0' <= c <= '9' }

  predicate AllDigits(s: string) { forall i :: 0 <= i < |s| ==> IsDigit(s[i]) }

  /** The characters `int()` strips from both ends of an ASCII string: space and `\t\n\v\f\r`. */
  predicate IsSpace(c: char) { c == ' ' || 9 <= c as int <= 13 }

  function DigitChar(d: nat): (c: char)
    requires d < 10
    ensures IsDigit(c) && c as int - '0' as int == d
  {
    ('0' as int + d) as char
  }

  /** The number a string of decimal digits denotes. */
  function DigitsValue(s: string): nat
    requires AllDigits(s)
  {
    if s == [] then 0 else DigitsValue(s[..|s| - 1]) * 10 + (s[|s| - 1] as int - '0' as int)
  }

  /** `str(n)` for a natural number: its decimal digits, most significant first. */
  function NatToDigits(n: nat): (s: string)
    ensures s != [] && AllDigits(s)
    ensures DigitsValue(s) == n
    decreases n
  {
    if n < 10 then [DigitChar(n)]
    else
      var s := NatToDigits(n / 10) + [DigitChar(n % 10)];
      assert s[..|s| - 1] == NatToDigits(n / 10);
      s
  }

  /** `'{}'.format(n)` for an integer: a minus sign for negative numbers, then the digits. */
  function IntToString(n: int): (s: string)
    ensures ':' !in s
  {
    if n < 0 then "-" + NatToDigits(-n) else NatToDigits(n)
  }

  function TrimStart(s: string): (r: string)
    ensures |r| <= |s| && r == s[|s| - |r|..]
    ensures forall i :: 0 <= i < |s| - |r| ==> IsSpace(s[i])
    ensures r != [] ==> !IsSpace(r[0])
  {
    if s != [] && IsSpace(s[0]) then TrimStart(s[1..]) else s
  }

  function TrimEnd(s: string): (r: string)
    ensures |r| <= |s| && r == s[..|r|]
    ensures forall i :: |r| <= i < |s| ==> IsSpace(s[i])
    ensures r != [] ==> !IsSpace(r[|r| - 1])
  {
    if s != [] && IsSpace(s[|s| - 1]) then TrimEnd(s[..|s| - 1]) else s
  }

  /**
   * `int(s)` for a string: surrounding whitespace, an optional sign, then one
   * or more decimal digits; anything else raises ValueError, modelled as None.
   */
  function ParseInt(s: string): Option<int>
  {
    ReadSigned(TrimEnd(TrimStart(s)))
  }

  /** What `int()` makes of the text between the whitespace: an optional sign, then one or more digits. */
  function ReadSigned(t: string): Option<int>
  {
    if t != [] && (t[0] == '+' || t[0] == '-') then
      var d := t[1..];
      if d != [] && AllDigits(d) then
        var v: int := DigitsValue(d);
        Some(if t[0] == '-' then -v else v)
      else None
    else if t != [] && AllDigits(t) then Some(DigitsValue(t))
    else None
  }

  /** A non-whitespace character survives TrimStart, shifted by the number of characters it dropped. */
  lemma TrimStartKeeps(s: string, i: nat)
    requires i < |s| && !IsSpace(s[i])
    ensures |s| - |TrimStart(s)| <= i && TrimStart(s)[i - (|s| - |TrimStart(s)|)] == s[i]
  {
    var r := TrimStart(s);
    var k := |s| - |r|;
    assert r[i - k] == s[k..][i - k];
  }

  /** A non-whitespace character survives TrimEnd at the same position. */
  lemma TrimEndKeeps(s: string, i: nat)
    requires i < |s| && !IsSpace(s[i])
    ensures i < |TrimEnd(s)| && TrimEnd(s)[i] == s[i]
  {
    var r := TrimEnd(s);
    assert r[i] == s[..|r|][i];
  }

  /** A plain string of digits is read as its decimal value. */
  lemma ParseIntDigits(s: string)
    requires s != [] && AllDigits(s)
    ensures ParseInt(s) == Some(DigitsValue(s))
  {
    DigitsHaveNoSpace(s);
  }

  /** `int()` raises on an empty or blank string. */
  lemma ParseIntBlank(s: string)
    requires forall i :: 0 <= i < |s| ==> IsSpace(s[i])
    ensures ParseInt(s).None?
  {
  }

  /** A character that is neither a sign nor a digit makes the trimmed text unreadable. */
  lemma ReadSignedRejects(t: string, c: char)
    requires c in t && !IsDigit(c) && c != '+' && c != '-'
    ensures ReadSigned(t).None?
  {
    var j :| 0 <= j < |t| && t[j] == c;
    if t[0] == '+' || t[0] == '-' {
      assert t[1..][j - 1] == c;
    }
  }

  /** `int()` raises on a string holding any character other than whitespace, a sign or a digit. */
  lemma {:induction false} ParseIntRejects(s: string, i: nat)
    requires i < |s| && !IsDigit(s[i]) && !IsSpace(s[i]) && s[i] != '+' && s[i] != '-'
    ensures ParseInt(s).None?
  {
    TrimKeeps(s, i);
    ReadSignedRejects(TrimEnd(TrimStart(s)), s[i]);
  }

  /** A non-whitespace character is among what `int()` reads after trimming. */
  lemma TrimKeeps(s: string, i: nat)
    requires i < |s| && !IsSpace(s[i])
    ensures s[i] in TrimEnd(TrimStart(s))
  {
    var u := TrimStart(s);
    var k := |s| - |u|;
    TrimStartKeeps(s, i);
    TrimEndKeeps(u, i - k);
    assert TrimEnd(u)[i - k] == s[i];
  }

  /** The information separator 0x1C is not whitespace to `int()`: `int('\x1c5')` raises. */
  lemma SeparatorIsNotSpace()
    ensures ParseInt([28 as char, '5']).None?
  {
    ParseIntRejects([28 as char, '5'], 0);
  }

  /** The number of occurrences of `c` in `s`. */
  function Count(s: string, c: char): nat
  {
    if s == [] then 0 else (if s[0] == c then 1 else 0) + Count(s[1..], c)
  }

  /** `sep.join(parts)`. */
  function Join(parts: seq<string>, sep: char): string
    requires parts != []
  {
    if |parts| == 1 then parts[0] else parts[0] + [sep] + Join(parts[1..], sep)
  }

  /** `s.split(sep)` for a one-character separator: the pieces between the separators, empty ones included. */
  function Split(s: string, sep: char): (parts: seq<string>)
    ensures |parts| == Count(s, sep) + 1
    ensures forall i :: 0 <= i < |parts| ==> sep !in parts[i]
    ensures Join(parts, sep) == s
  {
    if s == [] then [""]
    else
      var rest := Split(s[1..], sep);
      if s[0] == sep then
        assert ([""] + rest)[1..] == rest;
        [""] + rest
      else
        var parts := [[s[0]] + rest[0]] + rest[1..];
        assert |rest| > 1 ==> parts[1..] == rest[1..] && Join(rest, sep) == rest[0] + [sep] + Join(rest[1..], sep);
        parts
  }

  /** `'{}:{}'.format(host, port)`. */
  function Format(a: Address): (r: string)
    // the host, one colon, then the colon-free decimal text of the port
    ensures |r| > |a.host| && r[..|a.host|] == a.host && r[|a.host|] == ':'
    ensures r[|a.host| + 1..] == IntToString(a.port) && ':' !in r[|a.host| + 1..]
  {
    a.host + ":" + IntToString(a.port)
  }

  /**
   * `host, port = s.split(':'); (host, int(port))`: None where the split does
   * not give exactly two pieces or the second is not an integer.
   */
  function Parse(s: string): (r: Option<Address>)
    ensures r.Some? ==> Count(s, ':') == 1 && ':' !in r.value.host
  {
    var parts := Split(s, ':');
    if |parts| != 2 then None
    else match ParseInt(parts[1])
      case None => None
      case Some(port) => Some(Address(parts[0], port))
  }

  lemma {:induction false} CountConcat(s: string, t: string, c: char)
    ensures Count(s + t, c) == Count(s, c) + Count(t, c)
  {
    if s == [] {
      assert s + t == t;
    } else {
      assert (s + t)[1..] == s[1..] + t;
      CountConcat(s[1..], t, c);
    }
  }

  lemma {:induction false} CountZero(s: string, c: char)
    ensures Count(s, c) == 0 <==> c !in s
  {
    if s != [] {
      CountZero(s[1..], c);
      assert s == [s[0]] + s[1..];
    }
  }

  /** A piece without the separator, followed by the separator, splits off as one part. */
  lemma {:induction false} SplitAfter(p: string, rest: string, sep: char)
    requires sep !in p
    ensures Split(p + [sep] + rest, sep) == [p] + Split(rest, sep)
  {
    if p == [] {
      assert p + [sep] + rest == [sep] + rest;
      assert ([sep] + rest)[1..] == rest;
    } else {
      assert (p + [sep] + rest)[1..] == p[1..] + [sep] + rest;
      SplitAfter(p[1..], rest, sep);
      assert [p[0]] + p[1..] == p;
    }
  }

  lemma {:induction false} SplitWhole(p: string, sep: char)
    requires sep !in p
    ensures Split(p, sep) == [p]
  {
    CountZero(p, sep);
    assert Join(Split(p, sep), sep) == Split(p, sep)[0];
  }

  /** Splitting undoes joining pieces that do not contain the separator. */
  lemma {:induction false} SplitJoin(parts: seq<string>, sep: char)
    requires parts != []
    requires forall i :: 0 <= i < |parts| ==> sep !in parts[i]
    ensures Split(Join(parts, sep), sep) == parts
  {
    if |parts| == 1 {
      SplitWhole(parts[0], sep);
    } else {
      SplitJoin(parts[1..], sep);
      SplitAfter(parts[0], Join(parts[1..], sep), sep);
      assert [parts[0]] + parts[1..] == parts;
    }
  }

  lemma {:induction false} DigitsHaveNoSpace(s: string)
    requires AllDigits(s)
    ensures TrimStart(s) == s && TrimEnd(s) == s
  {
    if s != [] {
      assert !IsSpace(s[0]) && !IsSpace(s[|s| - 1]);
    }
  }

  /** `int(str(n)) == n`. */
  lemma {:induction false} ParseIntToString(n: int)
    ensures ParseInt(IntToString(n)) == Some(n)
  {
    var s := IntToString(n);
    if n < 0 {
      var d := NatToDigits(-n);
      assert s == ['-'] + d;
      assert !IsSpace('-');
      assert TrimStart(s) == s;
      DigitsHaveNoSpace(d);
      assert TrimEnd(s) == s by {
        assert s[|s| - 1] == d[|d| - 1];
      }
      assert s[1..] == d;
    } else {
      DigitsHaveNoSpace(s);
      assert s[0] != '+' && s[0] != '-';
    }
  }

  /**
   * Formatting an address and parsing the text back gives the address exactly
   * when its host holds no colon; a host with a colon makes the parse fail.
   */
  lemma {:induction false} ParseFormat(a: Address)
    ensures Parse(Format(a)) == if ':' in a.host then None else Some(a)
  {
    var digits := IntToString(a.port);
    assert Format(a) == a.host + [':'] + digits;
    if ':' in a.host {
      CountConcat(a.host + [':'], digits, ':');
      CountConcat(a.host, [':'], ':');
      CountZero(a.host, ':');
    } else {
      assert Join([a.host, digits], ':') == a.host + [':'] + digits;
      SplitJoin([a.host, digits], ':');
      ParseIntToString(a.port);
    }
  }
}
