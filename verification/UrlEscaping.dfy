/**
 Percent-escaping and unescaping of Go's net/url, byte by byte, in the modes that job URLs and proxy
 URLs need. It follows section 2 of RFC 3986, with Go's choice of characters for each component.
 */
module UrlEscaping {
  import opened Wrappers

  type Byte = c: char | c as int < 256 witness 'a'

  /** Go strings are byte sequences; one character stands for one byte. */
  type Bytes = seq<Byte>

  datatype Mode = QueryComponent | UserPassword | Host | Zone

  predicate IsAlphanumeric(c: Byte)
  {
    'a' <= c <= 'z' || 'A' <= c <= 'Z' || '0' <= c <= '9'
  }

  predicate IsHostChar(c: Byte)
  {
    || c == '!' || c == '$' || c == '&' || c == '\'' || c == '(' || c == ')' || c == '*' || c == '+' || c == ','
    || c == ';' || c == '=' || c == ':' || c == '[' || c == ']' || c == '<' || c == '>' || c == '"'
  }

  predicate ShouldEscape(c: Byte, mode: Mode)
  {
    if IsAlphanumeric(c) then false
    else if (mode == Host || mode == Zone) && IsHostChar(c) then false
    else if c == '-' || c == '_' || c == '.' || c == '~' then false
    else if mode == UserPassword then !(c == '$' || c == '&' || c == '+' || c == ',' || c == ';' || c == '=')
    else true
  }

  function HexDigit(n: nat): (c: Byte)
    requires n < 16
    ensures c == "0123456789ABCDEF"[n]
  {
    if n < 10 then ('0' as int + n) as char else ('A' as int + n - 10) as char
  }

  function Unhex(c: Byte): (r: Option<nat>)
    ensures if r.Some? then r.value < 16 && (c == "0123456789ABCDEF"[r.value] || c == "0123456789abcdef"[r.value])
            else c !in "0123456789ABCDEFabcdef"
  {
    if '0' <= c <= '9' then Some(c as int - '0' as int)
    else if 'a' <= c <= 'f' then Some(c as int - 'a' as int + 10)
    else if 'A' <= c <= 'F' then Some(c as int - 'A' as int + 10)
    else None
  }

  lemma HexRoundTrip(n: nat)
    requires n < 16
    ensures Unhex(HexDigit(n)) == Some(n)
    ensures IsAlphanumeric(HexDigit(n))
  {
  }

  function EscapeByte(c: Byte, mode: Mode): Bytes
  {
    if mode == QueryComponent && c == ' ' then "+"
    else if ShouldEscape(c, mode) then ['%', HexDigit(c as int / 16), HexDigit(c as int % 16)]
    else [c]
  }

  function Escape(s: Bytes, mode: Mode): Bytes
  {
    if s == [] then [] else EscapeByte(s[0], mode) + Escape(s[1..], mode)
  }

  function Prepend(c: Byte, rest: Option<Bytes>): Option<Bytes>
  {
    match rest
    case None => None
    case Some(r) => Some([c] + r)
  }

  /** The byte that `%` with these two digits stands for may appear in this component. In a host only
      bytes beyond ASCII and the percent sign itself may be written this way. */
  predicate MayBeEncoded(hi: nat, lo: nat, mode: Mode)
    requires hi < 16 && lo < 16
  {
    match mode
    case Host => hi >= 8 || (hi == 2 && lo == 5)
    case Zone =>
      (hi == 2 && lo == 5) || (hi == 2 && lo == 0) || !ShouldEscape((hi * 16 + lo) as char, Host)
    case _ => true
  }

  predicate MayBePlain(c: Byte, mode: Mode)
  {
    (mode == Host || mode == Zone) && c as int < 0x80 ==> !ShouldEscape(c, mode)
  }

  function Unescape(s: Bytes, mode: Mode): Option<Bytes>
  {
    if s == [] then Some([])
    else if s[0] == '%' then
      if |s| < 3 || Unhex(s[1]).None? || Unhex(s[2]).None? then None
      else
        var hi, lo := Unhex(s[1]).value, Unhex(s[2]).value;
        if MayBeEncoded(hi, lo, mode) then Prepend((hi * 16 + lo) as char, Unescape(s[3..], mode)) else None
    else if s[0] == '+' && mode == QueryComponent then Prepend(' ', Unescape(s[1..], mode))
    else if MayBePlain(s[0], mode) then Prepend(s[0], Unescape(s[1..], mode))
    else None
  }

  /** Escaping the byte gives something that unescaping accepts: anything in a query or in credentials;
      in a host only a byte beyond ASCII, a host character or a percent sign. */
  predicate Writable(c: Byte, mode: Mode)
  {
    mode == Host || mode == Zone ==> c as int >= 0x80 || !ShouldEscape(c, Host) || c == '%'
  }

  lemma ByteRoundTrip(c: Byte, rest: Bytes, mode: Mode)
    requires mode != Zone && Writable(c, mode)
    ensures Unescape(EscapeByte(c, mode) + rest, mode) == Prepend(c, Unescape(rest, mode))
  {
    var e := EscapeByte(c, mode) + rest;
    if ShouldEscape(c, mode) && !(mode == QueryComponent && c == ' ') {
      HexRoundTrip(c as int / 16);
      HexRoundTrip(c as int % 16);
      assert e[3..] == rest;
    } else {
      assert e[1..] == rest;
    }
  }

  /** Unescaping undoes escaping: for every string in queries and credentials, and for every string of
      writable bytes in hosts. */
  lemma {:induction false} UnescapeEscape(s: Bytes, mode: Mode)
    requires mode != Zone && forall c | c in s :: Writable(c, mode)
    ensures Unescape(Escape(s, mode), mode) == Some(s)
  {
    if s != [] {
      var rest := s[1..];
      UnescapeEscape(rest, mode);
      FirstRoundTrip(s[0], rest, mode);
      assert s == [s[0]] + rest;
    }
  }

  lemma FirstRoundTrip(c: Byte, rest: Bytes, mode: Mode)
    requires mode != Zone && Writable(c, mode) && Unescape(Escape(rest, mode), mode) == Some(rest)
    ensures Unescape(EscapeByte(c, mode) + Escape(rest, mode), mode) == Some([c] + rest)
  {
    ByteRoundTrip(c, Escape(rest, mode), mode);
  }

  lemma EscapeInjective(s: Bytes, t: Bytes, mode: Mode)
    requires mode == QueryComponent || mode == UserPassword
    requires Escape(s, mode) == Escape(t, mode)
    ensures s == t
  {
    UnescapeEscape(s, mode);
    UnescapeEscape(t, mode);
  }

  /** The bytes that escaping may produce. */
  predicate Produced(c: Byte, mode: Mode)
  {
    c == '%' || IsAlphanumeric(c) || !ShouldEscape(c, mode) || (c == '+' && mode == QueryComponent)
  }

  lemma {:induction false} EscapeProduces(s: Bytes, mode: Mode)
    ensures forall c | c in Escape(s, mode) :: Produced(c, mode)
  {
    if s != [] {
      EscapeProduces(s[1..], mode);
      HexRoundTrip(s[0] as int / 16);
      HexRoundTrip(s[0] as int % 16);
      assert forall c | c in EscapeByte(s[0], mode) :: Produced(c, mode);
    }
  }

  function Percents(s: Bytes): nat
  {
    if s == [] then 0 else (if s[0] == '%' then 1 else 0) + Percents(s[1..])
  }

  lemma {:induction false} PercentsAppend(s: Bytes, t: Bytes)
    ensures Percents(s + t) == Percents(s) + Percents(t)
  {
    if s == [] {
      assert s + t == t;
    } else {
      assert (s + t)[1..] == s[1..] + t;
      PercentsAppend(s[1..], t);
    }
  }

  lemma {:induction false} PercentsOccur(s: Bytes)
    ensures Percents(s) > 0 <==> '%' in s
  {
    if s != [] { PercentsOccur(s[1..]); }
  }

  /** Every percent sign accounts for two bytes that unescaping removes. */
  lemma {:induction false} UnescapeShrinks(s: Bytes, mode: Mode)
    ensures var d := Unescape(s, mode); d.Some? ==> |d.value| + 2 * Percents(s) == |s|
  {
    if s != [] && Unescape(s, mode).Some? {
      if s[0] == '%' {
        UnescapeShrinks(s[3..], mode);
        assert s[1..][1..] == s[2..] && s[2..][1..] == s[3..];
        assert s[1] != '%' && s[2] != '%';
        assert Percents(s[1..]) == Percents(s[2..]) && Percents(s[2..]) == Percents(s[3..]);
      } else {
        UnescapeShrinks(s[1..], mode);
      }
    }
  }

  lemma {:induction false} EscapeGrows(s: Bytes, mode: Mode)
    ensures |Escape(s, mode)| == |s| + 2 * Percents(Escape(s, mode))
  {
    if s != [] {
      EscapeGrows(s[1..], mode);
      var e := EscapeByte(s[0], mode);
      PercentsAppend(e, Escape(s[1..], mode));
      HexRoundTrip(s[0] as int / 16);
      HexRoundTrip(s[0] as int % 16);
      if |e| == 3 { assert e[1..][1..] == [e[2]] && Percents([e[2]]) == 0 && Percents(e[1..]) == 0; }
    }
  }

  /** Without percent signs unescaping a host changes nothing. */
  lemma {:induction false} UnescapePlainHost(s: Bytes)
    requires '%' !in s && forall c | c in s :: MayBePlain(c, Host)
    ensures Unescape(s, Host) == Some(s)
  {
    if s != [] {
      UnescapePlainHost(s[1..]);
      assert s == [s[0]] + s[1..];
    }
  }

  lemma {:induction false} UnescapedHostIsPlain(s: Bytes)
    ensures var d := Unescape(s, Host); d.Some? ==> forall c | c in d.value :: c == '%' || MayBePlain(c, Host)
  {
    if s != [] && Unescape(s, Host).Some? {
      if s[0] == '%' { UnescapedHostIsPlain(s[3..]); } else { UnescapedHostIsPlain(s[1..]); }
    }
  }

  // What is written as it is.

  const UNRESERVED: string := "-_.~"
  const SUB_DELIMS: string := "!$&'()*+,;="

  /** The unreserved characters of section 2.3 of RFC 3986 are never escaped. In a query nothing else is
      kept; in credentials only those of the reserved characters that delimit nothing there; in a host also
      the sub-delims of section 2.2, the colon, the brackets of an address, and three characters that Go
      tolerates. */
  lemma WhatIsKept(c: Byte)
    ensures !ShouldEscape(c, QueryComponent) <==> IsAlphanumeric(c) || c in UNRESERVED
    ensures !ShouldEscape(c, UserPassword) <==> IsAlphanumeric(c) || c in UNRESERVED || c in "$&+,;="
    ensures !ShouldEscape(c, Host) <==> IsAlphanumeric(c) || c in UNRESERVED || c in SUB_DELIMS || c in ":[]<>\""
    ensures ShouldEscape(c, Zone) <==> ShouldEscape(c, Host)
  {
  }

  /** A string of characters that are kept stays as it is. */
  lemma {:induction false} KeptStays(s: Bytes, mode: Mode)
    requires forall c | c in s :: !ShouldEscape(c, mode) && c != ' '
    ensures Escape(s, mode) == s
  {
    if s != [] {
      assert EscapeByte(s[0], mode) == [s[0]];
      KeptStays(s[1..], mode);
      assert Escape(s, mode) == [s[0]] + s[1..] == s;
    }
  }

  /** Any other byte becomes a percent sign and two upper-case hexadecimal digits, but for the space, which
      becomes a plus sign in a query. */
  lemma OthersAreEncoded(c: Byte, mode: Mode)
    requires ShouldEscape(c, mode)
    ensures Escape([c], mode)
            == if mode == QueryComponent && c == ' ' then "+"
               else ['%', "0123456789ABCDEF"[c as int / 16], "0123456789ABCDEF"[c as int % 16]]
  {
    assert [c][1..] == [];
  }
}
