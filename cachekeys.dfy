/** The cache key of a request: an absolute URL that carries the normalised
    symbol list, escaped with `encodeURIComponent`. */
module CacheKeys {
  import opened Symbols

  predicate IsAscii(s: string) {
    forall i :: 0 <= i < |s| ==> s[i] as int < 128
  }

  /** The characters `encodeURIComponent` leaves as they are. */
  predicate IsUnreserved(c: char) {
    'A' <= c <= 'Z' || 'a' <= c <= 'z' || '0' <= c <= '9' || c in "-_.!~*'()"
  }

  /** An upper-case hexadecimal digit. */
  function HexDigit(n: int): (d: char)
    requires 0 <= n < 16
    ensures IsHexDigit(d) && HexValue(d) == n
  {
    if n < 10 then ('0' as int + n) as char else ('A' as int + n - 10) as char
  }

  predicate IsHexDigit(c: char) {
    '0' <= c <= '9' || 'A' <= c <= 'F' || 'a' <= c <= 'f'
  }

  function HexValue(c: char): (n: int)
    requires IsHexDigit(c)
    ensures 0 <= n < 16
  {
    if c <= '9' then c as int - '0' as int
    else if c <= 'F' then c as int - 'A' as int + 10
    else c as int - 'a' as int + 10
  }

  /** `encodeURIComponent` on one ASCII character: itself when unreserved,
      otherwise `%` and its code in two upper-case hexadecimal digits. */
  function EncodeChar(c: char): string
    requires c as int < 128
  {
    if IsUnreserved(c) then [c] else ['%', HexDigit(c as int / 16), HexDigit(c as int % 16)]
  }

  /** `encodeURIComponent` on an ASCII string. */
  function EncodeURIComponent(s: string): string
    requires IsAscii(s)
  {
    if s == [] then [] else EncodeChar(s[0]) + EncodeURIComponent(s[1..])
  }

  /** Percent-decoding: each `%` followed by two hexadecimal digits stands for
      the character with that code; every other character stands for itself. */
  function PercentDecode(e: string): string
    decreases |e|
  {
    if e == [] then []
    else if |e| >= 3 && e[0] == '%' && IsHexDigit(e[1]) && IsHexDigit(e[2]) then
      [(16 * HexValue(e[1]) + HexValue(e[2])) as char] + PercentDecode(e[3..])
    else [e[0]] + PercentDecode(e[1..])
  }

  /** Decoding undoes encoding. */
  lemma {:induction false} DecodeEncode(s: string)
    requires IsAscii(s)
    ensures PercentDecode(EncodeURIComponent(s)) == s
    decreases |s|
  {
    if s != [] {
      var c, rest := s[0], EncodeURIComponent(s[1..]);
      var e := EncodeChar(c) + rest;
      assert EncodeURIComponent(s) == e;
      DecodeEncode(s[1..]);
      if IsUnreserved(c) {
        assert e[0] == c && c != '%';
        assert e[1..] == rest;
      } else {
        assert e[0] == '%' && e[1] == HexDigit(c as int / 16) && e[2] == HexDigit(c as int % 16);
        assert e[3..] == rest;
        assert 16 * (c as int / 16) + c as int % 16 == c as int;
      }
      assert [c] + s[1..] == s;
    }
  }

  /** Distinct ASCII strings have distinct encodings. */
  lemma EncodeInjective(a: string, b: string)
    requires IsAscii(a) && IsAscii(b)
    requires EncodeURIComponent(a) == EncodeURIComponent(b)
    ensures a == b
  {
    DecodeEncode(a);
    DecodeEncode(b);
  }

  /** Every comma written as `%2C`, every other character kept. */
  function ReplaceCommas(s: string): string {
    if s == [] then [] else (if s[0] == ',' then "%2C" else [s[0]]) + ReplaceCommas(s[1..])
  }

  /** On ticker characters and commas, `encodeURIComponent` only replaces
      the commas. */
  lemma {:induction false} EncodeTickerChars(s: string)
    requires forall i :: 0 <= i < |s| ==> IsTickerChar(s[i]) || s[i] == ','
    ensures IsAscii(s)
    ensures EncodeURIComponent(s) == ReplaceCommas(s)
    decreases |s|
  {
    if s != [] {
      EncodeTickerChars(s[1..]);
      if s[0] == ',' {
        assert EncodeChar(',') == "%2C";
      } else {
        assert IsUnreserved(s[0]);
      }
    }
  }

  /** On an accepted symbol list, `encodeURIComponent` only replaces the
      commas. */
  lemma EncodeAccepted(s: string)
    requires SymbolReTest(s)
    ensures IsAscii(s)
    ensures EncodeURIComponent(s) == ReplaceCommas(s)
  {
    AcceptedShape(s);
    EncodeTickerChars(s);
  }

  const KeyPrefix: string := "https://edge-cache.local/eod?symbols="

  /** The cache key of an accepted symbol list (the key is formed only after
      the list has passed the test). It is built from the list alone, and it
      is the prefix followed by the list with each comma written `%2C`. */
  function CacheKey(csv: string): (key: string)
    requires SymbolReTest(csv)
    ensures |key| >= |KeyPrefix| && key[..|KeyPrefix|] == KeyPrefix
    ensures PercentDecode(key[|KeyPrefix|..]) == csv
    ensures key == KeyPrefix + ReplaceCommas(csv)
  {
    EncodeAccepted(csv);
    var key := KeyPrefix + EncodeURIComponent(csv);
    assert key[|KeyPrefix|..] == EncodeURIComponent(csv);
    DecodeEncode(csv);
    key
  }

  /** Distinct accepted symbol lists have distinct cache keys. */
  lemma CacheKeyInjective(a: string, b: string)
    requires SymbolReTest(a) && SymbolReTest(b)
    requires CacheKey(a) == CacheKey(b)
    ensures a == b
  {
    assert CacheKey(a)[|KeyPrefix|..] == CacheKey(b)[|KeyPrefix|..];
  }

  lemma {:induction false} ReplaceCommasAppend(a: string, b: string)
    ensures ReplaceCommas(a + b) == ReplaceCommas(a) + ReplaceCommas(b)
    decreases |a|
  {
    if a == [] {
      assert a + b == b;
    } else {
      assert (a + b)[0] == a[0] && (a + b)[1..] == a[1..] + b;
      ReplaceCommasAppend(a[1..], b);
    }
  }

  lemma {:induction false} ReplaceCommasNoComma(s: string)
    requires ',' !in s
    ensures ReplaceCommas(s) == s
    decreases |s|
  {
    if s != [] {
      assert s[0] != ',';
      assert ',' !in s[1..] by { assert forall c :: c in s[1..] ==> c in s; }
      ReplaceCommasNoComma(s[1..]);
      assert [s[0]] + s[1..] == s;
    }
  }

  lemma ReplaceCommasExample()
    ensures ReplaceCommas("AAPL,MSFT") == "AAPL" + "%2C" + "MSFT"
  {
    assert "AAPL,MSFT" == "AAPL" + "," + "MSFT";
    ReplaceCommasAppend("AAPL" + ",", "MSFT");
    ReplaceCommasAppend("AAPL", ",");
    ReplaceCommasNoComma("AAPL");
    ReplaceCommasNoComma("MSFT");
  }

  /** The key of `AAPL,MSFT`. */
  lemma KeyExample()
    ensures SymbolReTest("AAPL,MSFT")
    ensures CacheKey("AAPL,MSFT") == KeyPrefix + "AAPL" + "%2C" + "MSFT"
  {
    AcceptedExamples();
    ReplaceCommasExample();
  }
}
