/** The `symbols` and `refresh` query parameters: their defaults, their case
    normalisation and the ticker-list grammar `SYMBOL_RE`. */
module Symbols {
  import opened Wrappers
  import opened Text

  /** A ticker starts with `[A-Z]`, which is `IsAsciiUpper`. A later character of a ticker: `[A-Z0-9.-]`. */
  predicate IsTickerChar(c: char) {
    IsAsciiUpper(c) || '0' <= c <= '9' || c == '.' || c == '-'
  }

  /** One ticker, `[A-Z][A-Z0-9.-]{0,6}`: one letter and at most six more
      characters. */
  predicate IsTicker(t: string) {
    1 <= |t| <= 7 && IsAsciiUpper(t[0]) && forall i :: 1 <= i < |t| ==> IsTickerChar(t[i])
  }

  /** `s.split(",")`: the pieces between commas, in order; there is always at
      least one piece, and a leading, trailing or doubled comma yields an empty
      piece. */
  function Split(s: string): (parts: seq<string>)
    ensures |parts| >= 1
    decreases |s|
  {
    if s == [] then [[]]
    else if s[0] == ',' then [[]] + Split(s[1..])
    else
      var rest := Split(s[1..]);
      [[s[0]] + rest[0]] + rest[1..]
  }

  /** `parts.join(",")`. */
  function Join(parts: seq<string>): string
    requires |parts| >= 1
    decreases |parts|
  {
    if |parts| == 1 then parts[0] else parts[0] + [','] + Join(parts[1..])
  }

  /** `SYMBOL_RE.test(s)`: every comma-separated piece of `s` is a ticker. */
  predicate SymbolReTest(s: string) {
    forall t :: t in Split(s) ==> IsTicker(t)
  }

  /** The language of `^T(,T)*$` with `T` a ticker: a non-empty list of
      tickers written with commas between them. */
  ghost predicate InTickerList(s: string) {
    exists ts: seq<string> :: |ts| >= 1 && (forall t :: t in ts ==> IsTicker(t)) && Join(ts) == s
  }

  /** Joining the pieces of a split gives back the string. */
  lemma {:induction false} JoinSplit(s: string)
    ensures Join(Split(s)) == s
    decreases |s|
  {
    if s == [] {
    } else if s[0] == ',' {
      JoinSplit(s[1..]);
      assert Split(s)[1..] == Split(s[1..]);
      assert s == [] + [','] + s[1..];
    } else {
      var rest := Split(s[1..]);
      JoinSplit(s[1..]);
      var parts := Split(s);
      assert parts[0] == [s[0]] + rest[0];
      if |rest| == 1 {
        assert s == [s[0]] + s[1..];
      } else {
        assert parts[1..] == rest[1..];
        assert Join(rest) == rest[0] + [','] + Join(rest[1..]);
        assert s == [s[0]] + s[1..];
      }
    }
  }

  /** A string without a comma splits into itself alone. */
  lemma {:induction false} SplitNoComma(t: string)
    requires ',' !in t
    ensures Split(t) == [t]
    decreases |t|
  {
    if t != [] {
      assert t[0] != ',';
      assert ',' !in t[1..] by { assert forall c :: c in t[1..] ==> c in t; }
      SplitNoComma(t[1..]);
      assert [t[0]] + t[1..] == t;
    }
  }

  /** A comma after a comma-free prefix ends the first piece there. */
  lemma {:induction false} SplitAfterPrefix(t: string, u: string)
    requires ',' !in t
    ensures Split(t + [','] + u) == [t] + Split(u)
    decreases |t|
  {
    var s := t + [','] + u;
    if t == [] {
      assert s == [','] + u;
      assert s[1..] == u;
    } else {
      assert s[0] == t[0] && t[0] != ',';
      assert s[1..] == t[1..] + [','] + u;
      assert ',' !in t[1..] by { assert forall c :: c in t[1..] ==> c in t; }
      SplitAfterPrefix(t[1..], u);
      assert [t[0]] + t[1..] == t;
    }
  }

  /** Splitting a joined list of comma-free pieces gives back the list. */
  lemma {:induction false} SplitJoin(ts: seq<string>)
    requires |ts| >= 1
    requires forall t :: t in ts ==> ',' !in t
    ensures Split(Join(ts)) == ts
    decreases |ts|
  {
    if |ts| == 1 {
      SplitNoComma(ts[0]);
    } else {
      assert ts[0] in ts;
      assert forall t :: t in ts[1..] ==> t in ts;
      SplitJoin(ts[1..]);
      SplitAfterPrefix(ts[0], Join(ts[1..]));
      assert [ts[0]] + ts[1..] == ts;
    }
  }

  lemma TickerHasNoComma(t: string)
    requires IsTicker(t)
    ensures ',' !in t
  {
    forall i | 0 <= i < |t| ensures t[i] != ',' {
      if i > 0 { assert IsTickerChar(t[i]); }
    }
  }

  /** The split-based test accepts exactly the strings the regular expression
      describes. */
  lemma SymbolReTestIff(s: string)
    ensures SymbolReTest(s) <==> InTickerList(s)
  {
    if SymbolReTest(s) {
      JoinSplit(s);
    }
    if InTickerList(s) {
      var ts: seq<string> :| |ts| >= 1 && (forall t :: t in ts ==> IsTicker(t)) && Join(ts) == s;
      forall t | t in ts ensures ',' !in t { TickerHasNoComma(t); }
      SplitJoin(ts);
    }
  }

  /** An accepted string is non-empty, neither starts nor ends with a comma,
      has no two commas in a row, and uses only ticker characters and commas. */
  lemma {:induction false} AcceptedShape(s: string)
    requires SymbolReTest(s)
    ensures |s| >= 1 && s[0] != ',' && s[|s| - 1] != ','
    ensures forall i :: 0 <= i < |s| ==> IsTickerChar(s[i]) || s[i] == ','
    ensures forall i :: 0 <= i < |s| - 1 && s[i] == ',' ==> s[i + 1] != ','
  {
    JoinSplit(s);
    JoinShape(Split(s));
  }

  lemma {:induction false} JoinShape(ts: seq<string>)
    requires |ts| >= 1 && forall t :: t in ts ==> IsTicker(t)
    ensures var s := Join(ts);
      |s| >= 1 && s[0] != ',' && s[|s| - 1] != ',' &&
      (forall i :: 0 <= i < |s| ==> IsTickerChar(s[i]) || s[i] == ',') &&
      (forall i :: 0 <= i < |s| - 1 && s[i] == ',' ==> s[i + 1] != ',')
    decreases |ts|
  {
    var t := ts[0];
    assert t in ts;
    assert IsTicker(t);
    TickerHasNoComma(t);
    if |ts| > 1 {
      assert forall u :: u in ts[1..] ==> u in ts;
      JoinShape(ts[1..]);
      var r := Join(ts[1..]);
      var s := t + [','] + r;
      assert Join(ts) == s;
      forall i | 0 <= i < |s| ensures IsTickerChar(s[i]) || s[i] == ',' {
        if i < |t| { assert s[i] == t[i]; }
        else if i > |t| { assert s[i] == r[i - |t| - 1]; }
      }
      forall i | 0 <= i < |s| - 1 && s[i] == ',' ensures s[i + 1] != ',' {
        if i == |t| {
          assert s[i + 1] == r[0];
        } else if i > |t| {
          assert s[i] == r[i - |t| - 1] && s[i + 1] == r[i - |t|];
        }
      }
    }
  }

  /** The default of the `symbols` parameter. */
  const DefaultSymbols: string := "AAPL"

  /** The symbol list of a request: the `symbols` parameter, or `"AAPL"` when it
      is absent or empty, upper-cased. */
  function NormaliseSymbols(param: Option<string>): (csv: string)
    ensures forall i :: 0 <= i < |csv| ==> !IsAsciiLower(csv[i])
    ensures param.None? || param == Some("") ==> csv == DefaultSymbols
  {
    var raw := if param.None? || param.value == "" then DefaultSymbols else param.value;
    ToUpperIsUpper(raw);
    ToUpper(raw)
  }

  /** The `refresh` parameter spelled `true` in any mix of cases. */
  predicate IsTrueWord(s: string) {
    |s| == 4 && s[0] in "tT" && s[1] in "rR" && s[2] in "uU" && s[3] in "eE"
  }

  /** Whether the request forces an upstream fetch: the `refresh` parameter,
      defaulting to `"false"`, lower-cased, equals `"true"`. */
  function RefreshRequested(param: Option<string>): (refresh: bool)
    ensures refresh <==> param.Some? && IsTrueWord(param.value)
  {
    var raw := if param.None? || param.value == "" then "false" else param.value;
    var lowered := ToLower(raw);
    assert lowered == "true" <==> IsTrueWord(raw) by {
      if |raw| == 4 {
        assert lowered == "true" <==>
          lowered[0] == 't' && lowered[1] == 'r' && lowered[2] == 'u' && lowered[3] == 'e';
      }
    }
    lowered == "true"
  }

  /** A missing `symbols` parameter asks for AAPL, which is accepted. */
  lemma DefaultAccepted()
    ensures NormaliseSymbols(None) == "AAPL"
    ensures SymbolReTest(NormaliseSymbols(None))
  {
    assert Split("AAPL") == ["AAPL"] by { SplitNoComma("AAPL"); }
  }

  /** A list of tickers written in any case is accepted: it is upper-cased
      before the test. */
  lemma {:induction false} AnyCaseAccepted(ts: seq<string>)
    requires |ts| >= 1
    requires forall t :: t in ts ==> IsTicker(ToUpper(t))
    ensures SymbolReTest(NormaliseSymbols(Some(Join(ts))))
  {
    UpperJoin(ts);
    var us := seq(|ts|, i requires 0 <= i < |ts| => ToUpper(ts[i]));
    assert forall u :: u in us ==> IsTicker(u) by {
      forall u | u in us ensures IsTicker(u) {
        var i :| 0 <= i < |us| && us[i] == u;
        assert ts[i] in ts;
      }
    }
    assert ts[0] in ts;
    assert Join(ts) != "" by {
      if Join(ts) == "" { JoinPrefix(ts); }
    }
    assert InTickerList(ToUpper(Join(ts)));
    SymbolReTestIff(ToUpper(Join(ts)));
  }

  lemma {:induction false} JoinPrefix(ts: seq<string>)
    requires |ts| >= 1
    ensures |Join(ts)| >= |ts[0]|
  {
  }

  /** Upper-casing a joined list upper-cases each piece. */
  lemma {:induction false} UpperJoin(ts: seq<string>)
    requires |ts| >= 1
    ensures ToUpper(Join(ts)) == Join(seq(|ts|, i requires 0 <= i < |ts| => ToUpper(ts[i])))
    decreases |ts|
  {
    var us := seq(|ts|, i requires 0 <= i < |ts| => ToUpper(ts[i]));
    if |ts| > 1 {
      UpperJoin(ts[1..]);
      assert us[1..] == seq(|ts[1..]|, i requires 0 <= i < |ts[1..]| => ToUpper(ts[1..][i]));
      ToUpperAppend(ts[0] + [','], Join(ts[1..]));
      ToUpperAppend(ts[0], [',']);
      assert ToUpper([',']) == [','];
    }
  }

  /** Two tickers separated by a comma, and a ticker with a dot, are accepted. */
  lemma AcceptedExamples()
    ensures SymbolReTest("AAPL,MSFT")
    ensures SymbolReTest("BRK.B")
  {
    assert IsTicker("AAPL") && IsTicker("MSFT") && IsTicker("BRK.B");
    assert Join(["AAPL", "MSFT"]) == "AAPL,MSFT";
    assert InTickerList("AAPL,MSFT");
    SymbolReTestIff("AAPL,MSFT");
    assert Join(["BRK.B"]) == "BRK.B";
    assert InTickerList("BRK.B");
    SymbolReTestIff("BRK.B");
  }

  /** A trailing or leading comma, the empty string and an eight-character
      ticker are rejected. */
  lemma RejectedExamples()
    ensures !SymbolReTest("AAPL,")
    ensures !SymbolReTest(",AAPL")
    ensures !SymbolReTest("")
    ensures !SymbolReTest("ABCDEFGH")
  {
    assert "" in Split("AAPL,") by {
      SplitAfterPrefix("AAPL", "");
      assert "AAPL" + [','] + "" == "AAPL,";
      assert Split("AAPL,") == ["AAPL", ""];
    }
    assert "" in Split(",AAPL") by {
      assert ",AAPL"[0] == ',';
      assert Split(",AAPL")[0] == "";
    }
    assert "ABCDEFGH" in Split("ABCDEFGH") by { SplitNoComma("ABCDEFGH"); }
  }

  /** Lower-case tickers fail the test as such, and pass once normalised. */
  lemma LowerCaseExamples()
    ensures !SymbolReTest("aapl")
    ensures SymbolReTest(NormaliseSymbols(Some("aapl")))
  {
    assert Split("aapl") == ["aapl"] by { SplitNoComma("aapl"); }
    assert "aapl" in Split("aapl");
    assert NormaliseSymbols(Some("aapl")) == "AAPL";
    DefaultAccepted();
  }
}
