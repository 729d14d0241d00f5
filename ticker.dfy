/** The ticker normaliser: turns what the user typed, plus the chosen market
    category, into the symbol the market-data provider expects. */
module Ticker {

  const Forex := "Forex"
  const SahamIndonesia := "Saham Indonesia"
  const ForexSuffix := "=X"
  const IdxSuffix := ".JK"

  /** Metal spot pairs that the provider only serves as futures contracts. */
  const SpecialMap: map<string, string> := map["XAUUSD" := "GC=F", "XAGUSD" := "SI=F"]

  /** The characters Python's `str.strip()` removes (those `str.isspace()` accepts). */
  predicate IsSpace(c: char) {
    || c == ' ' || c == '\t' || c == '\n' || c == '\r' || c == '\U{B}' || c == '\U{C}'
    || ('\U{1C}' <= c <= '\U{1F}') || c == '\U{85}' || c == '\U{A0}' || c == '\U{1680}'
    || ('\U{2000}' <= c <= '\U{200A}') || c == '\U{2028}' || c == '\U{2029}'
    || c == '\U{202F}' || c == '\U{205F}' || c == '\U{3000}'
  }

  predicate IsLowerAscii(c: char) {
    'a' <= c <= 'z'
  }

  /** Upper-casing of one character, for the ASCII letters: a–z become A–Z, 32 code points lower. */
  function UpperChar(c: char): (u: char)
    ensures !IsLowerAscii(u)
    ensures IsSpace(u) <==> IsSpace(c)
    ensures IsLowerAscii(c) ==> u as int == c as int - 32 && 'A' <= u <= 'Z'
    ensures !IsLowerAscii(c) ==> u == c
  {
    if IsLowerAscii(c) then
      var u := (c as int - 'a' as int + 'A' as int) as char;
      VisibleNotSpace(c);
      VisibleNotSpace(u);
      u
    else c
  }

  /** `s.upper()`: each lower-case letter becomes its capital, every other character is
      kept, so no lower-case letter is left and whitespace stays where it was. */
  function Upper(s: string): (r: string)
    ensures |r| == |s|
    ensures forall i :: 0 <= i < |s| && IsLowerAscii(s[i]) ==> r[i] as int == s[i] as int - 32
    ensures forall i :: 0 <= i < |s| && !IsLowerAscii(s[i]) ==> r[i] == s[i]
    ensures forall i :: 0 <= i < |r| ==> !IsLowerAscii(r[i])
    ensures forall i :: 0 <= i < |r| ==> (IsSpace(r[i]) <==> IsSpace(s[i]))
  {
    seq(|s|, i requires 0 <= i < |s| => UpperChar(s[i]))
  }

  /** `s.lstrip()`: a suffix of `s`, everything cut off is whitespace, and it does not start with whitespace. */
  function TrimLeft(s: string): (r: string)
    ensures |r| <= |s| && r == s[|s| - |r|..]
    ensures forall i :: 0 <= i < |s| - |r| ==> IsSpace(s[i])
    ensures r != [] ==> !IsSpace(r[0])
    decreases |s|
  {
    if |s| > 0 && IsSpace(s[0]) then TrimLeft(s[1..]) else s
  }

  /** `s.rstrip()`: a prefix of `s`, everything cut off is whitespace, and it does not end with whitespace. */
  function TrimRight(s: string): (r: string)
    ensures |r| <= |s| && r == s[..|r|]
    ensures forall i :: |r| <= i < |s| ==> IsSpace(s[i])
    ensures r != [] ==> !IsSpace(r[|r| - 1])
    decreases |s|
  {
    if |s| > 0 && IsSpace(s[|s| - 1]) then TrimRight(s[..|s| - 1]) else s
  }

  /** `s.strip()`: `TrimLeft` then `TrimRight`; never longer than `s`, and with no
      whitespace at either end. */
  function Strip(s: string): (r: string)
    ensures |r| <= |s|
    ensures r != [] ==> !IsSpace(r[0]) && !IsSpace(r[|r| - 1])
  {
    TrimRight(TrimLeft(s))
  }

  predicate EndsWith(s: string, suffix: string) {
    |suffix| <= |s| && s[|s| - |suffix|..] == suffix
  }

  /** `ticker.strip().upper()`, the form every non-empty ticker is brought to first:
      never longer than the ticker, and in normal form. */
  function Normalize(ticker: string): (t: string)
    ensures |t| <= |ticker|
    ensures IsNormal(t)
  {
    UpperKeepsEnds(Strip(ticker));
    Upper(Strip(ticker))
  }

  /** Upper-casing a string without whitespace at its ends gives a normal symbol. */
  lemma UpperKeepsEnds(s: string)
    requires s != [] ==> !IsSpace(s[0]) && !IsSpace(s[|s| - 1])
    ensures IsNormal(Upper(s))
  {
    var u := Upper(s);
    if u != [] {
      assert IsSpace(u[0]) <==> IsSpace(s[0]);
      assert IsSpace(u[|u| - 1]) <==> IsSpace(s[|s| - 1]);
    }
  }

  /** A symbol that normalising leaves alone: no surrounding whitespace, no lower-case letter. */
  predicate IsNormal(s: string) {
    && (s != [] ==> !IsSpace(s[0]) && !IsSpace(s[|s| - 1]))
    && forall i :: 0 <= i < |s| ==> !IsLowerAscii(s[i])
  }

  /** map_ticker_to_yahoo: an empty ticker comes back untouched; any other result is in
      normal form and, unless a metal override applied, starts with the normalised ticker
      and adds at most a three-character market suffix. */
  function MapTickerToYahoo(ticker: string, marketType: string): (r: string)
    ensures ticker == [] ==> r == []
    ensures ticker != [] ==> IsNormal(r)
    ensures ticker != [] && !(marketType == Forex && Normalize(ticker) in SpecialMap) ==>
      && Normalize(ticker) <= r
      && |r| <= |Normalize(ticker)| + 3
  {
    if ticker == [] then ticker
    else ForMarket(Normalize(ticker), marketType)
  }

  /** The market-specific part of map_ticker_to_yahoo, applied to the normalised ticker `t`:
      the result stays in normal form and, except for a metal override, extends `t` by at
      most a three-character suffix. */
  function ForMarket(t: string, marketType: string): (r: string)
    requires IsNormal(t)
    ensures IsNormal(r)
    ensures !(marketType == Forex && t in SpecialMap) ==> t <= r && |r| <= |t| + 3
  {
    if marketType == Forex then
      if t in SpecialMap then OverrideIsNormal(t); SpecialMap[t]
      else if !EndsWith(t, ForexSuffix) then SuffixedIsNormal(t, ForexSuffix); t + ForexSuffix
      else t
    else if marketType == SahamIndonesia then
      if !EndsWith(t, IdxSuffix) then SuffixedIsNormal(t, IdxSuffix); t + IdxSuffix
      else t
    else t
  }

  // ---------------------------------------------------------------------------
  // Properties of the normal form

  lemma UpperOfNormal(s: string)
    requires forall i :: 0 <= i < |s| ==> !IsLowerAscii(s[i])
    ensures Upper(s) == s
  {
  }

  lemma StripOfNormal(s: string)
    requires IsNormal(s)
    ensures Strip(s) == s
  {
  }

  /** Normalising is the identity exactly on normal symbols. */
  lemma NormalizeFixesNormal(s: string)
    ensures Normalize(s) == s <==> IsNormal(s)
  {
    if IsNormal(s) {
      StripOfNormal(s);
      UpperOfNormal(s);
    }
  }

  lemma NormalConcat(a: string, b: string)
    requires IsNormal(a) && IsNormal(b) && b != []
    ensures IsNormal(a + b)
  {
    var s := a + b;
    forall i | 0 <= i < |s| ensures !IsLowerAscii(s[i]) {
      if i < |a| { assert s[i] == a[i]; } else { assert s[i] == b[i - |a|]; }
    }
    assert s[|s| - 1] == b[|b| - 1];
    if a != [] { assert s[0] == a[0]; } else { assert s == b; }
  }

  // ---------------------------------------------------------------------------
  // Properties of map_ticker_to_yahoo

  /** Visible ASCII characters are not whitespace. */
  lemma VisibleNotSpace(c: char)
    requires '!' <= c <= '~'
    ensures !IsSpace(c)
  {
  }

  /** Symbols spelled with capitals and punctuation are in normal form. */
  lemma LiteralIsNormal(s: string)
    requires forall i :: 0 <= i < |s| ==> 'A' <= s[i] <= 'Z' || s[i] == '=' || s[i] == '-' || s[i] == '.'
    ensures IsNormal(s) && Normalize(s) == s
  {
    if s != [] {
      VisibleNotSpace(s[0]);
      VisibleNotSpace(s[|s| - 1]);
    }
    NormalizeFixesNormal(s);
  }


  lemma OverrideIsNormal(t: string)
    requires t in SpecialMap
    ensures IsNormal(SpecialMap[t])
  {
    if t == "XAUUSD" {
      LiteralIsNormal("GC=F");
    } else {
      assert t == "XAGUSD";
      LiteralIsNormal("SI=F");
    }
  }

  lemma SuffixedIsNormal(t: string, suffix: string)
    requires IsNormal(t) && suffix != []
    requires forall i :: 0 <= i < |suffix| ==> 'A' <= suffix[i] <= 'Z' || suffix[i] == '=' || suffix[i] == '.'
    ensures IsNormal(if EndsWith(t, suffix) then t else t + suffix)
  {
    LiteralIsNormal(suffix);
    if !EndsWith(t, suffix) {
      NormalConcat(t, suffix);
    }
  }

  lemma EndsWithConcat(t: string, suffix: string)
    ensures EndsWith(t + suffix, suffix)
  {
    assert (t + suffix)[|t|..] == suffix;
  }

  /** Forex: the two metal overrides; every other ticker ends in `=X`, and one already ending in `=X` is kept. */
  lemma ForexMapping(ticker: string)
    requires ticker != []
    ensures var t, r := Normalize(ticker), MapTickerToYahoo(ticker, Forex);
      && (t == "XAUUSD" ==> r == "GC=F")
      && (t == "XAGUSD" ==> r == "SI=F")
      && (t !in SpecialMap ==> EndsWith(r, "=X"))
      && (t !in SpecialMap && EndsWith(t, "=X") ==> r == t)
      && (t !in SpecialMap && !EndsWith(t, "=X") ==> r == t + "=X")
  {
    EndsWithConcat(Normalize(ticker), ForexSuffix);
  }

  /** Saham Indonesia: the result always ends in `.JK`, and the suffix is never doubled. */
  lemma IdxMapping(ticker: string)
    requires ticker != []
    ensures var t, r := Normalize(ticker), MapTickerToYahoo(ticker, SahamIndonesia);
      && EndsWith(r, ".JK")
      && (EndsWith(t, ".JK") ==> r == t)
      && (!EndsWith(t, ".JK") ==> r == t + ".JK")
  {
    EndsWithConcat(Normalize(ticker), IdxSuffix);
  }

  /** Any other market: the ticker is only trimmed and upper-cased. */
  lemma OtherMarketMapping(ticker: string, marketType: string)
    requires marketType != Forex && marketType != SahamIndonesia
    ensures MapTickerToYahoo(ticker, marketType) == if ticker == [] then ticker else Normalize(ticker)
  {
  }

  lemma ForexSuffixNotOverridden(r: string)
    requires EndsWith(r, ForexSuffix)
    ensures r !in SpecialMap
  {
    assert r[|r| - 1] == 'X' by { assert r[|r| - 2..][1] == r[|r| - 1]; }
    assert "XAUUSD"[5] == 'D' && "XAGUSD"[5] == 'D';
  }

  /** Mapping a mapped symbol again changes nothing, except after a metal override. */
  lemma MapTickerIdempotent(ticker: string, marketType: string)
    requires !(marketType == Forex && ticker != [] && Normalize(ticker) in SpecialMap)
    ensures var r := MapTickerToYahoo(ticker, marketType);
      MapTickerToYahoo(r, marketType) == r
  {
    var r := MapTickerToYahoo(ticker, marketType);
    if r != [] {
      NormalizeFixesNormal(r);
      if marketType == Forex {
        ForexMapping(ticker);
        ForexSuffixNotOverridden(r);
      } else if marketType == SahamIndonesia {
        IdxMapping(ticker);
      }
    }
  }

  /** A ticker that starts and ends with a visible character is not trimmed. */
  lemma StripOfVisible(s: string)
    requires s != [] && '!' <= s[0] <= '~' && '!' <= s[|s| - 1] <= '~'
    ensures Strip(s) == s
  {
    VisibleNotSpace(s[0]);
    VisibleNotSpace(s[|s| - 1]);
    assert TrimLeft(s) == s;
  }

  lemma StripTypedGold()
    ensures Strip("xauusd") == "xauusd"
  {
    StripOfVisible("xauusd");
  }

  lemma UpperTypedGold()
    ensures Upper("xauusd") == "XAUUSD"
  {
    var u := Upper("xauusd");
    assert u[0] == 'X' && u[1] == 'A' && u[2] == 'U';
    assert u[3] == 'U' && u[4] == 'S' && u[5] == 'D';
  }

  lemma NormalizeTypedGold()
    ensures Normalize("xauusd") == "XAUUSD"
  {
    StripTypedGold();
    UpperTypedGold();
  }

  lemma GoldCodeIsNormal()
    ensures IsNormal("XAUUSD")
  {
    LiteralIsNormal("XAUUSD");
  }

  lemma GoldKey()
    ensures "XAUUSD" in SpecialMap && SpecialMap["XAUUSD"] == "GC=F"
  {
  }

  lemma GoldFutures()
    ensures ForMarket("XAUUSD", Forex) == "GC=F"
  {
    GoldCodeIsNormal();
    GoldKey();
  }

  /** Spot gold typed in lower case is sent to the provider as the gold futures code. */
  lemma GoldOverride()
    ensures MapTickerToYahoo("xauusd", Forex) == "GC=F"
  {
    NormalizeTypedGold();
    GoldFutures();
  }

  lemma FuturesCodeIsNormal()
    ensures Normalize("GC=F") == "GC=F"
  {
    LiteralIsNormal("GC=F");
  }

  lemma FuturesCodeNotOverridden()
    ensures "GC=F" !in SpecialMap
  {
    var gc := "GC=F";
    assert gc[0] != "XAUUSD"[0] && gc[0] != "XAGUSD"[0];
  }

  lemma FuturesCodeHasNoPairSuffix()
    ensures !EndsWith("GC=F", ForexSuffix)
  {
    var gc := "GC=F";
    assert gc[3] != ForexSuffix[1];
  }

  lemma FuturesCodeAsPair()
    ensures ForMarket("GC=F", Forex) == "GC=F=X"
  {
    FuturesCodeIsNormal();
    FuturesCodeNotOverridden();
    FuturesCodeHasNoPairSuffix();
  }

  /** The override is not idempotent: the futures code is read back as a currency pair. */
  lemma FuturesCodeReadAsPair()
    ensures MapTickerToYahoo("GC=F", Forex) == "GC=F=X"
  {
    FuturesCodeIsNormal();
    FuturesCodeAsPair();
  }

  lemma StripTypedBbca()
    ensures Strip("bbca") == "bbca"
  {
    StripOfVisible("bbca");
  }

  lemma UpperTypedBbca()
    ensures Upper("bbca") == "BBCA"
  {
    var u := Upper("bbca");
    assert u[0] == 'B' && u[1] == 'B' && u[2] == 'C' && u[3] == 'A';
  }

  lemma NormalizeTypedBbca()
    ensures Normalize("bbca") == "BBCA"
  {
    StripTypedBbca();
    UpperTypedBbca();
  }

  lemma BbcaHasNoIdxSuffix()
    ensures !EndsWith("BBCA", IdxSuffix)
  {
    assert "BBCA"[1] != IdxSuffix[0];
  }

  lemma IdxSuffixAdded()
    ensures ForMarket("BBCA", SahamIndonesia) == "BBCA.JK"
  {
    NormalizeTypedBbca();
    BbcaHasNoIdxSuffix();
  }

  /** An Indonesian share code typed in lower case gets the exchange suffix. */
  lemma IdxExample()
    ensures MapTickerToYahoo("bbca", SahamIndonesia) == "BBCA.JK"
  {
    NormalizeTypedBbca();
    IdxSuffixAdded();
  }

  lemma CryptoPairIsNormal()
    ensures IsNormal("BTC-USD") && Normalize("BTC-USD") == "BTC-USD"
  {
    LiteralIsNormal("BTC-USD");
  }

  lemma CryptoPassesThrough()
    ensures ForMarket("BTC-USD", "Crypto") == "BTC-USD"
  {
    CryptoPairIsNormal();
  }

  /** A crypto pair passes through unchanged. */
  lemma CryptoExample()
    ensures MapTickerToYahoo("BTC-USD", "Crypto") == "BTC-USD"
  {
    CryptoPairIsNormal();
    CryptoPassesThrough();
  }

  // ---------------------------------------------------------------------------
  // Case-insensitivity

  /** Upper-casing commutes with cutting leading whitespace. */
  lemma {:induction false} TrimLeftUpper(s: string)
    ensures TrimLeft(Upper(s)) == Upper(TrimLeft(s))
    decreases |s|
  {
    if |s| > 0 && IsSpace(s[0]) {
      assert Upper(s)[1..] == Upper(s[1..]);
      TrimLeftUpper(s[1..]);
    }
  }

  /** Upper-casing commutes with cutting trailing whitespace. */
  lemma {:induction false} TrimRightUpper(s: string)
    ensures TrimRight(Upper(s)) == Upper(TrimRight(s))
    decreases |s|
  {
    if |s| > 0 && IsSpace(s[|s| - 1]) {
      assert Upper(s)[..|s| - 1] == Upper(s[..|s| - 1]);
      TrimRightUpper(s[..|s| - 1]);
    }
  }

  /** Normalising depends only on the upper-cased ticker. */
  lemma NormalizeCaseInsensitive(a: string, b: string)
    requires Upper(a) == Upper(b)
    ensures Normalize(a) == Normalize(b)
  {
    TrimLeftUpper(a);
    TrimRightUpper(TrimLeft(a));
    TrimLeftUpper(b);
    TrimRightUpper(TrimLeft(b));
  }

  /** The mapping ignores the case the user typed the ticker in. */
  lemma MapTickerCaseInsensitive(a: string, b: string, marketType: string)
    requires Upper(a) == Upper(b)
    ensures MapTickerToYahoo(a, marketType) == MapTickerToYahoo(b, marketType)
  {
    NormalizeCaseInsensitive(a, b);
  }

  lemma UpperMixedCaseGold()
    ensures Upper("XauUsd") == "XAUUSD"
  {
    var u := Upper("XauUsd");
    assert u[0] == 'X' && u[1] == 'A' && u[2] == 'U';
    assert u[3] == 'U' && u[4] == 'S' && u[5] == 'D';
  }

  /** For example, "XauUsd" is the same Forex ticker as "xauusd". */
  lemma MixedCaseGold()
    ensures MapTickerToYahoo("XauUsd", Forex) == "GC=F"
  {
    UpperMixedCaseGold();
    UpperTypedGold();
    MapTickerCaseInsensitive("XauUsd", "xauusd", Forex);
    GoldOverride();
  }
}
