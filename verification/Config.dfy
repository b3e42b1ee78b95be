/** The part of the server configuration that the other modules rest on: rate rules and the token list. */
module Config {
  import opened Wrappers

  /** Requests allowed per minute, and how many of them may come at once. */
  datatype RateRule = RateRule(perMinute: nat, burst: nat)

  /** The only constructor the configuration loader uses: a zero rate becomes one request per minute. */
  function NewRateRule(perMinute: nat): (rule: RateRule)
    ensures 1 <= rule.burst == rule.perMinute <= 10 * rule.perMinute
    ensures rule.perMinute == perMinute <==> perMinute >= 1
    ensures perMinute == 0 ==> rule.perMinute == 1
  {
    var clamped := if perMinute < 1 then 1 else perMinute;
    RateRule(clamped, clamped)
  }

  // ---------------------------------------------------------------- text

  const U32_MAX: nat := 0xFFFF_FFFF

  /** Unicode white space. */
  predicate IsSpace(c: char) {
    || c == ' ' || '\t' <= c <= '\r' || c == '\U{85}' || c == '\U{A0}' || c == '\U{1680}'
    || '\U{2000}' <= c <= '\U{200A}' || c == '\U{2028}' || c == '\U{2029}' || c == '\U{202F}'
    || c == '\U{205F}' || c == '\U{3000}'
  }

  function Trim(s: string): string {
    if s == "" then s
    else if IsSpace(s[0]) then Trim(s[1..])
    else if IsSpace(s[|s| - 1]) then Trim(s[..|s| - 1])
    else s
  }

  function Split(s: string, sep: char): (parts: seq<string>)
    ensures parts != []
  {
    if s == "" then [""]
    else
      var rest := Split(s[1..], sep);
      if s[0] == sep then [""] + rest else [[s[0]] + rest[0]] + rest[1..]
  }

  function ParseDigits(s: string): Option<nat> {
    if s == "" then Some(0)
    else
      var (before, last) := (ParseDigits(s[..|s| - 1]), s[|s| - 1]);
      if before.Some? && '0' <= last <= '9' then Some(10 * before.value + (last - '0') as nat) else None
  }

  /** A decimal number that fits 32 bits, with an optional plus sign. */
  function ParseU32(s: string): Option<nat> {
    var digits := if s != "" && s[0] == '+' then s[1..] else s;
    var value := ParseDigits(digits);
    if digits != "" && value.Some? && value.value <= U32_MAX then value else None
  }

  // ---------------------------------------------------------------- the token list

  datatype Principal = Principal(name: string, rate: RateRule)

  datatype Auth = Disabled | Tokens(tokens: map<string, Principal>)

  datatype ConfigError = BadRate(rpm: string) | BadEntry(entry: string)

  function ParseEntry(entry: string, fallback: RateRule): Result<(string, Principal), ConfigError> {
    var parts := Split(entry, ':');
    if |parts| == 1 then Ok((parts[0], Principal(parts[0], fallback)))
    else if |parts| == 2 then Ok((parts[1], Principal(parts[0], fallback)))
    else if |parts| == 3 then
      match ParseU32(parts[2])
      case Some(perMinute) => Ok((parts[1], Principal(parts[0], NewRateRule(perMinute))))
      case None => Err(BadRate(parts[2]))
    else Err(BadEntry(entry))
  }

  /** The entries among these pieces, in order, later ones overwriting earlier ones with the same token. */
  function Parsed(pieces: seq<string>, fallback: RateRule): Result<map<string, Principal>, ConfigError> {
    if pieces == [] then Ok(map[])
    else
      match Parsed(pieces[..|pieces| - 1], fallback)
      case Err(e) => Err(e)
      case Ok(tokens) =>
        var entry := Trim(pieces[|pieces| - 1]);
        if entry == "" then Ok(tokens)
        else
          match ParseEntry(entry, fallback)
          case Err(e) => Err(e)
          case Ok((token, principal)) => Ok(tokens[token := principal])
  }

  function Loaded(raw: Option<string>, fallback: RateRule): Result<Auth, ConfigError> {
    if raw.None? || Trim(raw.value) == "" then Ok(Disabled)
    else
      match Parsed(Split(raw.value, ','), fallback)
      case Err(e) => Err(e)
      case Ok(tokens) => Ok(if tokens == map[] then Disabled else Tokens(tokens))
  }

  method LoadAuth(raw: Option<string>, fallback: RateRule) returns (r: Result<Auth, ConfigError>)
    ensures r == Loaded(raw, fallback)
  {
    hide Trim, Split, ParseEntry;
    if raw.None? || Trim(raw.value) == "" {
      return Ok(Disabled);
    }
    var pieces := Split(raw.value, ',');
    var tokens: map<string, Principal> := map[];
    for i := 0 to |pieces|
      invariant Parsed(pieces[..i], fallback) == Ok(tokens)
    {
      assert pieces[..i + 1][..i] == pieces[..i];
      var entry := Trim(pieces[i]);
      if entry != "" {
        var parsed := ParseEntry(entry, fallback);
        if parsed.Err? {
          ErrorsStay(pieces, i + 1, fallback);
          return Err(parsed.error);
        }
        tokens := tokens[parsed.value.0 := parsed.value.1];
      }
    }
    assert pieces[..|pieces|] == pieces;
    return Ok(if |tokens| == 0 then Disabled else Tokens(tokens));
  }

  /** The first bad entry is the one reported. */
  lemma {:induction false} ErrorsStay(pieces: seq<string>, n: nat, fallback: RateRule)
    requires n <= |pieces| && Parsed(pieces[..n], fallback).Err?
    ensures Parsed(pieces, fallback) == Parsed(pieces[..n], fallback)
    decreases |pieces|
  {
    if n == |pieces| {
      assert pieces[..n] == pieces;
    } else {
      var earlier := pieces[..|pieces| - 1];
      assert earlier[..n] == pieces[..n];
      ErrorsStay(earlier, n, fallback);
    }
  }

  // ---------------------------------------------------------------- printing and parsing again

  /** The three forms of an entry: `token`, `name:token` and `name:token:rate`. */
  datatype TokenEntry =
    | JustToken(token: string)
    | Named(name: string, token: string)
    | Rated(name: string, token: string, perMinute: nat)

  /** Who the entry lets in, and at what rate. */
  function PrincipalOf(e: TokenEntry, fallback: RateRule): Principal {
    match e
    case JustToken(token) => Principal(token, fallback)
    case Named(name, _) => Principal(name, fallback)
    case Rated(name, _, perMinute) => Principal(name, NewRateRule(perMinute))
  }

  predicate Separated(s: string) {
    ',' !in s && ':' !in s
  }

  /** What can be written in the list: no separators, and no space at either end for trimming to eat. */
  predicate Writable(e: TokenEntry) {
    && Separated(e.token)
    && match e
       case JustToken(token) => token != "" && !IsSpace(token[0]) && !IsSpace(token[|token| - 1])
       case Named(name, token) =>
         && Separated(name) && (name != "" ==> !IsSpace(name[0]))
         && (token != "" ==> !IsSpace(token[|token| - 1]))
       case Rated(name, _, perMinute) =>
         Separated(name) && (name != "" ==> !IsSpace(name[0])) && perMinute <= U32_MAX
  }

  function Decimal(n: nat): (s: string)
    ensures s != "" && forall c :: c in s ==> '0' <= c <= '9'
  {
    var digit := [('0' as int + n % 10) as char];
    if n < 10 then digit else Decimal(n / 10) + digit
  }

  function Written(e: TokenEntry): string {
    match e
    case JustToken(token) => token
    case Named(name, token) => name + [':'] + token
    case Rated(name, token, perMinute) => name + [':'] + (token + [':'] + Decimal(perMinute))
  }

  function WrittenAll(entries: seq<TokenEntry>): string {
    if entries == [] then ""
    else if |entries| == 1 then Written(entries[0])
    else Written(entries[0]) + [','] + WrittenAll(entries[1..])
  }

  function Pieces(entries: seq<TokenEntry>): seq<string> {
    seq(|entries|, i requires 0 <= i < |entries| => Written(entries[i]))
  }

  /** Every entry's principal under its token, later entries overwriting earlier ones. */
  function LastWords(entries: seq<TokenEntry>, fallback: RateRule): map<string, Principal> {
    if entries == [] then map[]
    else
      var last := entries[|entries| - 1];
      LastWords(entries[..|entries| - 1], fallback)[last.token := PrincipalOf(last, fallback)]
  }

  lemma {:induction false} SplitAtFirst(a: string, sep: char, b: string)
    requires sep !in a
    ensures Split(a + [sep] + b, sep) == [a] + Split(b, sep)
  {
    var s := a + [sep] + b;
    if a == "" {
      assert s[1..] == b;
    } else {
      SplitAtFirst(a[1..], sep, b);
      assert s[1..] == a[1..] + [sep] + b;
      assert ([a[1..]] + Split(b, sep))[1..] == Split(b, sep);
      assert s[0] == a[0] && [a[0]] + a[1..] == a;
    }
  }

  lemma {:induction false} SplitNowhere(s: string, sep: char)
    requires sep !in s
    ensures Split(s, sep) == [s]
  {
    if s != "" {
      SplitNowhere(s[1..], sep);
      assert [s[0]] + s[1..] == s;
    }
  }

  lemma {:induction false} DigitsOfDecimal(n: nat)
    ensures ParseDigits(Decimal(n)) == Some(n)
  {
    var s := Decimal(n);
    if n >= 10 {
      DigitsOfDecimal(n / 10);
      assert s[..|s| - 1] == Decimal(n / 10);
    } else {
      assert s[..|s| - 1] == "";
    }
  }

  lemma DecimalParses(n: nat)
    requires n <= U32_MAX
    ensures ParseU32(Decimal(n)) == Some(n)
  {
    DigitsOfDecimal(n);
    assert Decimal(n)[0] in Decimal(n);
  }

  lemma WrittenSplits(e: TokenEntry)
    requires Writable(e)
    ensures Split(Written(e), ':') ==
              match e
              case JustToken(token) => [token]
              case Named(name, token) => [name, token]
              case Rated(name, token, perMinute) => [name, token, Decimal(perMinute)]
  {
    hide Split, IsSpace;
    SplitNowhere(e.token, ':');
    match e
    case JustToken(_) =>
    case Named(name, token) => SplitAtFirst(name, ':', token);
    case Rated(name, token, perMinute) =>
      SplitAtFirst(name, ':', token + [':'] + Decimal(perMinute));
      SplitAtFirst(token, ':', Decimal(perMinute));
      SplitNowhere(Decimal(perMinute), ':');
  }

  lemma WrittenIsInk(e: TokenEntry)
    requires Writable(e)
    ensures ',' !in Written(e) && Written(e) != "" && !IsSpace(Written(e)[0]) && Trim(Written(e)) == Written(e)
  {
    var s := Written(e);
    match e
    case JustToken(_) =>
    case Named(name, token) =>
      assert s[0] == if name == "" then ':' else name[0];
      assert s[|s| - 1] == if token == "" then ':' else token[|token| - 1];
    case Rated(name, _, perMinute) =>
      var digits := Decimal(perMinute);
      assert s[|s| - 1] == digits[|digits| - 1];
      assert digits[|digits| - 1] in digits;
      assert s[0] == if name == "" then ':' else name[0];
  }

  lemma WrittenParses(e: TokenEntry, fallback: RateRule)
    requires Writable(e)
    ensures ParseEntry(Written(e), fallback) == Ok((e.token, PrincipalOf(e, fallback)))
  {
    WrittenSplits(e);
    if e.Rated? {
      DecimalParses(e.perMinute);
    }
    hide Split, Decimal, ParseU32;
  }

  lemma {:induction false} SplitCounts(s: string, sep: char)
    ensures |Split(s, sep)| == multiset(s)[sep] + 1
  {
    if s != "" {
      SplitCounts(s[1..], sep);
      assert s == [s[0]] + s[1..];
    }
  }

  /** An entry is refused exactly for having more than three parts, or a third part that is not a 32-bit number. */
  lemma EntryFailsIff(entry: string, fallback: RateRule)
    ensures ParseEntry(entry, fallback) == Err(BadEntry(entry)) <==> multiset(entry)[':'] > 2
    ensures forall rpm :: ParseEntry(entry, fallback) == Err(BadRate(rpm)) <==>
              |Split(entry, ':')| == 3 && rpm == Split(entry, ':')[2] && ParseU32(rpm).None?
  {
    SplitCounts(entry, ':');
    hide Split, ParseU32;
  }

  /** Space around an entry does not matter. */
  lemma {:induction false} PaddingIsTrimmed(before: string, s: string, after: string)
    requires (forall c :: c in before ==> IsSpace(c)) && (forall c :: c in after ==> IsSpace(c))
    requires s != "" ==> !IsSpace(s[0]) && !IsSpace(s[|s| - 1])
    ensures Trim(before + s + after) == s
    decreases |before| + |after|
  {
    hide IsSpace;
    var padded := before + s + after;
    if before != "" {
      assert padded[0] == before[0] && padded[1..] == before[1..] + s + after;
      PaddingIsTrimmed(before[1..], s, after);
    } else if after != "" {
      var rest := after[..|after| - 1];
      PaddingIsTrimmed("", s, rest);
      assert padded[|padded| - 1] == after[|after| - 1] && after[|after| - 1] in after;
      assert padded[..|padded| - 1] == "" + s + rest;
      if s == "" {
        assert padded[0] == after[0] && padded[1..] == "" + s + after[1..];
        PaddingIsTrimmed("", s, after[1..]);
      }
    } else {
      assert padded == s;
    }
  }

  lemma {:induction false} AllWrittenSplit(entries: seq<TokenEntry>)
    requires entries != [] && forall i :: 0 <= i < |entries| ==> ',' !in Written(entries[i])
    ensures Split(WrittenAll(entries), ',') == Pieces(entries)
  {
    hide Written, Split;
    if |entries| == 1 {
      SplitNowhere(Written(entries[0]), ',');
      assert Pieces(entries) == [Written(entries[0])];
    } else {
      SplitAtFirst(Written(entries[0]), ',', WrittenAll(entries[1..]));
      AllWrittenSplit(entries[1..]);
      assert Pieces(entries) == [Written(entries[0])] + Pieces(entries[1..]);
    }
  }

  lemma {:induction false} AllWrittenParse(entries: seq<TokenEntry>, fallback: RateRule)
    requires forall i :: 0 <= i < |entries| ==> Writable(entries[i])
    ensures Parsed(Pieces(entries), fallback) == Ok(LastWords(entries, fallback))
  {
    var pieces := Pieces(entries);
    if entries != [] {
      var earlier := entries[..|entries| - 1];
      AllWrittenParse(earlier, fallback);
      assert pieces[..|pieces| - 1] == Pieces(earlier);
      WrittenParses(entries[|entries| - 1], fallback);
      WrittenIsInk(entries[|entries| - 1]);
      hide ParseEntry, Trim, Written;
    }
  }

  /** A list of entries, written out, loads as those entries: every one, with the last word on each token. */
  lemma LoadUndoesWrite(entries: seq<TokenEntry>, fallback: RateRule)
    requires forall i :: 0 <= i < |entries| ==> Writable(entries[i])
    ensures Loaded(Some(WrittenAll(entries)), fallback)
            == Ok(if entries == [] then Disabled else Tokens(LastWords(entries, fallback)))
  {
    if entries != [] {
      forall i | 0 <= i < |entries| ensures ',' !in Written(entries[i]) {
        WrittenIsInk(entries[i]);
      }
      assert entries[|entries| - 1].token in LastWords(entries, fallback);
      hide Parsed, Split, Trim, Written, Writable, IsSpace, WrittenAll, LastWords, Pieces;
      AllWrittenSplit(entries);
      AllWrittenParse(entries, fallback);
      AllWrittenIsInk(entries);
    }
  }

  lemma AllWrittenIsInk(entries: seq<TokenEntry>)
    requires entries != [] && Writable(entries[0])
    ensures Trim(WrittenAll(entries)) != ""
  {
    WrittenIsInk(entries[0]);
    assert WrittenAll(entries)[0] == Written(entries[0])[0];
    TrimKeepsInk(WrittenAll(entries));
  }

  lemma {:induction false} TrimKeepsInk(s: string)
    requires s != "" && !IsSpace(s[0])
    ensures Trim(s) != ""
  {
    if |s| > 1 && IsSpace(s[|s| - 1]) {
      TrimKeepsInk(s[..|s| - 1]);
    }
  }

  // ---------------------------------------------------------------- odd spellings

  /** The characters that trimming eats are Unicode's white space, one by one. */
  lemma WhiteSpaceIs(c: char)
    ensures IsSpace(c) <==>
              || c == ' ' || c == '\t' || c == '\n' || c == '\U{B}' || c == '\U{C}' || c == '\r' || c == '\U{85}'
              || c == '\U{A0}' || c == '\U{1680}' || c == '\U{2000}' || c == '\U{2001}' || c == '\U{2002}'
              || c == '\U{2003}' || c == '\U{2004}' || c == '\U{2005}' || c == '\U{2006}' || c == '\U{2007}'
              || c == '\U{2008}' || c == '\U{2009}' || c == '\U{200A}' || c == '\U{2028}' || c == '\U{2029}'
              || c == '\U{202F}' || c == '\U{205F}' || c == '\U{3000}'
  {
  }

  predicate IsNumeral(s: string) {
    forall i :: 0 <= i < |s| ==> '0' <= s[i] <= '9'
  }

  lemma {:induction false} OnlyDigitsParse(s: string)
    ensures ParseDigits(s).Some? <==> IsNumeral(s)
  {
    if s != "" {
      var before := s[..|s| - 1];
      OnlyDigitsParse(before);
      assert forall i :: 0 <= i < |before| ==> before[i] == s[i];
    }
  }

  lemma {:induction false} LeadingZeroIsNothing(s: string)
    ensures ParseDigits("0" + s) == ParseDigits(s)
  {
    var padded := "0" + s;
    if s == "" {
      assert padded[..0] == "";
    } else {
      LeadingZeroIsNothing(s[..|s| - 1]);
      assert padded[..|padded| - 1] == "0" + s[..|s| - 1];
    }
  }

  /**
   Numbers, however written: every number up to the 32-bit limit and none above it; a plus sign
   and leading zeros change nothing; anything but digits after the sign, or nothing, is no number.
   */
  lemma NumbersAreRead(n: nat, s: string)
    ensures ParseU32(Decimal(n)) == if n < 0x1_0000_0000 then Some(n) else None
    ensures IsNumeral(s) ==> ParseU32("+" + s) == ParseU32(s)
    ensures s != "" && s[0] != '+' ==> ParseU32("0" + s) == ParseU32(s)
    ensures ParseU32("") == None
    ensures s != "" && s[0] != '+' && !IsNumeral(s) ==>
              ParseU32(s) == None && ParseU32("+" + s) == None
  {
    DigitsOfDecimal(n);
    assert Decimal(n)[0] in Decimal(n);
    OnlyDigitsParse(s);
    LeadingZeroIsNothing(s);
    assert ("+" + s)[1..] == s;
    hide ParseDigits, Decimal;
  }

  /** No list, a blank one, or one of blank pieces, turns tokens off. */
  lemma BlankListsDisable(raw: Option<string>, fallback: RateRule)
    requires raw.Some? ==> forall i :: 0 <= i < |Split(raw.value, ',')| ==> Trim(Split(raw.value, ',')[i]) == ""
    ensures Loaded(raw, fallback) == Ok(Disabled)
  {
    if raw.Some? {
      BlankPiecesAreSkipped(Split(raw.value, ','), fallback);
    }
  }

  lemma {:induction false} BlankPiecesAreSkipped(pieces: seq<string>, fallback: RateRule)
    requires forall i :: 0 <= i < |pieces| ==> Trim(pieces[i]) == ""
    ensures Parsed(pieces, fallback) == Ok(map[])
  {
    if pieces != [] {
      BlankPiecesAreSkipped(pieces[..|pieces| - 1], fallback);
    }
  }
}
