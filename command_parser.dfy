/**
  The base station's text command parser: `splitDelimiter`, which splits a
  string the way repeated `std::getline` calls on a string stream do, and
  `actuatorCommandParser`, which reads `key:value,key:value` into an
  `ActuatorCommand`, converting the timer with `std::stoi`.
 */
module CommandParser {
  import opened Network

  // ---------------------------------------------------------------------
  // splitDelimiter
  // ---------------------------------------------------------------------

  /**
    What the `getline` loop collects from `s` when the token read so far is
    `item`: characters accumulate until a delimiter, which closes the token and
    is consumed. At the end of the stream a non-empty pending token is the last
    one and an empty one is dropped: a `getline` call that finds the stream
    already at its end extracts nothing and ends the loop.
   */
  function SplitFrom(item: string, s: string, d: char): seq<string>
    decreases |s|
  {
    if s == [] then (if item == [] then [] else [item])
    else if s[0] == d then [item] + SplitFrom([], s[1..], d)
    else SplitFrom(item + [s[0]], s[1..], d)
  }

  /** The tokens `splitDelimiter(s, d)` returns. */
  function Split(s: string, d: char): seq<string>
  {
    SplitFrom([], s, d)
  }

  /** Tokens put back together with the delimiter between them. */
  function Join(tokens: seq<string>, d: char): string
    decreases |tokens|
  {
    if tokens == [] then []
    else if |tokens| == 1 then tokens[0]
    else tokens[0] + [d] + Join(tokens[1..], d)
  }

  lemma JoinCons(t: string, tokens: seq<string>, d: char)
    requires tokens != []
    ensures Join([t] + tokens, d) == t + [d] + Join(tokens, d)
  {
    assert ([t] + tokens)[1..] == tokens;
  }

  predicate EndsWith(s: string, d: char) { s != [] && s[|s| - 1] == d }

  /** The number of times `d` occurs in `s`. */
  function Occurrences(s: string, d: char): nat
    decreases |s|
  {
    if s == [] then 0 else (if s[0] == d then 1 else 0) + Occurrences(s[1..], d)
  }

  lemma {:induction false} OccurrencesMultiset(s: string, d: char)
    ensures Occurrences(s, d) == multiset(s)[d]
    decreases |s|
  {
    if s != [] {
      OccurrencesMultiset(s[1..], d);
      assert s == [s[0]] + s[1..];
      assert multiset(s) == multiset([s[0]]) + multiset(s[1..]);
    }
  }

  lemma {:induction false} SplitFromEmpty(item: string, s: string, d: char)
    ensures SplitFrom(item, s, d) == [] <==> item == [] && s == []
    decreases |s|
  {
    if s != [] && s[0] != d {
      SplitFromEmpty(item + [s[0]], s[1..], d);
    }
  }

  /** `splitDelimiter` returns no token exactly for the empty string. */
  lemma SplitNonEmpty(s: string, d: char)
    ensures s != [] <==> Split(s, d) != []
  {
    SplitFromEmpty([], s, d);
  }

  lemma {:induction false} SplitFromExcludesDelimiter(item: string, s: string, d: char)
    requires d !in item
    ensures forall k :: 0 <= k < |SplitFrom(item, s, d)| ==> d !in SplitFrom(item, s, d)[k]
    decreases |s|
  {
    if s != [] {
      if s[0] == d {
        SplitFromExcludesDelimiter([], s[1..], d);
      } else {
        SplitFromExcludesDelimiter(item + [s[0]], s[1..], d);
      }
    }
  }

  /** No token contains the delimiter. */
  lemma SplitTokensExcludeDelimiter(s: string, d: char)
    ensures forall k :: 0 <= k < |Split(s, d)| ==> d !in Split(s, d)[k]
  {
    SplitFromExcludesDelimiter([], s, d);
  }

  /** A pending token without the delimiter does not end with it. */
  lemma NotEndsWith(item: string, d: char)
    requires d !in item
    ensures !EndsWith(item, d)
  {
    if item != [] {
      assert item[|item| - 1] in item;
    }
  }

  /** Appending after a delimiter does not change whether the text ends with one. */
  lemma EndsWithAfter(prefix: string, rest: string, d: char)
    requires rest != []
    ensures EndsWith(prefix + rest, d) == EndsWith(rest, d)
  {
    assert (prefix + rest)[|prefix + rest| - 1] == rest[|rest| - 1];
  }

  /** A token closed by a delimiter, followed by tokens that join to `rest`. */
  lemma JoinAfterDelimiter(item: string, toks: seq<string>, tail: string, rest: string, d: char)
    requires toks != [] && Join(toks, d) + tail == rest
    ensures Join([item] + toks, d) + tail == item + [d] + rest
  {
    calc {
      Join([item] + toks, d) + tail;
      { JoinCons(item, toks, d); }
      (item + [d] + Join(toks, d)) + tail;
      item + [d] + (Join(toks, d) + tail);
    }
  }

  lemma {:induction false} JoinSplitFrom(item: string, s: string, d: char)
    requires d !in item
    ensures Join(SplitFrom(item, s, d), d) + (if EndsWith(item + s, d) then [d] else []) == item + s
    decreases |s|
  {
    if s == [] {
      assert item + s == item;
      NotEndsWith(item, d);
    } else if s[0] == d {
      var rest := s[1..];
      assert item + s == item + [d] + rest;
      if rest == [] {
        assert SplitFrom(item, s, d) == [item];
      } else {
        SplitFromEmpty([], rest, d);
        JoinSplitFrom([], rest, d);
        assert [] + rest == rest;
        EndsWithAfter(item + [d], rest, d);
        JoinAfterDelimiter(item, SplitFrom([], rest, d), if EndsWith(rest, d) then [d] else [], rest, d);
      }
    } else {
      JoinSplitFrom(item + [s[0]], s[1..], d);
      assert (item + [s[0]]) + s[1..] == item + s;
    }
  }

  /**
    Joining the tokens gives the input back, except that a trailing delimiter
    is lost (it produced no token).
   */
  lemma JoinSplit(s: string, d: char)
    ensures Join(Split(s, d), d) + (if EndsWith(s, d) then [d] else []) == s
  {
    JoinSplitFrom([], s, d);
    assert [] + s == s;
  }

  lemma {:induction false} SplitFromLength(item: string, s: string, d: char)
    requires d !in item
    ensures |SplitFrom(item, s, d)| ==
      Occurrences(s, d) + (if item + s == [] || EndsWith(item + s, d) then 0 else 1)
    decreases |s|
  {
    if s == [] {
      assert item + s == item;
      NotEndsWith(item, d);
    } else if s[0] == d {
      var rest := s[1..];
      SplitFromLength([], rest, d);
      assert [] + rest == rest;
      assert item + s == item + [d] + rest;
      if rest != [] {
        EndsWithAfter(item + [d], rest, d);
      }
    } else {
      SplitFromLength(item + [s[0]], s[1..], d);
      assert (item + [s[0]]) + s[1..] == item + s;
    }
  }

  /**
    One token per delimiter, plus one for a non-empty tail: a trailing
    delimiter yields no trailing empty token, the empty input yields no token,
    and a leading delimiter yields a leading empty token.
   */
  lemma SplitCount(s: string, d: char)
    ensures |Split(s, d)| == multiset(s)[d] + (if s == [] || EndsWith(s, d) then 0 else 1)
    ensures s != [] && s[0] == d ==> Split(s, d)[0] == []
  {
    SplitFromLength([], s, d);
    OccurrencesMultiset(s, d);
    assert [] + s == s;
  }

  /** `splitDelimiter(str, delimiter)`: the `getline` loop, one character at a time. */
  method SplitDelimiter(str: string, delimiter: char) returns (result: seq<string>)
    ensures result == Split(str, delimiter)
  {
    result := [];
    var item: string := [];
    var i := 0;
    assert str[i..] == str;
    while i < |str|
      invariant 0 <= i <= |str|
      invariant Split(str, delimiter) == result + SplitFrom(item, str[i..], delimiter)
    {
      assert str[i..][1..] == str[i + 1..];
      if str[i] == delimiter {
        assert result + SplitFrom(item, str[i..], delimiter)
          == (result + [item]) + SplitFrom([], str[i + 1..], delimiter);
        result := result + [item];
        item := [];
      } else {
        item := item + [str[i]];
      }
      i := i + 1;
    }
    assert str[i..] == [];
    if item != [] {
      result := result + [item];
    }
  }

  // ---------------------------------------------------------------------
  // std::stoi on a well-formed value
  // ---------------------------------------------------------------------

  const INT_MIN: int := -0x8000_0000
  const INT_MAX: int := 0x7FFF_FFFF

  predicate IsDigit(c: char) { '0' <= c <= '9' }

  predicate IsSpace(c: char) { c == ' ' || c == '\t' || c == '\n' || c == '\r' || c as int == 11 || c as int == 12 }

  /** Length of the leading run of characters satisfying `IsSpace`. */
  function SpaceRun(t: string): (n: nat)
    ensures n <= |t|
    ensures forall k :: 0 <= k < n ==> IsSpace(t[k])
    ensures n < |t| ==> !IsSpace(t[n])
  {
    if t == [] || !IsSpace(t[0]) then 0 else 1 + SpaceRun(t[1..])
  }

  /** Length of the leading run of decimal digits. */
  function DigitRun(t: string): (n: nat)
    ensures n <= |t|
    ensures forall k :: 0 <= k < n ==> IsDigit(t[k])
    ensures n < |t| ==> !IsDigit(t[n])
  {
    if t == [] || !IsDigit(t[0]) then 0 else 1 + DigitRun(t[1..])
  }

  function DigitValue(c: char): nat
    requires IsDigit(c)
  {
    c as int - '0' as int
  }

  /** The value of a string of decimal digits. */
  function DigitsValue(t: string): nat
    requires forall k :: 0 <= k < |t| ==> IsDigit(t[k])
    decreases |t|
  {
    if t == [] then 0 else DigitsValue(t[..|t| - 1]) * 10 + DigitValue(t[|t| - 1])
  }

  /** The text after leading white space, without an optional sign. */
  function Unsigned(t: string): string
  {
    var u := t[SpaceRun(t)..];
    if u != [] && (u[0] == '-' || u[0] == '+') then u[1..] else u
  }

  predicate Negative(t: string)
  {
    var u := t[SpaceRun(t)..];
    u != [] && u[0] == '-'
  }

  /** The number `stoi` reads: optional white space and sign, then the longest run of digits. */
  function StoiValue(t: string): int
  {
    var u := Unsigned(t);
    var n: int := DigitsValue(u[..DigitRun(u)]);
    if Negative(t) then -n else n
  }

  /** `stoi` returns rather than throwing: at least one digit, and the value fits an `int`. */
  predicate StoiDefined(t: string)
  {
    DigitRun(Unsigned(t)) > 0 && INT_MIN <= StoiValue(t) <= INT_MAX
  }

  /** `(uint16_t) stoi(t)`: the conversion to unsigned 16 bits keeps the value mod 65536. */
  function TimerValue(t: string): uint16
    requires StoiDefined(t)
  {
    StoiValue(t) % U16_RANGE
  }

  /** The conversion keeps a value in 0..65535 and is congruent to it mod 65536 in every case. */
  lemma TimerTruncation(t: string)
    requires StoiDefined(t)
    ensures 0 <= StoiValue(t) < U16_RANGE ==> TimerValue(t) == StoiValue(t)
    ensures (TimerValue(t) - StoiValue(t)) % U16_RANGE == 0
  {
  }

  /** The decimal text of a natural number, without sign or leading zeros. */
  function Decimal(n: nat): (t: string)
    ensures |t| > 0 && forall k :: 0 <= k < |t| ==> IsDigit(t[k])
  {
    if n < 10 then [('0' as int + n) as char] else Decimal(n / 10) + [('0' as int + n % 10) as char]
  }

  lemma {:induction false} DigitsValueDecimal(n: nat)
    ensures DigitsValue(Decimal(n)) == n
  {
    var t := Decimal(n);
    if n >= 10 {
      DigitsValueDecimal(n / 10);
      assert t[..|t| - 1] == Decimal(n / 10);
    }
  }

  /** Reading back the decimal text of any `int`-sized natural gives the number. */
  lemma StoiDecimal(n: nat)
    requires n <= INT_MAX
    ensures StoiDefined(Decimal(n)) && StoiValue(Decimal(n)) == n
  {
    var t := Decimal(n);
    assert SpaceRun(t) == 0;
    assert t[0..] == t;
    assert Unsigned(t) == t && !Negative(t);
    assert DigitRun(t) == |t|;
    assert t[..|t|] == t;
    DigitsValueDecimal(n);
  }

  // ---------------------------------------------------------------------
  // actuatorCommandParser
  // ---------------------------------------------------------------------

  /**
    The command the parser returns. `command` is never initialised in the
    source, so a field no token assigns is `None` (indeterminate).
   */
  datatype ParsedCommand = ParsedCommand(status: Option<bool>, timer: Option<uint16>)

  const UNSET: ParsedCommand := ParsedCommand(None, None)

  /**
    The fields of a token split at ':' that the source can process without
    reading past the end of the fields or `stoi` throwing: there is a key,
    `status` and `timer` have a value, and a timer value is a number `stoi`
    accepts.
   */
  predicate WellFormedFields(v: seq<string>)
  {
    && |v| >= 1
    && (v[0] == "status" ==> |v| >= 2)
    && (v[0] == "timer" ==> |v| >= 2 && StoiDefined(v[1]))
  }

  predicate WellFormed(vs: seq<seq<string>>)
  {
    forall k :: 0 <= k < |vs| ==> WellFormedFields(vs[k])
  }

  /** Every comma-separated token split at ':'. */
  function FieldsOf(str: string): seq<seq<string>>
  {
    var toks := Split(str, ',');
    seq(|toks|, k requires 0 <= k < |toks| => Split(toks[k], ':'))
  }

  /** The body of the `for` loop for one token. */
  function ApplyFields(c: ParsedCommand, v: seq<string>): ParsedCommand
    requires WellFormedFields(v)
  {
    var c' := if v[0] == "status" then c.(status := Some(v[1] == "on")) else c;
    if v[0] == "timer" then c'.(timer := Some(TimerValue(v[1]))) else c'
  }

  /** The parser's loop over the tokens, in order. */
  function ParseFields(vs: seq<seq<string>>): ParsedCommand
    requires WellFormed(vs)
    decreases |vs|
  {
    if vs == [] then UNSET else ApplyFields(ParseFields(vs[..|vs| - 1]), vs[|vs| - 1])
  }

  /** The last token holding `key`, if any. */
  predicate LastWithKey(vs: seq<seq<string>>, key: string, i: int)
    requires WellFormed(vs)
  {
    && 0 <= i < |vs| && vs[i][0] == key
    && forall j :: i < j < |vs| ==> vs[j][0] != key
  }

  /** The last token decides: one step of the loop, read field by field. */
  lemma ParseFieldsLast(vs: seq<seq<string>>)
    requires WellFormed(vs) && vs != []
    ensures var n := |vs| - 1;
      && WellFormed(vs[..n])
      && (forall j :: 0 <= j < n ==> vs[..n][j] == vs[j])
      && ParseFields(vs).status ==
           (if vs[n][0] == "status" then Some(vs[n][1] == "on") else ParseFields(vs[..n]).status)
      && ParseFields(vs).timer ==
           (if vs[n][0] == "timer" then Some(TimerValue(vs[n][1])) else ParseFields(vs[..n]).timer)
  {
    var n := |vs| - 1;
    assert forall j :: 0 <= j < n ==> vs[..n][j] == vs[j];
  }

  /**
    The parsed status is unset exactly when no token has the key `status`;
    otherwise it is decided by the last such token alone and is true only for
    the exact value "on". Tokens with other keys have no effect on it.
   */
  lemma {:induction false} ParseStatus(vs: seq<seq<string>>)
    requires WellFormed(vs)
    ensures ParseFields(vs).status.None? <==> forall j :: 0 <= j < |vs| ==> vs[j][0] != "status"
    ensures forall i :: LastWithKey(vs, "status", i) ==> ParseFields(vs).status == Some(vs[i][1] == "on")
    decreases |vs|
  {
    if vs != [] {
      var n := |vs| - 1;
      var init := vs[..n];
      ParseFieldsLast(vs);
      ParseStatus(init);
      forall i | LastWithKey(vs, "status", i)
        ensures ParseFields(vs).status == Some(vs[i][1] == "on")
      {
        if i < n {
          assert vs[n][0] != "status";
          assert init[i] == vs[i];
          assert LastWithKey(init, "status", i);
        } else {
          assert vs[n][0] == "status";
        }
      }
    }
  }

  /**
    The parsed timer is unset exactly when no token has the key `timer`;
    otherwise it is the last such token's value read by `stoi`, mod 65536.
    Tokens with other keys have no effect on it.
   */
  lemma {:induction false} ParseTimer(vs: seq<seq<string>>)
    requires WellFormed(vs)
    ensures ParseFields(vs).timer.None? <==> forall j :: 0 <= j < |vs| ==> vs[j][0] != "timer"
    ensures forall i :: LastWithKey(vs, "timer", i) ==> ParseFields(vs).timer == Some(TimerValue(vs[i][1]))
    decreases |vs|
  {
    if vs != [] {
      var n := |vs| - 1;
      var init := vs[..n];
      ParseFieldsLast(vs);
      ParseTimer(init);
      forall i | LastWithKey(vs, "timer", i)
        ensures ParseFields(vs).timer == Some(TimerValue(vs[i][1]))
      {
        if i < n {
          assert vs[n][0] != "timer";
          assert init[i] == vs[i];
          assert LastWithKey(init, "timer", i);
        } else {
          assert vs[n][0] == "timer";
        }
      }
    }
  }

  /** `actuatorCommandParser(str)`. */
  method ActuatorCommandParser(str: string) returns (command: ParsedCommand)
    requires WellFormed(FieldsOf(str))
    ensures command == ParseFields(FieldsOf(str))
  {
    ghost var vs := FieldsOf(str);
    command := UNSET;
    var s := SplitDelimiter(str, ',');
    for k := 0 to |s|
      invariant command == ParseFields(vs[..k])
    {
      var v := SplitDelimiter(s[k], ':');
      assert v == vs[k];
      if v[0] == "status" {
        if v[1] == "on" {
          command := command.(status := Some(true));
        } else {
          command := command.(status := Some(false));
        }
      }
      if v[0] == "timer" {
        command := command.(timer := Some(TimerValue(v[1])));
      }
      assert vs[..k + 1][..k] == vs[..k];
    }
    assert vs[..|s|] == vs;
  }
}
