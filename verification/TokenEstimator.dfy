/**
 Provider-weighted token estimation: one pass over the runes of a text that charges a word or a number once per
 run and every other rune by itself. Weights are exact reals; the Unicode tables are parameters.
 */
module TokenEstimator {
  import opened Numbers

  /** The library character classes the scanner consults. */
  datatype Unicode = Unicode(isSpace: int -> bool, isHan: int -> bool, isLetter: int -> bool, isNumber: int -> bool)

  datatype Provider = OpenAI | Gemini | Claude | Unknown

  datatype Multipliers = Multipliers(
    word: real, number: real, cjk: real, symbol: real, mathSymbol: real, urlDelim: real, atSign: real,
    emoji: real, newline: real, space: real, basePad: int)

  const GEMINI := Multipliers(1.15, 2.8, 0.68, 0.38, 1.05, 1.2, 2.5, 1.08, 1.15, 0.2, 0)
  const CLAUDE := Multipliers(1.13, 1.63, 1.21, 0.4, 4.52, 1.26, 2.82, 2.6, 0.89, 0.39, 0)
  const OPENAI := Multipliers(1.02, 1.55, 0.85, 0.4, 2.68, 1.0, 2.0, 2.12, 0.5, 0.42, 0)

  function GetMultipliers(p: Provider): Multipliers
  {
    match p
    case Gemini => GEMINI
    case Claude => CLAUDE
    case OpenAI => OPENAI
    case Unknown => OPENAI
  }

  // ---- character classes ----

  datatype Kind = Newline | Space | CJK | Emoji | Word | Number | Math | At | UrlDelim | Symbol

  predicate IsCJK(u: Unicode, r: int)
  {
    u.isHan(r) || 0x3040 <= r <= 0x30FF || 0xAC00 <= r <= 0xD7A3
  }

  predicate IsEmoji(r: int)
  {
    || 0x1F300 <= r <= 0x1F9FF
    || 0x2600 <= r <= 0x26FF
    || 0x2700 <= r <= 0x27BF
    || 0x1FA00 <= r <= 0x1FAFF
  }

  predicate IsLatinOrNumber(u: Unicode, r: int)
  {
    u.isLetter(r) || u.isNumber(r)
  }

  /** The listed symbols that lie outside the three operator blocks. */
  const MATH_SYMBOLS: set<int> := {
    0xB1, 0xD7, 0xF7, 0xAC, 0xB0, 0x2032, 0x2033, 0x2034,
    0x207A, 0x207B, 0x207C, 0x207D, 0x207E, 0x207F,
    0x2080, 0x2081, 0x2082, 0x2083, 0x2084, 0x2085, 0x2086, 0x2087, 0x2088, 0x2089,
    0x208A, 0x208B, 0x208C, 0x208D, 0x208E,
    0xB2, 0xB3, 0xB9, 0x2074, 0x2075, 0x2076, 0x2077, 0x2078, 0x2079, 0x2070 }

  predicate IsMathSymbol(r: int)
  {
    || r in MATH_SYMBOLS
    || 0x2200 <= r <= 0x22FF
    || 0x2A00 <= r <= 0x2AFF
    || 0x1D400 <= r <= 0x1D7FF
  }

  const URL_DELIMS: set<int> := {0x2F, 0x3A, 0x3F, 0x26, 0x3D, 0x3B, 0x23, 0x25}

  /** The class a rune is charged by; the order of the tests is the scanner's. */
  function Classify(u: Unicode, r: int): Kind
  {
    if u.isSpace(r) then (if r == 0x0A || r == 0x09 then Newline else Space)
    else if IsCJK(u, r) then CJK
    else if IsEmoji(r) then Emoji
    else if IsLatinOrNumber(u, r) then (if u.isNumber(r) then Number else Word)
    else if IsMathSymbol(r) then Math
    else if r == 0x40 then At
    else if r in URL_DELIMS then UrlDelim
    else Symbol
  }

  function Weight(m: Multipliers, k: Kind): real
  {
    match k
    case Newline => m.newline
    case Space => m.space
    case CJK => m.cjk
    case Emoji => m.emoji
    case Word => m.word
    case Number => m.number
    case Math => m.mathSymbol
    case At => m.atSign
    case UrlDelim => m.urlDelim
    case Symbol => m.symbol
  }

  predicate Groups(k: Kind)
  {
    k == Word || k == Number
  }

  // ---- what the estimate means: a charge per maximal run ----

  /** A run: one rune of a class charged singly, or some runes that are all letters or all numbers. */
  ghost predicate IsRun(u: Unicode, run: seq<int>)
  {
    && run != []
    && (forall i :: 0 <= i < |run| ==> Classify(u, run[i]) == Classify(u, run[0]))
    && (!Groups(Classify(u, run[0])) ==> |run| == 1)
  }

  function Flatten(runs: seq<seq<int>>): seq<int>
  {
    if runs == [] then [] else runs[0] + Flatten(runs[1..])
  }

  /** A division of a text into runs, none of which could be joined with its neighbour. */
  ghost predicate MaximalRuns(u: Unicode, text: seq<int>, runs: seq<seq<int>>)
  {
    && Flatten(runs) == text
    && (forall i :: 0 <= i < |runs| ==> IsRun(u, runs[i]))
    && forall i, j :: 0 <= i && j == i + 1 && j < |runs| ==> !Joins(u, runs[i], runs[j])
  }

  ghost predicate Joins(u: Unicode, a: seq<int>, b: seq<int>)
  {
    && a != [] && b != []
    && Groups(Classify(u, b[0]))
    && Classify(u, a[|a| - 1]) == Classify(u, b[0])
  }

  function Charge(u: Unicode, m: Multipliers, runs: seq<seq<int>>): real
    requires forall i :: 0 <= i < |runs| ==> runs[i] != []
  {
    if runs == [] then 0.0 else Weight(m, Classify(u, runs[0][0])) + Charge(u, m, runs[1..])
  }

  // ---- the scanner ----

  datatype WordType = NoWord | InWord | InNumber

  function WordTypeOf(k: Kind): WordType
  {
    match k
    case Word => InWord
    case Number => InNumber
    case _ => NoWord
  }

  /** The unrounded count of a text scanned from the given word state. */
  function Count(u: Unicode, m: Multipliers, text: seq<int>, current: WordType): real
  {
    if text == [] then 0.0
    else
      var k := Classify(u, text[0]);
      (if Groups(k) && current == WordTypeOf(k) then 0.0 else Weight(m, k))
      + Count(u, m, text[1..], WordTypeOf(k))
  }

  function Estimate(u: Unicode, p: Provider, text: seq<int>): int
  {
    Ceil(Count(u, GetMultipliers(p), text, NoWord)) + GetMultipliers(p).basePad
  }

  method EstimateToken(u: Unicode, provider: Provider, text: seq<int>) returns (tokens: int)
    ensures tokens == Estimate(u, provider, text)
    ensures forall runs :: MaximalRuns(u, text, runs) ==>
              tokens == Ceil(Charge(u, GetMultipliers(provider), runs)) + GetMultipliers(provider).basePad
  {
    var m := GetMultipliers(provider);
    var count := 0.0;
    var currentWordType := NoWord;
    for i := 0 to |text|
      invariant count + Count(u, m, text[i..], currentWordType) == Count(u, m, text, NoWord)
    {
      var r := text[i];
      assert text[i..][0] == r && text[i..][1..] == text[i + 1..];
      if u.isSpace(r) {
        currentWordType := NoWord;
        if r == 0x0A || r == 0x09 {
          count := count + m.newline;
        } else {
          count := count + m.space;
        }
        continue;
      }
      if IsCJK(u, r) {
        currentWordType := NoWord;
        count := count + m.cjk;
        continue;
      }
      if IsEmoji(r) {
        currentWordType := NoWord;
        count := count + m.emoji;
        continue;
      }
      if IsLatinOrNumber(u, r) {
        var newType := InWord;
        if u.isNumber(r) {
          newType := InNumber;
        }
        if currentWordType == NoWord || currentWordType != newType {
          if newType == InNumber {
            count := count + m.number;
          } else {
            count := count + m.word;
          }
          currentWordType := newType;
        }
        continue;
      }
      currentWordType := NoWord;
      if IsMathSymbol(r) {
        count := count + m.mathSymbol;
      } else if r == 0x40 {
        count := count + m.atSign;
      } else if r in URL_DELIMS {
        count := count + m.urlDelim;
      } else {
        count := count + m.symbol;
      }
    }
    AnyRunsCost(u, m, text);
    tokens := Ceil(count) + m.basePad;
  }

  // ---- the scan charges once per maximal run ----

  /** Inside a run the rest of the run is free. */
  lemma {:induction false} RestOfRunIsFree(u: Unicode, m: Multipliers, run: seq<int>, rest: seq<int>, k: Kind)
    requires forall i :: 0 <= i < |run| ==> Classify(u, run[i]) == k
    requires Groups(k) || run == []
    ensures Count(u, m, run + rest, WordTypeOf(k)) == Count(u, m, rest, WordTypeOf(k))
  {
    if run == [] {
      assert run + rest == rest;
    } else {
      assert (run + rest)[1..] == run[1..] + rest;
      RestOfRunIsFree(u, m, run[1..], rest, k);
    }
  }

  /** Whichever way the maximal runs are given, the one-pass count is their total charge. */
  lemma {:induction false} CountIsChargePerRun(
    u: Unicode, m: Multipliers, text: seq<int>, runs: seq<seq<int>>, current: WordType)
    requires MaximalRuns(u, text, runs)
    requires text != [] && Groups(Classify(u, text[0])) ==> current != WordTypeOf(Classify(u, text[0]))
    ensures Count(u, m, text, current) == Charge(u, m, runs)
    decreases |runs|
  {
    if runs != [] {
      var run, later := runs[0], Flatten(runs[1..]);
      var k := Classify(u, run[0]);
      assert text == run + later;
      assert text[1..] == run[1..] + later;
      assert MaximalRuns(u, later, runs[1..]) by {
        forall i, j | 0 <= i && j == i + 1 && j < |runs[1..]| ensures !Joins(u, runs[1..][i], runs[1..][j]) {
          assert runs[1..][i] == runs[i + 1] && runs[1..][j] == runs[j + 1];
        }
      }
      RestOfRunIsFree(u, m, run[1..], later, k);
      if |runs| > 1 {
        assert later == runs[1] + Flatten(runs[1..][1..]);
        assert !Joins(u, runs[0], runs[1]);
      }
      CountIsChargePerRun(u, m, later, runs[1..], WordTypeOf(k));
    }
  }

  lemma AnyRunsCost(u: Unicode, m: Multipliers, text: seq<int>)
    ensures forall runs :: MaximalRuns(u, text, runs) ==> Charge(u, m, runs) == Count(u, m, text, NoWord)
  {
    forall runs | MaximalRuns(u, text, runs) ensures Charge(u, m, runs) == Count(u, m, text, NoWord) {
      CountIsChargePerRun(u, m, text, runs, NoWord);
    }
  }

  /** Every text has a division into maximal runs, so the previous lemma is about every text. */
  lemma {:induction false} MaximalRunsExist(u: Unicode, text: seq<int>) returns (runs: seq<seq<int>>)
    ensures MaximalRuns(u, text, runs)
  {
    if text == [] {
      runs := [];
    } else {
      var later := MaximalRunsExist(u, text[1..]);
      if later != [] && Joins(u, [text[0]], later[0]) {
        runs := [[text[0]] + later[0]] + later[1..];
        assert Flatten(runs) == [text[0]] + (later[0] + Flatten(later[1..]));
        assert forall i :: 1 <= i < |runs| ==> runs[i] == later[i];
        assert runs[0][|runs[0]| - 1] == later[0][|later[0]| - 1];
      } else {
        runs := [[text[0]]] + later;
        assert Flatten(runs) == [text[0]] + Flatten(later);
        assert forall i :: 1 <= i < |runs| ==> runs[i] == later[i - 1];
      }
    }
  }

  // ---- how estimates of parts relate to the estimate of the whole ----

  ghost predicate Positive(m: Multipliers)
  {
    forall k :: Weight(m, k) > 0.0
  }

  lemma ShippedWeightsPositive(p: Provider)
    ensures Positive(GetMultipliers(p)) && GetMultipliers(p).basePad == 0
  {
    forall k ensures Weight(GetMultipliers(p), k) > 0.0 {
      match k case Newline => case Space => case CJK => case Emoji => case Word =>
      case Number => case Math => case At => case UrlDelim => case Symbol =>
    }
  }

  /** The charge for one rune, or run of letters or numbers, as each provider's weights list it. */
  function Listed(k: Kind, p: Provider): real
  {
    match k
    case Word => if p == Gemini then 1.15 else if p == Claude then 1.13 else 1.02
    case Number => if p == Gemini then 2.8 else if p == Claude then 1.63 else 1.55
    case CJK => if p == Gemini then 0.68 else if p == Claude then 1.21 else 0.85
    case Symbol => if p == Gemini then 0.38 else 0.4
    case Math => if p == Gemini then 1.05 else if p == Claude then 4.52 else 2.68
    case UrlDelim => if p == Gemini then 1.2 else if p == Claude then 1.26 else 1.0
    case At => if p == Gemini then 2.5 else if p == Claude then 2.82 else 2.0
    case Emoji => if p == Gemini then 1.08 else if p == Claude then 2.6 else 2.12
    case Newline => if p == Gemini then 1.15 else if p == Claude then 0.89 else 0.5
    case Space => if p == Gemini then 0.2 else if p == Claude then 0.39 else 0.42
  }

  /** One rune by itself costs what is listed for its class; unknown providers are charged like the default one. */
  lemma OneRuneCosts(u: Unicode, p: Provider, r: int)
    ensures Count(u, GetMultipliers(p), [r], NoWord) == Listed(Classify(u, r), p)
    ensures Estimate(u, p, [r]) == Ceil(Listed(Classify(u, r), p))
  {
    assert [r][1..] == [];
    match p case OpenAI => case Gemini => case Claude => case Unknown =>
  }

  /**
   The classes of runes: white space first, then the East Asian scripts, then pictures, then letters and numbers, and what
   is left by its sign.
   */
  lemma ClassesInOrder(u: Unicode, r: int)
    ensures var east := u.isHan(r) || 0x3040 <= r < 0x3100 || 0xAC00 <= r < 0xD7A4;
            var picture := 0x2600 <= r < 0x27C0 || 0x1F300 <= r < 0x1FA00 || 0x1FA00 <= r < 0x1FB00;
            && (Classify(u, r) == Newline <==> u.isSpace(r) && r in {9, 10})
            && (Classify(u, r) == Space <==> u.isSpace(r) && r !in {9, 10})
            && (Classify(u, r) == CJK <==> !u.isSpace(r) && east)
            && (Classify(u, r) == Emoji <==> !u.isSpace(r) && !east && picture)
            && (Classify(u, r) == Number <==> !u.isSpace(r) && !east && !picture && u.isNumber(r))
            && (Classify(u, r) == Word <==> !u.isSpace(r) && !east && !picture && !u.isNumber(r) && u.isLetter(r))
            && (Classify(u, r) == At ==> r == 64)
            && (Classify(u, r) == UrlDelim ==> r in {35, 37, 38, 47, 58, 59, 61, 63})
  {
  }

  function WordTypeAfter(u: Unicode, text: seq<int>, current: WordType): WordType
  {
    if text == [] then current else WordTypeOf(Classify(u, text[|text| - 1]))
  }

  lemma {:induction false} CountSplits(u: Unicode, m: Multipliers, a: seq<int>, b: seq<int>, current: WordType)
    ensures Count(u, m, a + b, current) == Count(u, m, a, current) + Count(u, m, b, WordTypeAfter(u, a, current))
  {
    if a == [] {
      assert a + b == b;
    } else {
      assert (a + b)[1..] == a[1..] + b;
      CountSplits(u, m, a[1..], b, WordTypeOf(Classify(u, a[0])));
    }
  }

  lemma {:induction false} CountNonNegative(u: Unicode, m: Multipliers, text: seq<int>, current: WordType)
    requires Positive(m)
    ensures Count(u, m, text, current) >= 0.0
  {
    if text != [] {
      CountNonNegative(u, m, text[1..], WordTypeOf(Classify(u, text[0])));
    }
  }

  /** Concatenation costs exactly the sum of the parts, less one charge when a run spans the join. */
  lemma JoinSavesOneRun(u: Unicode, m: Multipliers, a: seq<int>, b: seq<int>)
    ensures Count(u, m, a + b, NoWord) ==
            Count(u, m, a, NoWord) + Count(u, m, b, NoWord)
            - (if Joins(u, a, b) then Weight(m, Classify(u, b[0])) else 0.0)
  {
    CountSplits(u, m, a, b, NoWord);
  }

  lemma AdditiveExactlyWhenNoRunSpans(u: Unicode, p: Provider, a: seq<int>, b: seq<int>)
    ensures var m := GetMultipliers(p);
            Count(u, m, a + b, NoWord) == Count(u, m, a, NoWord) + Count(u, m, b, NoWord) <==> !Joins(u, a, b)
  {
    ShippedWeightsPositive(p);
    JoinSavesOneRun(u, GetMultipliers(p), a, b);
    if Joins(u, a, b) {
      assert Weight(GetMultipliers(p), Classify(u, b[0])) > 0.0;
    }
  }

  /** A text that ends inside a run has been charged for that run, unless the run began before the text. */
  lemma {:induction false} LastRunIsCharged(u: Unicode, m: Multipliers, text: seq<int>, current: WordType)
    requires Positive(m) && text != [] && Groups(Classify(u, text[|text| - 1]))
    ensures var k := Classify(u, text[|text| - 1]);
            current != WordTypeOf(k) ==> Count(u, m, text, current) >= Weight(m, k)
  {
    var first, rest := Classify(u, text[0]), text[1..];
    CountNonNegative(u, m, rest, WordTypeOf(first));
    if rest != [] {
      assert rest[|rest| - 1] == text[|text| - 1];
      LastRunIsCharged(u, m, rest, WordTypeOf(first));
    }
  }

  /** Estimates never shrink as a text grows at either end, and never exceed the sum of the estimates of its parts. */
  lemma MonotoneAndSubadditive(u: Unicode, p: Provider, a: seq<int>, b: seq<int>)
    ensures 0 <= Estimate(u, p, a) <= Estimate(u, p, a + b) <= Estimate(u, p, a) + Estimate(u, p, b)
    ensures Estimate(u, p, b) <= Estimate(u, p, a + b)
  {
    var m := GetMultipliers(p);
    ShippedWeightsPositive(p);
    CountSplits(u, m, a, b, NoWord);
    CountNonNegative(u, m, a, NoWord);
    CountNonNegative(u, m, b, WordTypeAfter(u, a, NoWord));
    JoinSavesOneRun(u, m, a, b);
    if Joins(u, a, b) {
      assert Weight(m, Classify(u, b[0])) > 0.0;
      LastRunIsCharged(u, m, a, NoWord);
    }
  }
}
