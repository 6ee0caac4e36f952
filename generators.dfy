/** The built-in generators of pkg/hid: word picks and integer ranges, the
    default registry, and the random source they draw from. */
module Generators {
  import Strconv

  /** The random source: an endless stream of raw draws and the number of
      draws taken so far. The seeded PCG generator behind it is not
      modelled; a stream stands for whatever it produces. */
  datatype Rand = Rand(stream: nat -> nat, drawn: nat)

  /** A raw draw reduced into [0, n) by taking away n while it is at
      least n. */
  function Reduce(x: nat, n: nat): (y: nat)
    requires n > 0
    ensures y < n
    ensures x < n ==> y == x
    decreases x
  {
    if x < n then x else Reduce(x - n, n)
  }

  /** Rand.IntN(n): the next draw, reduced into [0, n); the source advances
      by exactly one draw. */
  function IntN(r: Rand, n: nat): (p: (nat, Rand))
    requires n > 0
    ensures p.0 < n
    ensures r.stream(r.drawn) < n ==> p.0 == r.stream(r.drawn)
    ensures p.1.stream == r.stream && p.1.drawn == r.drawn + 1
  {
    (Reduce(r.stream(r.drawn), n), Rand(r.stream, r.drawn + 1))
  }

  /** The generators a registry can hold. Caller-supplied closures are
      represented by the two shapes the callers use: a constant result and
      a failure. */
  datatype Generator =
    | Const(text: string)
    | Fail(cause: string)
    | Word(words: seq<string>)
    | IntRange(min: int, max: int)

  /** What a generator call returns: its text and the source after any
      draw, or an error. */
  datatype GenOut = Produced(text: string, rand: Rand) | GenError(cause: string)

  /** WordGenerator(words): fails exactly on an empty list; otherwise one
      draw picks an element of the list. */
  function WordGenerator(words: seq<string>, r: Rand): (o: GenOut)
    ensures o.GenError? <==> |words| == 0
    ensures o.GenError? ==> o.cause == "empty word list" && |words| == 0
    ensures o.Produced? ==> o.text in words && o.rand.stream == r.stream && o.rand.drawn == r.drawn + 1
  {
    if |words| == 0 then GenError("empty word list")
    else
      var (i, r') := IntN(r, |words|);
      Produced(words[i], r')
  }

  /** IntGenerator(min, max): fails exactly when min > max; otherwise one
      draw gives a number in [min, max], rendered in decimal. */
  function IntGenerator(min: int, max: int, r: Rand): (o: GenOut)
    ensures o.GenError? <==> min > max
    ensures o.GenError? ==> o.cause == "min > max"
    ensures o.Produced? ==>
      && Strconv.IsDecimal(o.text)
      && min <= Strconv.DecimalValue(o.text) <= max
      && o.text == Strconv.Itoa(Strconv.DecimalValue(o.text))
      && o.rand.stream == r.stream && o.rand.drawn == r.drawn + 1
  {
    if min > max then GenError("min > max")
    else
      var (k, r') := IntN(r, max - min + 1);
      Produced(Strconv.Itoa(k + min), r')
  }

  /** Every word of a non-empty list is a possible pick: the one the next
      draw designates. */
  lemma EveryWordReachable(words: seq<string>, r: Rand, i: nat)
    requires i < |words| && r.stream(r.drawn) == i
    ensures WordGenerator(words, r) == Produced(words[i], Rand(r.stream, r.drawn + 1))
  {
  }

  /** Every number of a non-empty range is a possible result. */
  lemma EveryIntReachable(min: int, max: int, r: Rand, n: int)
    requires min <= n <= max && r.stream(r.drawn) == n - min
    ensures IntGenerator(min, max, r) == Produced(Strconv.Itoa(n), Rand(r.stream, r.drawn + 1))
  {
    assert IntN(r, max - min + 1).0 == n - min;
  }

  /** Calling a generator with the configuration's random source. */
  function Run(g: Generator, r: Rand): GenOut {
    match g
    case Const(t) => Produced(t, r)
    case Fail(c) => GenError(c)
    case Word(ws) => WordGenerator(ws, r)
    case IntRange(lo, hi) => IntGenerator(lo, hi, r)
  }

  /** Whether a generator fails; this does not depend on the random source. */
  predicate Fails(g: Generator) {
    || g.Fail?
    || (g.Word? && |g.words| == 0)
    || (g.IntRange? && g.min > g.max)
  }

  /** The error a failing generator reports. */
  function FailCause(g: Generator): string
    requires Fails(g)
  {
    match g
    case Fail(c) => c
    case Word(_) => "empty word list"
    case IntRange(_, _) => "min > max"
  }

  /** A generator fails on one source exactly when it fails on every
      source, always with the same error, and a success leaves the source's
      stream as it was. */
  lemma RunFailsIffFails(g: Generator, r: Rand)
    ensures Run(g, r).GenError? <==> Fails(g)
    ensures Run(g, r).GenError? ==> Run(g, r).cause == FailCause(g)
    ensures Run(g, r).Produced? ==> Run(g, r).rand.stream == r.stream && Run(g, r).rand.drawn >= r.drawn
  {
  }

  /** The three word lists loaded at start-up. */
  datatype WordSupply = WordSupply(adj: seq<string>, noun: seq<string>, verb: seq<string>)

  /** The default registry: three word picks and three digit ranges. */
  function DefaultGenerators(supply: WordSupply): (d: map<string, Generator>)
    ensures d.Keys == {"adj", "noun", "verb", "digit", "2-digit", "3-digit"}
  {
    map[
      "adj" := Word(supply.adj),
      "noun" := Word(supply.noun),
      "verb" := Word(supply.verb),
      "digit" := IntRange(0, 9),
      "2-digit" := IntRange(10, 99),
      "3-digit" := IntRange(100, 999)
    ]
  }

  /** A range of non-negative numbers below 1000 never fails, and its
      text is as wide as the bounds' common width. */
  lemma RangeWidth(lo: nat, hi: nat, r: Rand)
    requires lo <= hi < 1000
    ensures IntGenerator(lo, hi, r).Produced?
    ensures hi < 10 ==> |IntGenerator(lo, hi, r).text| == 1
    ensures 10 <= lo && hi < 100 ==> |IntGenerator(lo, hi, r).text| == 2
    ensures 100 <= lo ==> |IntGenerator(lo, hi, r).text| == 3
  {
    var k := IntN(r, hi - lo + 1).0 + lo;
    Strconv.NatDigitsWidth(k);
    assert IntGenerator(lo, hi, r).text == Strconv.NatDigits(k);
  }

  /** The digit generators never fail, and each yields exactly as many
      decimal digits as its name says. */
  lemma DefaultDigitWidths(supply: WordSupply, r: Rand)
    ensures var d := DefaultGenerators(supply);
      && Run(d["digit"], r).Produced? && |Run(d["digit"], r).text| == 1
      && Run(d["2-digit"], r).Produced? && |Run(d["2-digit"], r).text| == 2
      && Run(d["3-digit"], r).Produced? && |Run(d["3-digit"], r).text| == 3
  {
    var d := DefaultGenerators(supply);
    assert d["digit"] == IntRange(0, 9) && d["2-digit"] == IntRange(10, 99) && d["3-digit"] == IntRange(100, 999);
    RangeWidth(0, 9, r);
    RangeWidth(10, 99, r);
    RangeWidth(100, 999, r);
  }

  /** The word generators of the default registry pick from their supply
      list, and fail only when that list is empty. */
  lemma DefaultWordsFromSupply(supply: WordSupply, r: Rand)
    ensures var d := DefaultGenerators(supply);
      && (Run(d["adj"], r).GenError? <==> |supply.adj| == 0)
      && (Run(d["adj"], r).Produced? ==> Run(d["adj"], r).text in supply.adj)
      && (Run(d["noun"], r).GenError? <==> |supply.noun| == 0)
      && (Run(d["noun"], r).Produced? ==> Run(d["noun"], r).text in supply.noun)
      && (Run(d["verb"], r).GenError? <==> |supply.verb| == 0)
      && (Run(d["verb"], r).Produced? ==> Run(d["verb"], r).text in supply.verb)
  {
  }

  // The source computes the range size max - min + 1 in Go's int, 64 bits
  // wide on the 64-bit platforms modelled here.

  const MinInt64: int := -0x8000_0000_0000_0000
  const MaxInt64: int := 0x7fff_ffff_ffff_ffff

  predicate IsInt64(x: int) {
    MinInt64 <= x <= MaxInt64
  }

  /** Two's-complement wrap-around of 64-bit signed arithmetic. */
  function Wrap64(x: int): (y: int)
    ensures IsInt64(y)
    ensures IsInt64(x) ==> y == x
    ensures (x - y) % 0x1_0000_0000_0000_0000 == 0
  {
    (x - MinInt64) % 0x1_0000_0000_0000_0000 + MinInt64
  }

  /** The argument IntGenerator passes to IntN, as written: max - min + 1
      evaluated with 64-bit wrap-around. */
  function IntNArgAsWritten(min: int, max: int): int
    requires IsInt64(min) && IsInt64(max)
  {
    Wrap64(Wrap64(max - min) + 1)
  }

  /** As written, the size is right only while max - min + 1 fits in an
      int64; for wider ranges it is zero or negative, which IntN rejects by
      panicking. IntGenerator above uses the exact size instead. */
  lemma IntNArgAsWrittenOverflows(min: int, max: int)
    requires IsInt64(min) && IsInt64(max) && min <= max
    ensures max - min < MaxInt64 ==> IntNArgAsWritten(min, max) == max - min + 1
    ensures max - min >= MaxInt64 ==> IntNArgAsWritten(min, max) <= 0
  {
    if max - min > MaxInt64 {
      assert Wrap64(max - min) == max - min - 0x1_0000_0000_0000_0000;
    }
  }

  /** The full int64 range: a valid call with min <= max whose IntN
      argument is 0. */
  lemma FullRangeIntNArgIsZero()
    ensures IsInt64(MinInt64) && IsInt64(MaxInt64) && MinInt64 <= MaxInt64
    ensures IntNArgAsWritten(MinInt64, MaxInt64) == 0
  {
    IntNArgAsWrittenOverflows(MinInt64, MaxInt64);
    assert Wrap64(MaxInt64 - MinInt64) == -1;
  }
}
