/** What a generation call promises about its result, proved about the
    two-stage specification Expansion that GenerateContext computes. */
module HidProperties {
  import opened Generators
  import opened Configuration
  import opened Hid

  /** The first error among the pieces, in template order; it names no
      random draw. */
  function FirstError(ps: seq<Piece>, reg: map<string, Generator>, strict: bool): ErrorValue {
    if ps == [] then Nil
    else if PieceError(ps[0], reg, strict).Failed? then PieceError(ps[0], reg, strict)
    else FirstError(ps[1..], reg, strict)
  }

  /** A pass fails exactly when some piece fails, and it reports the first
      failing piece's error, whatever the random source. */
  lemma {:induction false} ResolveFailsFirst(ps: seq<Piece>, reg: map<string, Generator>, strict: bool, r: Rand)
    ensures Resolve(ps, reg, strict, r).Abort? <==> FirstError(ps, reg, strict).Failed?
    ensures Resolve(ps, reg, strict, r).Abort? ==> Resolve(ps, reg, strict, r).error == FirstError(ps, reg, strict).error
    decreases |ps|
  {
    if ps != [] {
      var o := Step(ps[0], reg, strict, r);
      if o.Done? {
        ResolveFailsFirst(ps[1..], reg, strict, o.rand);
      }
    }
  }

  lemma {:induction false} FirstErrorExists(ps: seq<Piece>, reg: map<string, Generator>, strict: bool, k: nat)
    requires k < |ps| && PieceError(ps[k], reg, strict).Failed?
    ensures FirstError(ps, reg, strict).Failed?
    decreases k
  {
    if k > 0 && !PieceError(ps[0], reg, strict).Failed? {
      FirstErrorExists(ps[1..], reg, strict, k - 1);
    }
  }

  /** A pass cannot succeed over a piece that fails: an unknown key or an
      unclosed token in strict mode, or a failing generator in either
      mode. */
  lemma FailingPieceAborts(ps: seq<Piece>, reg: map<string, Generator>, strict: bool, r: Rand, k: nat)
    requires k < |ps|
    requires || (strict && ps[k].Token? && ps[k].key !in reg)
             || (strict && ps[k].Unclosed?)
             || (ps[k].Token? && ps[k].key in reg && Fails(reg[ps[k].key]))
    ensures Resolve(ps, reg, strict, r).Abort?
  {
    FirstErrorExists(ps, reg, strict, k);
    ResolveFailsFirst(ps, reg, strict, r);
  }

  /** Where an error points in the template: an unknown or failing key is
      a closed token `{key}` at the reported offset; an unclosed token is a
      `{` at the reported offset with no `}` after it. */
  predicate ErrorAt(s: string, e: Error) {
    match e
    case UnknownGenerator(k, pos) => TokenAt(s, k, pos)
    case GeneratorFailure(k, pos, _) => TokenAt(s, k, pos)
    case UnclosedToken(pos) => pos < |s| && s[pos] == '{' && '}' !in s[pos..]
  }

  /** The first error of well-placed pieces points at its token; outside
      strict mode it can only be a generator failure. */
  lemma {:induction false} FirstErrorAt(s: string, ps: seq<Piece>, reg: map<string, Generator>, strict: bool)
    requires AllAt(s, ps)
    ensures FirstError(ps, reg, strict).Failed? ==> ErrorAt(s, FirstError(ps, reg, strict).error)
    ensures FirstError(ps, reg, strict).Failed? && !strict ==> FirstError(ps, reg, strict).error.GeneratorFailure?
    decreases |ps|
  {
    if ps != [] && !PieceError(ps[0], reg, strict).Failed? {
      FirstErrorAt(s, ps[1..], reg, strict);
    }
  }

  /** A failed generation reports an error found in the template at the
      offset it names; outside strict mode only a failing generator ends
      a generation. */
  lemma ExpansionErrors(template: string, opts: seq<Option>, supply: WordSupply, clock: nat -> nat)
    ensures var e := Expansion(template, opts, supply, clock);
      e.Abort? ==> ErrorAt(template, e.error)
    ensures var e := Expansion(template, opts, supply, clock);
      e.Abort? && !ApplyOptions(opts, Initial(clock), supply).strict ==> e.error.GeneratorFailure?
  {
    var st := ApplyOptions(opts, Initial(clock), supply);
    var ps := Tokenize(template, 0);
    TokenizeWellFormed(template, 0);
    ResolveFailsFirst(ps, st.generators, st.strict, st.rand);
    FirstErrorAt(template, ps, st.generators, st.strict);
  }

  /** Whether a generation fails, and with which error, does not depend on
      the wall clock. */
  lemma ErrorsIgnoreClock(template: string, opts: seq<Option>, supply: WordSupply, c1: nat -> nat, c2: nat -> nat)
    ensures Expansion(template, opts, supply, c1).Abort? <==> Expansion(template, opts, supply, c2).Abort?
    ensures Expansion(template, opts, supply, c1).Abort? ==>
      Expansion(template, opts, supply, c1).error == Expansion(template, opts, supply, c2).error
  {
    var st1 := ApplyOptions(opts, Initial(c1), supply);
    var st2 := ApplyOptions(opts, Initial(c2), supply);
    OptionsIgnoreRand(opts, Initial(c1), Initial(c2), supply);
    var ps := Tokenize(template, 0);
    ResolveFailsFirst(ps, st1.generators, st1.strict, st1.rand);
    ResolveFailsFirst(ps, st2.generators, st2.strict, st2.rand);
  }

  /** With a seed among the options, a generation's result does not depend
      on the wall clock. */
  lemma SeededIsDeterministic(template: string, opts: seq<Option>, supply: WordSupply, c1: nat -> nat, c2: nat -> nat)
    requires exists k :: 0 <= k < |opts| && opts[k].WithSeed?
    ensures Expansion(template, opts, supply, c1) == Expansion(template, opts, supply, c2)
  {
    SeedFixesConfiguration(opts, c1, c2, supply);
  }

  lemma PrefixEmpty(o: Outcome)
    ensures Prefix("", o) == o
  {
    if o.Done? {
      assert "" + o.text == o.text;
    }
  }

  /** Literal text up to the next `{` is copied verbatim, and no draw is
      taken for it. */
  lemma {:induction false} LiteralRun(s: string, i: nat, j: nat, reg: map<string, Generator>, strict: bool, r: Rand)
    requires i <= j <= |s|
    requires forall k :: i <= k < j ==> s[k] != '{'
    ensures Resolve(Tokenize(s, i), reg, strict, r) == Prefix(s[i..j], Resolve(Tokenize(s, j), reg, strict, r))
    decreases j - i
  {
    if i < j {
      var rest := Resolve(Tokenize(s, j), reg, strict, r);
      assert Resolve(Tokenize(s, i + 1), reg, strict, r) == Prefix(s[i + 1..j], rest) by {
        LiteralRun(s, i + 1, j, reg, strict, r);
      }
      ResolveCons(Lit(s[i]), Tokenize(s, i + 1), reg, strict, r);
      PrefixPrefix([s[i]], s[i + 1..j], rest);
      assert [s[i]] + s[i + 1..j] == s[i..j];
    } else {
      PrefixEmpty(Resolve(Tokenize(s, j), reg, strict, r));
    }
  }

  /** A template without `{` is its own expansion, and no draw is taken. */
  lemma LiteralTemplate(s: string, reg: map<string, Generator>, strict: bool, r: Rand)
    requires forall k :: 0 <= k < |s| ==> s[k] != '{'
    ensures Resolve(Tokenize(s, 0), reg, strict, r) == Done(s, r)
  {
    LiteralRun(s, 0, |s|, reg, strict, r);
    assert s[0..|s|] + "" == s;
  }

  /** Inside a token, characters other than `}` (a `{` among them) are
      key text. */
  lemma {:induction false} KeySkip(s: string, start: nat, i: nat, j: nat)
    requires start < i <= j <= |s|
    requires forall k :: i <= k < j ==> s[k] != '}'
    ensures TokenizeKey(s, start, i) == TokenizeKey(s, start, j)
    decreases j - i
  {
    if i < j {
      KeySkip(s, start, i + 1, j);
    }
  }

  /** A closed token `{key}` is resolved by its step, and the pass goes on
      after its `}` with the source the step left, unless the step failed. */
  lemma TokenRun(s: string, key: string, pos: nat, reg: map<string, Generator>, strict: bool, r: Rand)
    requires TokenAt(s, key, pos)
    ensures var o := Step(Token(key, pos), reg, strict, r);
      && (o.Abort? ==> Resolve(Tokenize(s, pos), reg, strict, r) == Abort(o.error))
      && (o.Done? ==> Resolve(Tokenize(s, pos), reg, strict, r) == Prefix(o.text, Resolve(Tokenize(s, pos + |key| + 2), reg, strict, o.rand)))
  {
    var j := pos + |key| + 1;
    var w := s[pos..j + 1];
    assert s[pos] == w[0] && s[j] == w[|key| + 1];
    assert s[pos + 1..j] == key by {
      assert forall k :: 0 <= k < |key| ==> key[k] == w[k + 1] == s[pos + 1 + k];
    }
    assert forall k :: pos < k < j ==> s[k] == key[k - pos - 1];
    KeySkip(s, pos, pos + 1, j);
    RemainingClose(s, j, pos, reg, strict, r);
  }

  /** A `{` with no `}` after it resolves as the unclosed tail, and ends
      the pass. */
  lemma UnclosedRun(s: string, i: nat, reg: map<string, Generator>, strict: bool, r: Rand)
    requires i < |s| && s[i] == '{'
    requires forall k :: i < k < |s| ==> s[k] != '}'
    ensures Resolve(Tokenize(s, i), reg, strict, r) == Step(Unclosed(s[i + 1..], i), reg, strict, r)
  {
    KeySkip(s, i, i + 1, |s|);
    RemainingEnd(s, i, reg, strict, r);
  }

  /** Outside strict mode and with no generator registered, every piece is
      kept as it was written. */
  lemma {:induction false} NothingRegisteredKeepsPieces(ps: seq<Piece>, r: Rand)
    ensures Resolve(ps, map[], false, r) == Done(Untokenize(ps), r)
    decreases |ps|
  {
    if ps != [] {
      NothingRegisteredKeepsPieces(ps[1..], r);
      assert [ps[0]] + ps[1..] == ps;
      ResolveCons(ps[0], ps[1..], map[], false, r);
      UntokenizeCons(ps[0], ps[1..]);
    }
  }

  /** Outside strict mode and with no generator registered, a template
      expands to itself: unknown tokens and an unclosed tail are kept. */
  lemma NothingRegisteredIsIdentity(template: string, r: Rand)
    ensures Resolve(Tokenize(template, 0), map[], false, r) == Done(template, r)
  {
    NothingRegisteredKeepsPieces(Tokenize(template, 0), r);
    TokenizeRoundTrip(template, 0);
  }
}
