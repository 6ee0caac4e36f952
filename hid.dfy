/** The template expander of pkg/hid: one left-to-right pass over the
    template that copies literal text, replaces each `{key}` token with the
    output of the generator registered under `key`, and fails on the first
    error.

    The pass is specified in two stages: Tokenize cuts the template into
    literal characters, closed tokens and an unclosed tail, and Resolve
    turns those pieces into text, drawing from the random source in token
    order. GenerateContext is the scanning loop itself, proved to compute
    exactly that. */
module Hid {
  import opened Generators
  import opened Configuration

  /** The three error kinds, with the offset of the `{` that opened the
      offending token. */
  datatype Error =
    | UnknownGenerator(key: string, pos: nat)
    | UnclosedToken(pos: nat)
    | GeneratorFailure(key: string, pos: nat, cause: string)

  /** Go's error result: nil, or an error. */
  datatype ErrorValue = Nil | Failed(error: Error)

  /** The result of a pass: the text and the random source afterwards, or
      the first error. */
  datatype Outcome = Done(text: string, rand: Rand) | Abort(error: Error)

  /** The pieces a template is made of. Positions are offsets in the
      template of the `{` that opened a token. */
  datatype Piece =
    | Lit(c: char)
    | Token(key: string, start: nat)
    | Unclosed(key: string, start: nat)

  /** The text a piece was cut from. */
  function Source(p: Piece): string {
    match p
    case Lit(c) => [c]
    case Token(k, _) => "{" + k + "}"
    case Unclosed(k, _) => "{" + k
  }

  lemma TokenSource(s: string, i: nat, j: nat)
    requires i < j < |s| && s[i] == '{' && s[j] == '}'
    ensures "{" + s[i + 1..j] + "}" == s[i..j + 1]
  {
    var a := "{" + s[i + 1..j] + "}";
    forall k | 0 <= k < |a|
      ensures a[k] == s[i + k]
    {
      if 0 < k < |a| - 1 {
        assert a[k] == s[i + 1..j][k - 1];
      }
    }
  }

  lemma OpenSource(s: string, i: nat)
    requires i < |s| && s[i] == '{'
    ensures "{" + s[i + 1..] == s[i..]
  {
    var a := "{" + s[i + 1..];
    forall k | 0 <= k < |a|
      ensures a[k] == s[i + k]
    {
      if 0 < k {
        assert a[k] == s[i + 1..][k - 1];
      }
    }
  }

  /** The template from offset `i` on, outside a token, cut into pieces
      front to back: a character other than `{` is a literal, and a `{`
      opens a token. */
  function Tokenize(s: string, i: nat): seq<Piece>
    requires i <= |s|
    decreases |s| - i, 1
  {
    if i == |s| then []
    else if s[i] != '{' then [Lit(s[i])] + Tokenize(s, i + 1)
    else TokenizeKey(s, i, i + 1)
  }

  /** The template from offset `i` on, inside the token opened at `start`:
      the token runs to the next `}` (a `{` inside it is part of its key),
      or to the end of the template when no `}` follows. */
  function TokenizeKey(s: string, start: nat, i: nat): seq<Piece>
    requires start < i <= |s|
    decreases |s| - i, 0
  {
    if i == |s| then [Unclosed(s[start + 1..], start)]
    else if s[i] == '}' then [Token(s[start + 1..i], start)] + Tokenize(s, i + 1)
    else TokenizeKey(s, start, i + 1)
  }

  /** The text the pieces were cut from. */
  function Untokenize(ps: seq<Piece>): string {
    if ps == [] then "" else Source(ps[0]) + Untokenize(ps[1..])
  }

  lemma UntokenizeCons(p: Piece, rest: seq<Piece>)
    ensures Untokenize([p] + rest) == Source(p) + Untokenize(rest)
  {
    assert ([p] + rest)[1..] == rest;
  }

  /** A piece cut from `s[a..b]` followed by pieces that give `s[b..]`
      give `s[a..]`. */
  lemma UntokenizeGlue(s: string, a: nat, b: nat, p: Piece, rest: seq<Piece>)
    requires a <= b <= |s| && Source(p) == s[a..b] && Untokenize(rest) == s[b..]
    ensures Untokenize([p] + rest) == s[a..]
  {
    UntokenizeCons(p, rest);
    assert s[a..b] + s[b..] == s[a..];
  }

  /** Cutting the template into pieces loses nothing: the pieces put back
      together give the template. */
  lemma {:induction false} TokenizeRoundTrip(s: string, i: nat)
    requires i <= |s|
    ensures Untokenize(Tokenize(s, i)) == s[i..]
    decreases |s| - i, 2
  {
    if i < |s| {
      if s[i] != '{' {
        var rest := Tokenize(s, i + 1);
        assert Tokenize(s, i) == [Lit(s[i])] + rest;
        assert Untokenize(rest) == s[i + 1..] by {
          TokenizeRoundTrip(s, i + 1);
        }
        UntokenizeGlue(s, i, i + 1, Lit(s[i]), rest);
      } else {
        KeyRoundTrip(s, i, i + 1);
      }
    }
  }

  lemma {:induction false} KeyRoundTrip(s: string, start: nat, i: nat)
    requires start < i <= |s| && s[start] == '{'
    ensures Untokenize(TokenizeKey(s, start, i)) == s[start..]
    decreases |s| - i, 1
  {
    if i == |s| {
      UnclosedRoundTrip(s, start);
    } else if s[i] == '}' {
      TokenRoundTrip(s, start, i);
    } else {
      KeyRoundTrip(s, start, i + 1);
    }
  }

  lemma UnclosedRoundTrip(s: string, start: nat)
    requires start < |s| && s[start] == '{'
    ensures Untokenize(TokenizeKey(s, start, |s|)) == s[start..]
  {
    var p := Unclosed(s[start + 1..], start);
    assert TokenizeKey(s, start, |s|) == [p] + [];
    assert Source(p) == s[start..|s|] by {
      OpenSource(s, start);
    }
    UntokenizeGlue(s, start, |s|, p, []);
  }

  lemma {:induction false} TokenRoundTrip(s: string, start: nat, i: nat)
    requires start < i < |s| && s[start] == '{' && s[i] == '}'
    ensures Untokenize(TokenizeKey(s, start, i)) == s[start..]
    decreases |s| - i, 0
  {
    var p := Token(s[start + 1..i], start);
    var rest := Tokenize(s, i + 1);
    assert TokenizeKey(s, start, i) == [p] + rest;
    assert Untokenize(rest) == s[i + 1..] by {
      TokenizeRoundTrip(s, i + 1);
    }
    assert Source(p) == s[start..i + 1] by {
      TokenSource(s, start, i);
    }
    UntokenizeGlue(s, start, i + 1, p, rest);
  }

  /** The closed token `{key}` sits in the template at offset `pos`, and
      its key holds no `}`. */
  predicate TokenAt(s: string, key: string, pos: nat) {
    pos + |key| + 2 <= |s| && s[pos..pos + |key| + 2] == "{" + key + "}" && '}' !in key
  }

  /** Where a token comes from: a closed token is at its start offset; an
      unclosed one is `{` and its key, which holds no `}`, up to the end of
      the template. */
  predicate PieceAt(s: string, p: Piece) {
    match p
    case Lit(_) => true
    case Token(k, start) => TokenAt(s, k, start)
    case Unclosed(k, start) => start < |s| && s[start..] == "{" + k && '}' !in k
  }

  /** Every piece of `ps` is where it says it is. */
  predicate AllAt(s: string, ps: seq<Piece>) {
    ps == [] || (PieceAt(s, ps[0]) && AllAt(s, ps[1..]))
  }

  lemma AllAtCons(s: string, p: Piece, rest: seq<Piece>)
    requires PieceAt(s, p) && AllAt(s, rest)
    ensures AllAt(s, [p] + rest)
  {
    assert ([p] + rest)[1..] == rest;
  }

  lemma NoClose(s: string, a: nat, b: nat)
    requires a <= b <= |s|
    requires forall k :: a <= k < b ==> s[k] != '}'
    ensures '}' !in s[a..b]
  {
    assert forall j :: 0 <= j < b - a ==> s[a..b][j] == s[a + j];
  }

  /** Every token of the template is where it says it is. */
  lemma {:induction false} TokenizeWellFormed(s: string, i: nat)
    requires i <= |s|
    ensures AllAt(s, Tokenize(s, i))
    decreases |s| - i, 1
  {
    if i < |s| {
      if s[i] != '{' {
        TokenizeWellFormed(s, i + 1);
        AllAtCons(s, Lit(s[i]), Tokenize(s, i + 1));
      } else {
        KeyWellFormed(s, i, i + 1);
      }
    }
  }

  lemma {:induction false} KeyWellFormed(s: string, start: nat, i: nat)
    requires start < i <= |s| && s[start] == '{'
    requires forall k :: start < k < i ==> s[k] != '}'
    ensures AllAt(s, TokenizeKey(s, start, i))
    decreases |s| - i, 0
  {
    if i == |s| {
      OpenSource(s, start);
      NoClose(s, start + 1, |s|);
      AllAtCons(s, Unclosed(s[start + 1..], start), []);
    } else if s[i] == '}' {
      TokenSource(s, start, i);
      NoClose(s, start + 1, i);
      TokenizeWellFormed(s, i + 1);
      AllAtCons(s, Token(s[start + 1..i], start), Tokenize(s, i + 1));
    } else {
      KeyWellFormed(s, start, i + 1);
    }
  }

  /** The text of a successful piece followed by the outcome of the rest. */
  function Prefix(t: string, o: Outcome): Outcome {
    if o.Abort? then o else Done(t + o.text, o.rand)
  }

  /** The error a piece raises, whatever the random source: an unknown key
      or an unclosed tail in strict mode, or a failing generator in either
      mode. */
  function PieceError(p: Piece, reg: map<string, Generator>, strict: bool): ErrorValue {
    match p
    case Lit(_) => Nil
    case Token(k, start) =>
      if k !in reg then (if strict then Failed(UnknownGenerator(k, start)) else Nil)
      else if Fails(reg[k]) then Failed(GeneratorFailure(k, start, FailCause(reg[k])))
      else Nil
    case Unclosed(_, start) => if strict then Failed(UnclosedToken(start)) else Nil
  }

  /** Resolving one piece: a literal is copied; a token is replaced by its
      generator's output, or kept as `{key}` when its key is unknown and the
      mode is not strict; an unclosed tail is kept as `{` and its key (no
      `}` is added) when the mode is not strict. The piece fails exactly
      with the error PieceError names. */
  function Step(p: Piece, reg: map<string, Generator>, strict: bool, r: Rand): (o: Outcome)
    ensures o.Abort? <==> PieceError(p, reg, strict).Failed?
    ensures o.Abort? ==> o.error == PieceError(p, reg, strict).error
    ensures o.Done? && (!p.Token? || p.key !in reg) ==> o.text == Source(p) && o.rand == r
    ensures p.Token? && p.key in reg && !Fails(reg[p.key]) ==>
      o == Done(Run(reg[p.key], r).text, Run(reg[p.key], r).rand)
  {
    match p
    case Lit(c) => Done([c], r)
    case Token(k, start) =>
      if k !in reg then
        if strict then Abort(UnknownGenerator(k, start)) else Done("{" + k + "}", r)
      else
        RunFailsIffFails(reg[k], r);
        var g := Run(reg[k], r);
        if g.GenError? then Abort(GeneratorFailure(k, start, g.cause)) else Done(g.text, g.rand)
    case Unclosed(k, start) =>
      if strict then Abort(UnclosedToken(start)) else Done("{" + k, r)
  }

  /** Resolving the pieces in order; the first error ends the pass. */
  function Resolve(ps: seq<Piece>, reg: map<string, Generator>, strict: bool, r: Rand): Outcome {
    if ps == [] then Done("", r)
    else
      match Step(ps[0], reg, strict, r)
      case Abort(e) => Abort(e)
      case Done(t, r1) => Prefix(t, Resolve(ps[1..], reg, strict, r1))
  }

  /** What a generation call returns for a template, options, word supply
      and wall-clock source. */
  function Expansion(template: string, opts: seq<Option>, supply: WordSupply, clock: nat -> nat): Outcome {
    var st := ApplyOptions(opts, Initial(clock), supply);
    Resolve(Tokenize(template, 0), st.generators, st.strict, st.rand)
  }

  lemma PrefixPrefix(a: string, b: string, o: Outcome)
    ensures Prefix(a, Prefix(b, o)) == Prefix(a + b, o)
  {
    if o.Done? {
      assert a + (b + o.text) == (a + b) + o.text;
    }
  }

  /** One piece resolved ahead of the rest. */
  lemma ResolveCons(p: Piece, rest: seq<Piece>, reg: map<string, Generator>, strict: bool, r: Rand)
    ensures var o := Step(p, reg, strict, r);
      && (o.Done? ==> Resolve([p] + rest, reg, strict, r) == Prefix(o.text, Resolve(rest, reg, strict, o.rand)))
      && (o.Abort? ==> Resolve([p] + rest, reg, strict, r) == Abort(o.error))
  {
    assert ([p] + rest)[1..] == rest;
  }

  /** What is left of a pass at offset `i` of the scanning loop: the
      pieces from `i` on, or, inside a token, from the `{` at `start` that
      opened it. */
  function Remaining(s: string, i: nat, inKey: bool, start: int, reg: map<string, Generator>, strict: bool, r: Rand): Outcome
    requires i <= |s| && (inKey ==> 0 <= start < i)
  {
    Resolve(if inKey then TokenizeKey(s, start, i) else Tokenize(s, i), reg, strict, r)
  }

  // One lemma per transition of the scanning loop.

  /** Outside a token, a character other than `{` is copied. */
  lemma RemainingLit(s: string, i: nat, start: int, reg: map<string, Generator>, strict: bool, r: Rand)
    requires i < |s| && s[i] != '{'
    ensures Remaining(s, i, false, start, reg, strict, r) == Prefix([s[i]], Remaining(s, i + 1, false, start, reg, strict, r))
  {
    ResolveCons(Lit(s[i]), Tokenize(s, i + 1), reg, strict, r);
  }

  /** A `}` inside a token resolves it; a failing step ends the pass. */
  lemma RemainingClose(s: string, i: nat, start: nat, reg: map<string, Generator>, strict: bool, r: Rand)
    requires start < i < |s| && s[i] == '}'
    ensures var o := Step(Token(s[start + 1..i], start), reg, strict, r);
      && (o.Abort? ==> Remaining(s, i, true, start, reg, strict, r) == Abort(o.error))
      && (o.Done? ==> Remaining(s, i, true, start, reg, strict, r) == Prefix(o.text, Remaining(s, i + 1, false, start, reg, strict, o.rand)))
  {
    ResolveCons(Token(s[start + 1..i], start), Tokenize(s, i + 1), reg, strict, r);
  }

  /** The end of the template inside a token resolves the unclosed tail. */
  lemma RemainingEnd(s: string, start: nat, reg: map<string, Generator>, strict: bool, r: Rand)
    requires start < |s|
    ensures var o := Step(Unclosed(s[start + 1..], start), reg, strict, r);
      && (o.Abort? ==> Remaining(s, |s|, true, start, reg, strict, r) == Abort(o.error))
      && (o.Done? ==> Remaining(s, |s|, true, start, reg, strict, r) == Done(o.text, r))
  {
    var p := Unclosed(s[start + 1..], start);
    ResolveCons(p, [], reg, strict, r);
    assert [p] + [] == [p];
    var o := Step(p, reg, strict, r);
    if o.Done? {
      assert o.text + "" == o.text;
    }
  }

  /** The scanning loop of GenerateContext as a state machine: `i` is the
      next offset, `inKey` the state, `start` the offset of the `{` that
      opened the current token. Outside a token a `{` enters the key state
      and anything else is copied; inside, a `}` resolves the token and
      anything else extends the key; the end of the template inside a
      token resolves the unclosed tail. */
  function Scanner(s: string, i: nat, inKey: bool, start: int, reg: map<string, Generator>, strict: bool, r: Rand): Outcome
    requires i <= |s| && (inKey ==> 0 <= start < i)
    decreases |s| - i
  {
    if i == |s| then
      if inKey then Step(Unclosed(s[start + 1..], start), reg, strict, r) else Done("", r)
    else if !inKey then
      if s[i] != '{' then Prefix([s[i]], Scanner(s, i + 1, false, start, reg, strict, r))
      else Scanner(s, i + 1, true, i, reg, strict, r)
    else if s[i] != '}' then Scanner(s, i + 1, true, start, reg, strict, r)
    else
      match Step(Token(s[start + 1..i], start), reg, strict, r)
      case Abort(e) => Abort(e)
      case Done(t, r1) => Prefix(t, Scanner(s, i + 1, false, start, reg, strict, r1))
  }

  /** The state machine computes the two-stage specification: from any
      state it reaches, it resolves the pieces that remain. */
  lemma {:induction false} ScannerIsResolve(s: string, i: nat, inKey: bool, start: int, reg: map<string, Generator>, strict: bool, r: Rand)
    requires i <= |s| && (inKey ==> 0 <= start < i)
    ensures Scanner(s, i, inKey, start, reg, strict, r) == Remaining(s, i, inKey, start, reg, strict, r)
    decreases |s| - i
  {
    if i == |s| {
      if inKey {
        RemainingEnd(s, start, reg, strict, r);
      }
    } else if !inKey {
      ScannerIsResolve(s, i + 1, s[i] == '{', if s[i] == '{' then i else start, reg, strict, r);
      if s[i] != '{' {
        RemainingLit(s, i, start, reg, strict, r);
      }
    } else if s[i] != '}' {
      ScannerIsResolve(s, i + 1, true, start, reg, strict, r);
    } else {
      RemainingClose(s, i, start, reg, strict, r);
      var o := Step(Token(s[start + 1..i], start), reg, strict, r);
      if o.Done? {
        ScannerIsResolve(s, i + 1, false, start, reg, strict, o.rand);
      }
    }
  }

  lemma KeyExtend(s: string, a: nat, i: nat)
    requires a <= i < |s|
    ensures s[a..i] + [s[i]] == s[a..i + 1]
  {
  }

  /** The options loop of GenerateContext: a fresh configuration, strict
      and seeded from the wall clock, changed by each option in turn. */
  method Configure(opts: seq<Option>, supply: WordSupply, clock: nat -> nat) returns (cfg: Config)
    ensures fresh(cfg)
    ensures cfg.Value() == ApplyOptions(opts, Initial(clock), supply)
  {
    cfg := new Config(clock);
    for j := 0 to |opts|
      invariant cfg.Value() == ApplyOptions(opts[..j], Initial(clock), supply)
    {
      assert opts[..j + 1][..j] == opts[..j];
      cfg.Apply(opts[j], supply);
    }
    assert opts[..|opts|] == opts;
  }

  /** A closed token resolved in place: an unknown key fails in strict
      mode and is kept as `{key}` otherwise; a known key's generator runs
      on the configuration's random source, and its failure is returned. */
  method ResolveToken(cfg: Config, key: string, tokenStart: nat) returns (text: string, err: ErrorValue)
    modifies cfg
    ensures cfg.generators == old(cfg.generators) && cfg.strict == old(cfg.strict)
    ensures var o := Step(Token(key, tokenStart), old(cfg.generators), old(cfg.strict), old(cfg.rand));
      && (o.Done? ==> err == Nil && text == o.text && cfg.rand == o.rand)
      && (o.Abort? ==> err == Failed(o.error))
  {
    if key !in cfg.generators {
      if cfg.strict {
        return "", Failed(UnknownGenerator(key, tokenStart));
      }
      return "{" + key + "}", Nil;
    }
    var o := Run(cfg.generators[key], cfg.rand);
    if o.GenError? {
      return "", Failed(GeneratorFailure(key, tokenStart, o.cause));
    }
    cfg.rand := o.rand;
    return o.text, Nil;
  }

  /** The scanning loop of GenerateContext, two states (literal text and
      inside a token), over a configured registry, strict flag and random
      source; the generators draw from the configuration's source in place. */
  method Scan(s: string, cfg: Config) returns (out: string, err: ErrorValue)
    modifies cfg
    ensures cfg.generators == old(cfg.generators) && cfg.strict == old(cfg.strict)
    ensures var e := Scanner(s, 0, false, -1, old(cfg.generators), old(cfg.strict), old(cfg.rand));
      && (e.Done? ==> err == Nil && out == e.text && cfg.rand == e.rand)
      && (e.Abort? ==> err == Failed(e.error) && out == "")
  {
    var res: string := "";
    var inKey := false;
    var key: string := "";
    var tokenStart: int := -1;
    var i := 0;
    ghost var reg, strict := cfg.generators, cfg.strict;
    ghost var whole := Scanner(s, 0, false, -1, reg, strict, cfg.rand);
    while i < |s|
      invariant 0 <= i <= |s|
      invariant cfg.generators == reg && cfg.strict == strict
      invariant inKey ==> 0 <= tokenStart < i && key == s[tokenStart + 1..i]
      invariant whole == Prefix(res, Scanner(s, i, inKey, tokenStart, reg, strict, cfg.rand))
      decreases |s| - i
    {
      if !inKey {
        if s[i] != '{' {
          PrefixPrefix(res, [s[i]], Scanner(s, i + 1, false, tokenStart, reg, strict, cfg.rand));
          res := res + [s[i]];
          i := i + 1;
          continue;
        }
        tokenStart := i;
        inKey := true;
        key := "";
        i := i + 1;
        continue;
      }
      if s[i] != '}' {
        KeyExtend(s, tokenStart + 1, i);
        key := key + [s[i]];
        i := i + 1;
        continue;
      }
      inKey := false;
      i := i + 1;
      var text, e := ResolveToken(cfg, key, tokenStart);
      if e.Failed? {
        return "", e;
      }
      PrefixPrefix(res, text, Scanner(s, i, false, tokenStart, reg, strict, cfg.rand));
      res := res + text;
    }
    if inKey {
      if cfg.strict {
        return "", Failed(UnclosedToken(tokenStart));
      }
      res := res + ("{" + key);
    } else {
      assert res + "" == res;
    }
    return res, Nil;
  }

  /** GenerateContext: apply the options to a fresh configuration, then scan
      the template once. Every error returns an empty string with the
      error. */
  method GenerateContext(template: string, opts: seq<Option>, supply: WordSupply, clock: nat -> nat)
    returns (out: string, err: ErrorValue)
    ensures var e := Expansion(template, opts, supply, clock);
      && (e.Done? ==> err == Nil && out == e.text)
      && (e.Abort? ==> err == Failed(e.error) && out == "")
  {
    var cfg := Configure(opts, supply, clock);
    ScannerIsResolve(template, 0, false, -1, cfg.generators, cfg.strict, cfg.rand);
    out, err := Scan(template, cfg);
  }
}
