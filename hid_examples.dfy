/** The cases of pkg/hid/hid_test.go, stated about Expansion, the result
    GenerateContext returns. Caller closures that return a fixed text are
    Const generators, which take no draw. */
module HidExamples {
  import opened Generators
  import opened Configuration
  import opened Hid
  import opened HidProperties

  /** Two caller generators and a strict flag, applied in order. */
  lemma TwoGenerators(a: Generator, n: Generator, strict: bool, supply: WordSupply, clock: nat -> nat)
    ensures ApplyOptions([WithGenerator("adj", a), WithGenerator("num", n), WithStrict(strict)], Initial(clock), supply)
      == Settings(map["adj" := a, "num" := n], strict, Rand(clock, 0))
  {
    var opts := [WithGenerator("adj", a), WithGenerator("num", n), WithStrict(strict)];
    var st := Initial(clock);
    assert [opts[0]][..0] == [];
    assert ApplyOptions([opts[0]], st, supply) == st.(generators := map["adj" := a]);
    assert [opts[0], opts[1]][..1] == [opts[0]];
    assert ApplyOptions([opts[0], opts[1]], st, supply) == st.(generators := map["adj" := a, "num" := n]);
    assert opts[..2] == [opts[0], opts[1]];
  }

  // "{adj}%{num}(something).txt"

  lemma PercentAdj(s: string)
    requires s == "{adj}%{num}(something).txt"
    ensures TokenAt(s, "adj", 0)
  {
    assert s[0] == '{' && s[1] == 'a' && s[2] == 'd' && s[3] == 'j' && s[4] == '}';
    assert s[..5] == "{adj}";
  }

  lemma PercentNum(s: string)
    requires s == "{adj}%{num}(something).txt"
    ensures TokenAt(s, "num", 6) && s[5..6] == "%" && s[5] != '{'
  {
    assert s[5] == '%';
    assert s[5..6] == "%";
    assert s[6] == '{' && s[7] == 'n' && s[8] == 'u' && s[9] == 'm' && s[10] == '}';
    assert s[6..11] == "{num}";
    assert "{" + "num" + "}" == "{num}";
  }

  lemma PercentTail(s: string)
    requires s == "{adj}%{num}(something).txt"
    ensures |s| == 26 && s[11..] == "(something).txt"
    ensures forall k :: 11 <= k < |s| ==> s[k] != '{'
  {
  }

  lemma PercentText(s: string, reg: map<string, Generator>, r: Rand)
    requires |s| == 26 && TokenAt(s, "adj", 0) && TokenAt(s, "num", 6)
    requires s[5..6] == "%" && s[5] != '{'
    requires forall k :: 11 <= k < |s| ==> s[k] != '{'
    requires "adj" in reg && reg["adj"] == Const("fluffy")
    requires "num" in reg && reg["num"] == Const("42")
    ensures Resolve(Tokenize(s, 0), reg, true, r) == Done("fluffy" + ("%" + ("42" + s[11..])), r)
  {
    var tail := s[11..];
    assert Resolve(Tokenize(s, 11), reg, true, r) == Done(tail, r) by {
      LiteralRun(s, 11, |s|, reg, true, r);
      assert s[11..|s|] + "" == tail;
    }
    assert Resolve(Tokenize(s, 6), reg, true, r) == Done("42" + tail, r) by {
      TokenRun(s, "num", 6, reg, true, r);
    }
    assert Resolve(Tokenize(s, 5), reg, true, r) == Done("%" + ("42" + tail), r) by {
      LiteralRun(s, 5, 6, reg, true, r);
    }
    TokenRun(s, "adj", 0, reg, true, r);
  }

  lemma FluffyText(t: string)
    requires t == "(something).txt"
    ensures "fluffy" + ("%" + ("42" + t)) == "fluffy%42(something).txt"
  {
  }

  /** "{adj}%{num}(something).txt" with adj -> "fluffy" and num -> "42" in
      strict mode gives "fluffy%42(something).txt". */
  lemma ReplacesMultipleTokens(supply: WordSupply, clock: nat -> nat)
    ensures Expansion("{adj}%{num}(something).txt",
      [WithGenerator("adj", Const("fluffy")), WithGenerator("num", Const("42")), WithStrict(true)],
      supply, clock) == Done("fluffy%42(something).txt", Rand(clock, 0))
  {
    var s := "{adj}%{num}(something).txt";
    TwoGenerators(Const("fluffy"), Const("42"), true, supply, clock);
    PercentAdj(s);
    PercentNum(s);
    PercentTail(s);
    PercentText(s, map["adj" := Const("fluffy"), "num" := Const("42")], Rand(clock, 0));
    FluffyText(s[11..]);
  }

  // "{adj}-{unknown}-{num}"

  lemma UnknownAdj(s: string)
    requires s == "{adj}-{unknown}-{num}"
    ensures TokenAt(s, "adj", 0) && s[5..6] == "-" && s[5] != '{'
  {
    assert s[0] == '{' && s[1] == 'a' && s[2] == 'd' && s[3] == 'j' && s[4] == '}';
    assert s[..5] == "{adj}";
  }

  lemma UnknownKey(s: string)
    requires s == "{adj}-{unknown}-{num}"
    ensures TokenAt(s, "unknown", 6)
  {
    assert s[6] == '{' && s[7] == 'u' && s[8] == 'n' && s[9] == 'k' && s[10] == 'n';
    assert s[11] == 'o' && s[12] == 'w' && s[13] == 'n' && s[14] == '}';
    assert s[6..15] == "{unknown}";
  }

  lemma UnknownNum(s: string)
    requires s == "{adj}-{unknown}-{num}"
    ensures |s| == 21 && TokenAt(s, "num", 16) && s[15..16] == "-" && s[15] != '{'
  {
    assert s[16] == '{' && s[17] == 'n' && s[18] == 'u' && s[19] == 'm' && s[20] == '}';
    assert s[16..21] == "{num}";
  }

  /** The unknown key stops a strict pass at the `{` that opened it. */
  lemma UnknownStrictText(s: string, reg: map<string, Generator>, r: Rand)
    requires TokenAt(s, "adj", 0) && TokenAt(s, "unknown", 6)
    requires s[5..6] == "-" && s[5] != '{'
    requires "adj" in reg && reg["adj"] == Const("fluffy") && "unknown" !in reg
    ensures Resolve(Tokenize(s, 0), reg, true, r) == Abort(UnknownGenerator("unknown", 6))
  {
    assert Resolve(Tokenize(s, 6), reg, true, r) == Abort(UnknownGenerator("unknown", 6)) by {
      TokenRun(s, "unknown", 6, reg, true, r);
    }
    assert Resolve(Tokenize(s, 5), reg, true, r) == Abort(UnknownGenerator("unknown", 6)) by {
      LiteralRun(s, 5, 6, reg, true, r);
    }
    TokenRun(s, "adj", 0, reg, true, r);
  }

  lemma NumTail(s: string, reg: map<string, Generator>, r: Rand)
    requires |s| == 21 && TokenAt(s, "num", 16) && s[15..16] == "-" && s[15] != '{'
    requires "num" in reg && reg["num"] == Const("42")
    ensures Resolve(Tokenize(s, 15), reg, false, r) == Done("-" + ("42" + ""), r)
  {
    assert Resolve(Tokenize(s, 16), reg, false, r) == Done("42" + "", r) by {
      TokenRun(s, "num", 16, reg, false, r);
    }
    LiteralRun(s, 15, 16, reg, false, r);
  }

  /** Outside strict mode the unknown token is kept as written. */
  lemma UnknownLenientText(s: string, reg: map<string, Generator>, r: Rand)
    requires |s| == 21 && TokenAt(s, "adj", 0) && TokenAt(s, "unknown", 6) && TokenAt(s, "num", 16)
    requires s[5..6] == "-" && s[5] != '{' && s[15..16] == "-" && s[15] != '{'
    requires "adj" in reg && reg["adj"] == Const("fluffy") && "unknown" !in reg
    requires "num" in reg && reg["num"] == Const("42")
    ensures Resolve(Tokenize(s, 0), reg, false, r) == Done("fluffy" + ("-" + (("{" + "unknown" + "}") + ("-" + ("42" + "")))), r)
  {
    var rest := "-" + ("42" + "");
    assert Resolve(Tokenize(s, 15), reg, false, r) == Done(rest, r) by {
      NumTail(s, reg, r);
    }
    assert Resolve(Tokenize(s, 6), reg, false, r) == Done(("{" + "unknown" + "}") + rest, r) by {
      TokenRun(s, "unknown", 6, reg, false, r);
    }
    assert Resolve(Tokenize(s, 5), reg, false, r) == Done("-" + (("{" + "unknown" + "}") + rest), r) by {
      LiteralRun(s, 5, 6, reg, false, r);
    }
    TokenRun(s, "adj", 0, reg, false, r);
  }

  lemma UnknownText()
    ensures "fluffy" + ("-" + (("{" + "unknown" + "}") + ("-" + ("42" + "")))) == "fluffy-{unknown}-42"
  {
  }

  /** "{adj}-{unknown}-{num}" in strict mode fails with UnknownGenerator,
      reporting the key and the offset of its `{`. */
  lemma UnknownKeyStrictErrors(supply: WordSupply, clock: nat -> nat)
    ensures Expansion("{adj}-{unknown}-{num}",
      [WithGenerator("adj", Const("fluffy")), WithGenerator("num", Const("42")), WithStrict(true)],
      supply, clock) == Abort(UnknownGenerator("unknown", 6))
  {
    var s := "{adj}-{unknown}-{num}";
    TwoGenerators(Const("fluffy"), Const("42"), true, supply, clock);
    UnknownAdj(s);
    UnknownKey(s);
    UnknownNum(s);
    UnknownStrictText(s, map["adj" := Const("fluffy"), "num" := Const("42")], Rand(clock, 0));
  }

  /** "{adj}-{unknown}-{num}" outside strict mode gives
      "fluffy-{unknown}-42". */
  lemma UnknownKeyLenientKeepsToken(supply: WordSupply, clock: nat -> nat)
    ensures Expansion("{adj}-{unknown}-{num}",
      [WithGenerator("adj", Const("fluffy")), WithGenerator("num", Const("42")), WithStrict(false)],
      supply, clock) == Done("fluffy-{unknown}-42", Rand(clock, 0))
  {
    var s := "{adj}-{unknown}-{num}";
    TwoGenerators(Const("fluffy"), Const("42"), false, supply, clock);
    UnknownAdj(s);
    UnknownKey(s);
    UnknownNum(s);
    UnknownLenientText(s, map["adj" := Const("fluffy"), "num" := Const("42")], Rand(clock, 0));
    UnknownText();
  }

  // "prefix-{adj"

  /** One caller generator and a strict flag, applied in order. */
  lemma OneGenerator(a: Generator, strict: bool, supply: WordSupply, clock: nat -> nat)
    ensures ApplyOptions([WithGenerator("adj", a), WithStrict(strict)], Initial(clock), supply)
      == Settings(map["adj" := a], strict, Rand(clock, 0))
  {
    var opts := [WithGenerator("adj", a), WithStrict(strict)];
    var st := Initial(clock);
    assert [opts[0]][..0] == [];
    assert ApplyOptions([opts[0]], st, supply) == st.(generators := map["adj" := a]);
    assert opts[..1] == [opts[0]];
  }

  lemma PrefixLayout(s: string)
    requires s == "prefix-{adj"
    ensures |s| == 11 && s[7] == '{'
    ensures forall k :: 0 <= k < 7 ==> s[k] != '{'
    ensures forall k :: 7 < k < 11 ==> s[k] != '}'
  {
  }

  /** The text before the unclosed token is copied, and the unclosed tail
      is resolved last. */
  lemma PrefixText(s: string, reg: map<string, Generator>, strict: bool, r: Rand)
    requires |s| == 11 && s[7] == '{'
    requires forall k :: 0 <= k < 7 ==> s[k] != '{'
    requires forall k :: 7 < k < 11 ==> s[k] != '}'
    ensures Resolve(Tokenize(s, 0), reg, strict, r) == Prefix(s[..7], Step(Unclosed(s[8..], 7), reg, strict, r))
  {
    LiteralRun(s, 0, 7, reg, strict, r);
    UnclosedRun(s, 7, reg, strict, r);
  }

  /** "prefix-{adj" in strict mode fails with UnclosedToken at the offset
      of the `{`. */
  lemma UnclosedStrictErrors(supply: WordSupply, clock: nat -> nat)
    ensures Expansion("prefix-{adj", [WithGenerator("adj", Const("fluffy")), WithStrict(true)], supply, clock)
      == Abort(UnclosedToken(7))
  {
    var s := "prefix-{adj";
    OneGenerator(Const("fluffy"), true, supply, clock);
    PrefixLayout(s);
    PrefixText(s, map["adj" := Const("fluffy")], true, Rand(clock, 0));
  }

  /** "prefix-{adj" outside strict mode is kept as it is: `{` and the key,
      with no `}` added. */
  lemma UnclosedLenientKeepsRemainder(supply: WordSupply, clock: nat -> nat)
    ensures Expansion("prefix-{adj", [WithGenerator("adj", Const("fluffy")), WithStrict(false)], supply, clock)
      == Done("prefix-{adj", Rand(clock, 0))
  {
    var s := "prefix-{adj";
    OneGenerator(Const("fluffy"), false, supply, clock);
    PrefixLayout(s);
    PrefixText(s, map["adj" := Const("fluffy")], false, Rand(clock, 0));
    assert s[..7] + ("{" + s[8..]) == s;
  }

  // "{adj}" with a caller generator installed before the defaults

  lemma CustomText(s: string, reg: map<string, Generator>, r: Rand)
    requires |s| == 5 && TokenAt(s, "adj", 0)
    requires "adj" in reg && reg["adj"] == Const("CUSTOM")
    ensures Resolve(Tokenize(s, 0), reg, true, r) == Done("CUSTOM", r)
  {
    TokenRun(s, "adj", 0, reg, true, r);
    assert "CUSTOM" + "" == "CUSTOM";
  }

  /** WithDefaultGenerators after WithGenerator("adj", ...) keeps the
      caller's generator: "{adj}" gives "CUSTOM". */
  lemma DefaultsDoNotOverride(supply: WordSupply, clock: nat -> nat)
    ensures Expansion("{adj}", [WithGenerator("adj", Const("CUSTOM")), WithDefaultGenerators, WithStrict(true)], supply, clock)
      == Done("CUSTOM", Rand(clock, 0))
  {
    var s := "{adj}";
    var opts := [WithGenerator("adj", Const("CUSTOM")), WithDefaultGenerators, WithStrict(true)];
    var st := Initial(clock);
    var reg := MergeAbsent(map["adj" := Const("CUSTOM")], DefaultGenerators(supply));
    assert [opts[0]][..0] == [];
    assert ApplyOptions([opts[0]], st, supply) == st.(generators := map["adj" := Const("CUSTOM")]);
    assert [opts[0], opts[1]][..1] == [opts[0]];
    assert ApplyOptions([opts[0], opts[1]], st, supply) == st.(generators := reg);
    assert opts[..2] == [opts[0], opts[1]];
    assert ApplyOptions(opts, st, supply) == Settings(reg, true, Rand(clock, 0));
    assert s[..5] == "{adj}" by {
      assert s[0] == '{' && s[1] == 'a' && s[2] == 'd' && s[3] == 'j' && s[4] == '}';
    }
    CustomText(s, reg, Rand(clock, 0));
  }

  // A `{` inside a token

  /** With no options (strict, empty registry), "{a{b" fails with
      UnclosedToken at offset 0: the `{` that opened the token, not the
      later one, which is key text. */
  lemma NestedOpenReportsFirst(supply: WordSupply, clock: nat -> nat)
    ensures Expansion("{a{b", [], supply, clock) == Abort(UnclosedToken(0))
  {
    var s := "{a{b";
    assert forall k :: 0 < k < |s| ==> s[k] != '}';
    UnclosedRun(s, 0, map[], true, Rand(clock, 0));
  }
}
