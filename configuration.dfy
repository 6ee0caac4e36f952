/** The configuration a generation call builds: a registry of generators,
    the strict flag and the random source, changed in place by options
    applied in order. */
module Configuration {
  import opened Generators

  /** The options a caller can pass. WithSeed carries the stream that the
      PCG generator seeded with the caller's value would produce. */
  datatype Option =
    | WithDefaultGenerators
    | WithGenerator(token: string, generator: Generator)
    | WithSeed(seeded: nat -> nat)
    | WithStrict(strict: bool)

  /** The value of a configuration. */
  datatype Settings = Settings(generators: map<string, Generator>, strict: bool, rand: Rand)

  /** The configuration before any option: strict, no generators, and a
      source seeded from the wall clock. `clock` is not a time reading: it
      is the stream of draws that seeding from the current time yields. */
  function Initial(clock: nat -> nat): Settings {
    Settings(map[], true, Rand(clock, 0))
  }

  /** The registry after installing defaults: keys already present keep
      their generator, absent default keys get the default one, and nothing
      else is added. */
  function MergeAbsent(m: map<string, Generator>, d: map<string, Generator>): (r: map<string, Generator>)
    ensures r.Keys == m.Keys + d.Keys
    ensures forall k :: k in m ==> r[k] == m[k]
    ensures forall k :: k in d && k !in m ==> r[k] == d[k]
  {
    d + m
  }

  /** The effect of one option on the configuration. */
  function ApplyOption(st: Settings, opt: Option, supply: WordSupply): Settings {
    match opt
    case WithDefaultGenerators => st.(generators := MergeAbsent(st.generators, DefaultGenerators(supply)))
    case WithGenerator(k, g) => st.(generators := st.generators[k := g])
    case WithSeed(seeded) => st.(rand := Rand(seeded, 0))
    case WithStrict(b) => st.(strict := b)
  }

  /** The options applied in order, the first one first. */
  function ApplyOptions(opts: seq<Option>, st: Settings, supply: WordSupply): Settings {
    if opts == [] then st
    else ApplyOption(ApplyOptions(opts[..|opts| - 1], st, supply), opts[|opts| - 1], supply)
  }

  /** Strict mode is the default: unless an option sets the flag, the
      configuration stays strict. */
  lemma {:induction false} StrictByDefault(opts: seq<Option>, clock: nat -> nat, supply: WordSupply)
    requires forall k :: 0 <= k < |opts| ==> !opts[k].WithStrict?
    ensures ApplyOptions(opts, Initial(clock), supply).strict
  {
    if opts != [] {
      StrictByDefault(opts[..|opts| - 1], clock, supply);
    }
  }

  /** The registry and the strict flag do not depend on the random source
      the options start from. */
  lemma {:induction false} OptionsIgnoreRand(opts: seq<Option>, a: Settings, b: Settings, supply: WordSupply)
    requires a.generators == b.generators && a.strict == b.strict
    ensures ApplyOptions(opts, a, supply).generators == ApplyOptions(opts, b, supply).generators
    ensures ApplyOptions(opts, a, supply).strict == ApplyOptions(opts, b, supply).strict
  {
    if opts != [] {
      OptionsIgnoreRand(opts[..|opts| - 1], a, b, supply);
    }
  }

  /** With a seed among the options, the configuration no longer depends on
      the wall clock: the same options give the same configuration. */
  lemma {:induction false} SeedFixesConfiguration(opts: seq<Option>, c1: nat -> nat, c2: nat -> nat, supply: WordSupply)
    requires exists k :: 0 <= k < |opts| && opts[k].WithSeed?
    ensures ApplyOptions(opts, Initial(c1), supply) == ApplyOptions(opts, Initial(c2), supply)
  {
    var n := |opts| - 1;
    var front := opts[..n];
    OptionsIgnoreRand(front, Initial(c1), Initial(c2), supply);
    if !opts[n].WithSeed? {
      var k :| 0 <= k < |opts| && opts[k].WithSeed?;
      assert front[k] == opts[k];
      SeedFixesConfiguration(front, c1, c2, supply);
    }
  }

  /** The configuration object the options change in place. */
  class Config {
    var generators: map<string, Generator>
    var strict: bool
    var rand: Rand

    function Value(): Settings
      reads this
    {
      Settings(generators, strict, rand)
    }

    constructor (clock: nat -> nat)
      ensures Value() == Initial(clock)
    {
      generators := map[];
      strict := true;
      rand := Rand(clock, 0);
    }

    /** Installs each default generator whose key is absent; keys already
        registered keep their generator. */
    method WithDefaultGenerators(supply: WordSupply)
      modifies this
      ensures generators == MergeAbsent(old(generators), DefaultGenerators(supply))
      ensures strict == old(strict) && rand == old(rand)
    {
      InsertAbsent(DefaultGenerators(supply));
    }

    /** The loop of WithDefaultGenerators: every entry of `defaults` whose
        key is not yet registered is inserted, in any order. */
    method InsertAbsent(defaults: map<string, Generator>)
      modifies this
      ensures generators == MergeAbsent(old(generators), defaults)
      ensures strict == old(strict) && rand == old(rand)
    {
      var pending := defaults.Keys;
      while pending != {}
        invariant pending <= defaults.Keys
        invariant generators.Keys == old(generators).Keys + (defaults.Keys - pending)
        invariant forall k :: k in old(generators) ==> generators[k] == old(generators)[k]
        invariant forall k :: k in defaults.Keys - pending && k !in old(generators) ==> generators[k] == defaults[k]
        invariant strict == old(strict) && rand == old(rand)
        decreases pending
      {
        var k :| k in pending;
        if k !in generators {
          generators := generators[k := defaults[k]];
        }
        pending := pending - {k};
      }
    }

    /** Registers one generator under `token`, replacing any previous one;
        no other key changes. */
    method WithGenerator(token: string, generator: Generator)
      modifies this
      ensures token in generators && generators[token] == generator
      ensures generators.Keys == old(generators).Keys + {token}
      ensures forall k :: k in old(generators) && k != token ==> generators[k] == old(generators)[k]
      ensures strict == old(strict) && rand == old(rand)
    {
      generators := generators[token := generator];
    }

    /** Replaces the random source with the seeded one. */
    method WithSeed(seeded: nat -> nat)
      modifies this
      ensures rand == Rand(seeded, 0)
      ensures generators == old(generators) && strict == old(strict)
    {
      rand := Rand(seeded, 0);
    }

    method WithStrict(strict: bool)
      modifies this
      ensures this.strict == strict
      ensures generators == old(generators) && rand == old(rand)
    {
      this.strict := strict;
    }

    /** Applies one option: opt(&cfg). */
    method Apply(opt: Option, supply: WordSupply)
      modifies this
      ensures Value() == ApplyOption(old(Value()), opt, supply)
    {
      match opt
      case WithDefaultGenerators => WithDefaultGenerators(supply);
      case WithGenerator(k, g) => WithGenerator(k, g);
      case WithSeed(seeded) => WithSeed(seeded);
      case WithStrict(b) => WithStrict(b);
    }
  }
}
