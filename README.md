# go-human-readable-id in Dafny

A model of the template expander of go-human-readable-id, with proofs about it.
The expander turns a template such as `{adj}-{noun}-{3-digit}` into a readable identifier:

- It makes one left-to-right pass over the template.
- Literal text is copied.
- Each `{key}` token is replaced with the output of the generator registered under `key`.
- The pass stops at the first error.

The model covers four parts of the library:

- **The scanner, `GenerateContext`** (`hid.dfy`). It is a two-state loop that copies literal text and collects the key of each token.
  - When a `}` closes a token, the scanner looks the key up.
  - In strict mode an unknown key is an error. Otherwise the token is copied back as `{key}`.
  - A generator error always ends the pass.
  - An unclosed token at the end of the template is an error in strict mode. Otherwise it is copied back as `{` and its key.

  The loop is an imperative method (`Hid.Scan`). It is proved equal to a state-machine function (`Hid.Scanner`). That function is proved equal to a two-stage specification:
  - `Hid.Tokenize` cuts the template into literal characters, closed tokens and an unclosed tail.
  - `Hid.Resolve` turns those pieces into text, drawing from the random source in token order.

  Properties of the specification are proved in `hid_properties.dfy`. The cases of the library's own test file are proved in `hid_examples.dfy`.
- **The configuration and its options** (`configuration.dfy`). A `Config` holds the generator registry, the strict flag and the random source. Options change it in place, in the order given.
  - `WithGenerator` sets one key.
  - `WithDefaultGenerators` adds only the default keys that are missing.
  - `WithSeed` replaces the random source.
  - `WithStrict` sets the flag.

  Each option is a method of the `Config` class. Its pure counterpart, `ApplyOption`, on a `Settings` value, specifies the expansion.
- **The built-in generators** (`generators.dfy`).
  - `WordGenerator` picks one word of a list and fails on an empty list.
  - `IntGenerator` writes a number of a range in decimal and fails when `min > max`.
  - `DefaultGenerators` is the default registry: `adj`, `noun`, `verb`, `digit`, `2-digit` and `3-digit`.
  - Decimal rendering, the equivalent of `strconv.Itoa`, is in `strconv.dfy`.
- **The word-list parser, `parseLines`** (`words.dfy`). It splits text on line feeds, trims each line, and drops blank lines and lines starting with `#`. It is an imperative loop, proved equal to `Filter(TrimLines(Split(s)))`.

Randomness is a stream of raw draws (`Generators.Rand`), consumed in token order: a word or integer generator that succeeds takes exactly one draw; constant and failing generators take none. The wall clock enters as a parameter, `clock`: not a time reading, but the stream of draws that the source seeded from `time.Now()` yields.

In the code, an unclosed token reports the offset of the `{` that opened the token. `tokenStart` is set only when the scanner is outside a token (pkg/hid/hid.go:59-63), and a `{` inside a token is plain key text. One might expect the last `{` to be reported; the code reports the first, and so does the model: `"{a{b"` fails with `UnclosedToken(0)` (`HidExamples.NestedOpenReportsFirst`).

## Model

| member | source | states |
|---|---|---|
| Strconv.NatDigits | pkg/hid/hid.go:179 | the decimal digits of a natural number, non-empty, with no leading zero: a text starting with `0` is exactly "0" |
| Strconv.NatDigitsRoundTrip | pkg/hid/hid.go:179 | reading the digits back gives the number |
| Strconv.Itoa | pkg/hid/hid.go:179 | the text is a well-formed decimal whose value is `n`; it starts with `-` exactly when `n < 0`; no leading zero: a non-negative number's text starting with `0` is exactly "0", and a negative number's first digit is not `0` |
| Strconv.NatDigitsWidth | pkg/hid/hid.go:188-190 | numbers below 10, 100 and 1000 have 1, 2 and 3 digits |
| Words.Split | internal/words/words.go:30 | one line more than there are line feeds, and no line holds a line feed |
| Words.SplitJoin | internal/words/words.go:30 | joining the lines with line feeds gives back the text |
| Words.Trim | internal/words/words.go:33 | the trimmed line has no white space at either end and is the middle of the line, with only white space cut off on both sides |
| Words.TrimmedIsFixpoint | internal/words/words.go:33 | a line with no white space at its ends trims to itself |
| Words.TrimLines | internal/words/words.go:32-33 | every line is trimmed, in order, and none is lost |
| Words.Filter | internal/words/words.go:34-37 | at most as many words as lines, and every kept word is non-empty and does not start with `#` |
| Words.Sources | internal/words/words.go:32-38 | every kept word is the line at a recorded source position |
| Words.SourcesIncrease | internal/words/words.go:32-38 | the source positions strictly increase, so the kept words keep the order of their lines |
| Words.SourcesComplete | internal/words/words.go:34-37 | every line that is non-empty and does not start with `#` is kept |
| Words.FilterKeepsTrimmed | internal/words/words.go:33-37 | filtering trimmed lines leaves words that equal their own trim |
| Words.ParseLines | internal/words/words.go:29-40 | the loop returns exactly the trimmed lines that are non-empty and do not start with `#`, in order; at most one word more than the line feeds; each word is non-empty, does not start with `#` and equals its own trim |
| Generators.IntN | pkg/hid/hid.go:168 | one draw gives a number below `n` and advances the source by exactly one draw |
| Generators.WordGenerator | pkg/hid/hid.go:163-171 | fails if and only if the list is empty, with "empty word list"; otherwise yields an element of the list and takes one draw |
| Generators.EveryWordReachable | pkg/hid/hid.go:163-171 | every word of the list is produced by some draw |
| Generators.IntGenerator | pkg/hid/hid.go:173-181 | fails if and only if `min > max`, with "min > max"; otherwise yields the decimal text, as `Itoa` writes it, of a number in `[min, max]` and takes one draw |
| Generators.EveryIntReachable | pkg/hid/hid.go:173-181 | every number of the range is produced by some draw |
| Generators.RunFailsIffFails | pkg/hid/hid.go:88-91 | calling a generator fails exactly when the generator is a failing one, with its cause, whatever the random source |
| Generators.DefaultGenerators | pkg/hid/hid.go:183-192 | the default registry has exactly the six keys adj, noun, verb, digit, 2-digit, 3-digit |
| Generators.RangeWidth | pkg/hid/hid.go:173-181 | a non-empty range below 1000 never fails, and its text is 1, 2 or 3 characters wide as its bounds are |
| Generators.DefaultDigitWidths | pkg/hid/hid.go:188-190 | the default digit, 2-digit and 3-digit generators never fail and give 1, 2 and 3 digits |
| Generators.DefaultWordsFromSupply | pkg/hid/hid.go:151-161 | the default adj, noun and verb generators fail exactly when their word list is empty, and otherwise yield a word of that list |
| Generators.Wrap64 | pkg/hid/hid.go:178 | 64-bit two's-complement wrap-around: always in int64 range, equal to the argument modulo 2^64, and so the identity on int64 values |
| Generators.IntNArgAsWrittenOverflows | pkg/hid/hid.go:178 | as written, `max-min+1` is the range size only while `max-min` is below the largest int64; otherwise it is zero or negative |
| Generators.FullRangeIntNArgIsZero | pkg/hid/hid.go:178 | for the full int64 range, a valid call, the argument passed to `IntN` is 0 |
| Configuration.MergeAbsent | pkg/hid/hid.go:119-130 | after merging the defaults, the keys are the old keys plus the default keys; old keys keep their generator; absent default keys get the default |
| Configuration.StrictByDefault | pkg/hid/hid.go:25-37 | unless an option sets the flag, the configuration is strict |
| Configuration.OptionsIgnoreRand | pkg/hid/hid.go:35-37 | the registry and the flag the options build do not depend on the random source |
| Configuration.SeedFixesConfiguration | pkg/hid/hid.go:141-145 | with a seed option, the configuration does not depend on the wall clock |
| Configuration.Config.constructor | pkg/hid/hid.go:25-34 | a new configuration is strict, has an empty registry and a source seeded from the clock |
| Configuration.Config.WithDefaultGenerators | pkg/hid/hid.go:119-130 | the registry becomes the merge of the old one with the defaults, keeping existing keys; the flag and the source are unchanged |
| Configuration.Config.InsertAbsent | pkg/hid/hid.go:124-128 | the loop inserts exactly the absent keys of the defaults, so the registry becomes the merge; nothing else changes |
| Configuration.Config.WithGenerator | pkg/hid/hid.go:132-139 | the key maps to the new generator, the key set grows by that key only, and every other key keeps its generator; the flag and the source are unchanged |
| Configuration.Config.WithSeed | pkg/hid/hid.go:141-145 | the source is replaced by the seeded one, and nothing else changes |
| Configuration.Config.WithStrict | pkg/hid/hid.go:147-149 | the flag is set, and nothing else changes |
| Configuration.Config.Apply | pkg/hid/hid.go:35-37 | applying one option to the configuration in place gives the value the pure option function specifies |
| Hid.TokenizeRoundTrip | pkg/hid/hid.go:51-97 | the pieces of a template, put back together, are the template: the scan loses and adds nothing |
| Hid.KeyRoundTrip | pkg/hid/hid.go:65-95 | the pieces cut from inside a token, put back together, are the rest of the template from its `{` |
| Hid.TokenizeWellFormed | pkg/hid/hid.go:59-71 | every token sits at its recorded offset as `{key}`, with no `}` in the key; an unclosed tail is `{` and its key up to the end |
| Hid.KeyWellFormed | pkg/hid/hid.go:65-71 | the same placement for the pieces cut from inside a token |
| Hid.Step | pkg/hid/hid.go:71-104 | resolving one piece fails exactly with the error its kind names: unknown key in strict mode, failing generator, or unclosed in strict mode; a literal, an unknown key outside strict mode (as `{key}`) and an unclosed tail outside strict mode are copied back as the text they were cut from and take no draw; a known key whose generator does not fail gives that generator's output and the source after its draw |
| Hid.ResolveCons | pkg/hid/hid.go:51-97 | a pass over a piece and the rest is the piece's text before the pass over the rest, or the piece's error |
| Hid.RemainingLit | pkg/hid/hid.go:53-57 | outside a token, a character other than `{` is copied to the output |
| Hid.RemainingClose | pkg/hid/hid.go:71-94 | a `}` inside a token resolves the key collected since the `{`, and the pass either ends with its error or continues after the `}` |
| Hid.RemainingEnd | pkg/hid/hid.go:98-104 | ending inside a token resolves the unclosed tail: an error in strict mode, otherwise `{` and the key |
| Hid.ScannerIsResolve | pkg/hid/hid.go:51-104 | the two-state machine, from any state, computes the resolution of the rest of the template's pieces |
| Hid.Configure | pkg/hid/hid.go:25-40 | the configuration built by applying the options in order to the initial one |
| Hid.ResolveToken | pkg/hid/hid.go:75-94 | the lookup of a closed token's key: the generator's output and the advanced source, the `{key}` text kept outside strict mode, or the unknown-key or generator error; registry and flag are unchanged |
| Hid.Scan | pkg/hid/hid.go:42-106 | the scanning loop returns the state machine's output and leaves the source advanced as it says; on an error it returns the error and an empty string |
| Hid.GenerateContext | pkg/hid/hid.go:24-107 | the result is the expansion of the template under the configured options: its text and no error, or the error and an empty string |
| HidProperties.ResolveFailsFirst | pkg/hid/hid.go:77-100 | a pass fails if and only if some piece fails, and reports the first failing piece's error; for the built-in generators and the constant and failing caller generators, which error does not depend on the random source |
| HidProperties.FailingPieceAborts | pkg/hid/hid.go:78-100 | an unknown key or an unclosed token in strict mode, or a failing generator in either mode, makes the pass fail |
| HidProperties.FirstErrorAt | pkg/hid/hid.go:60-100 | the first error of well-placed pieces points at a `{` of the template; outside strict mode it can only be a generator failure |
| HidProperties.ExpansionErrors | pkg/hid/hid.go:77-101 | an unknown-key or generator error names a token `{key}` at its offset; an unclosed error's offset is a `{` with no `}` after it; outside strict mode every error is a generator failure |
| HidProperties.ErrorsIgnoreClock | pkg/hid/hid.go:28-33 | for the built-in generators and the constant and failing caller generators, whether a call fails, and with which error, does not depend on the wall clock |
| HidProperties.SeededIsDeterministic | pkg/hid/hid.go:141-145 | with a seed option, the result does not depend on the wall clock |
| HidProperties.LiteralRun | pkg/hid/hid.go:53-57 | a run of characters without `{` is copied verbatim before the rest of the pass |
| HidProperties.LiteralTemplate | pkg/hid/hid.go:51-106 | a template with no `{` comes back unchanged, whatever the registry and the flag, and takes no draw |
| HidProperties.KeySkip | pkg/hid/hid.go:65-69 | characters other than `}` inside a token only extend the key |
| HidProperties.TokenRun | pkg/hid/hid.go:71-94 | a token `{key}` is replaced by its resolution, and the pass continues right after its `}` with the advanced source |
| HidProperties.UnclosedRun | pkg/hid/hid.go:98-104 | a `{` with no later `}` resolves as an unclosed tail at that `{` |
| HidProperties.NothingRegisteredKeepsPieces | pkg/hid/hid.go:82-103 | outside strict mode with an empty registry, every piece is copied back as the text it was cut from |
| HidProperties.NothingRegisteredIsIdentity | pkg/hid/hid.go:51-106 | outside strict mode with an empty registry, every template comes back exactly |
| HidExamples.ReplacesMultipleTokens | pkg/hid/hid_test.go:9-26 | `"{adj}%{num}(something).txt"` with adj giving "fluffy" and num giving "42" yields `"fluffy%42(something).txt"` |
| HidExamples.UnknownKeyStrictErrors | pkg/hid/hid_test.go:28-44 | in strict mode `"{adj}-{unknown}-{num}"` fails with an unknown-generator error for "unknown" at offset 6 |
| HidExamples.UnknownKeyLenientKeepsToken | pkg/hid/hid_test.go:46-63 | outside strict mode the same template yields `"fluffy-{unknown}-42"` |
| HidExamples.UnclosedStrictErrors | pkg/hid/hid_test.go:65-80 | in strict mode `"prefix-{adj"` fails with an unclosed-token error at offset 7 |
| HidExamples.UnclosedLenientKeepsRemainder | pkg/hid/hid_test.go:82-99 | outside strict mode `"prefix-{adj"` yields `"prefix-{adj"` |
| HidExamples.DefaultsDoNotOverride | pkg/hid/hid_test.go:101-117 | a generator set before the defaults are merged is kept: `"{adj}"` yields "CUSTOM" |
| HidExamples.NestedOpenReportsFirst | pkg/hid/hid.go:59-69 | with no options, `"{a{b"` fails with an unclosed-token error at offset 0, the `{` that opened the token |

## Left out

- The PCG generator, its fixed increment and seeding from `time.Now()` (pkg/hid/hid.go:28-33, 143) are not modelled. The random source is an arbitrary stream of draws, and the clock is a parameter. `WithSeed` carries the stream the seeded generator would give.
- Generators.IntN: Go's `IntN` draws without bias by rejection and may consume several raw 64-bit values in doing so. One draw of the model stands for one whole `IntN` call, reduced into range by repeated subtraction; the model states the bounds and that each call advances the source by one such draw, not the distribution.
- Caller-supplied generators are arbitrary Go closures that receive the configuration and could change it during a pass. The model has constant generators, the shape the tests use, and failing generators, which cover the error path at pkg/hid/hid.go:88-91. No generator changes the registry or the flag. No modelled generator's failure depends on a draw, so the facts that failures do not depend on the random source or the clock (HidProperties.ResolveFailsFirst, HidProperties.ErrorsIgnoreClock) do not carry over to a closure that fails on some draws.
- `context.Context` is passed to generators but never inspected. It is not modelled.
- `Generate` (pkg/hid/hid.go:20-22) is `GenerateContext` with a background context, and is not modelled separately.
- Error messages built with `fmt.Errorf` and matching with `errors.Is` are not modelled. Errors are a datatype carrying the kind, the key, the offset and the generator's cause.
- `AdjGenerator`, `NounGenerator` and `VerbGenerator` are modelled as word picks over the three lists of a `WordSupply`.
- The embedded word files and the package `init` (internal/words/words.go:8-27) are not modelled, because the lists are data. The lists are arbitrary sequences.
- Words.Trim: `strings.TrimSpace` also trims Unicode white space. The model trims ASCII white space only: space, tab, line feed, vertical tab, form feed and carriage return.
- The Go scanner works on bytes, and every offset it reports is a byte offset. In the model each `char` of a template stands for one byte of it; under that reading outputs and offsets agree. Read as Unicode characters instead, the output text is still the same (`{` and `}` are single bytes that never occur inside a multi-byte UTF-8 sequence), but error offsets are character indices, not byte offsets: for `"é{x}"` Go reports offset 2 where the model reports 1.
- The model has only the empty registry, never a nil one. A Go lookup in a nil map behaves as in an empty map, and the code never inserts into a nil map, because it calls `make` first (pkg/hid/hid.go:38-40, 121-123, 134-136).
- Strconv.Itoa: the model renders unbounded integers. On the 64-bit platforms the model assumes, Go's `int` is 64 bits, which matters only for the range-size overflow listed under Findings. On 32-bit platforms `int` is 32 bits and the same overflow starts at ranges wider than MaxInt32, for example `IntGenerator(0, math.MaxInt32)`; the 32-bit case is not modelled.

## Findings

| source | as written | input that shows it | evidently intended | confidence | as-written member | corrected member |
|---|---|---|---|---|---|---|
| pkg/hid/hid.go:178 | `IntN(max-min+1)` computes the range size in Go's `int`, 64 bits on the 64-bit platforms the model assumes (on 32-bit platforms the same overflow starts at ranges wider than MaxInt32). For ranges wider than the largest int64 it wraps to zero or a negative number, and `IntN` panics on that | `IntGenerator(math.MinInt64, math.MaxInt64)`: `min <= max`, yet the size wraps to 0 | a draw from every valid range `min <= max`, as the `min > max` guard suggests | not executed | Generators.FullRangeIntNArgIsZero | Generators.IntGenerator |
