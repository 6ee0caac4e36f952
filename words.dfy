/** The word-list parser of internal/words: a text is split into lines, each
    line is trimmed of surrounding white space, and blank lines and lines
    starting with `#` are dropped; what remains keeps its order. */
module Words {

  /** The ASCII white space trimmed by strings.TrimSpace: tab, line feed,
      vertical tab, form feed, carriage return and space. */
  predicate IsSpace(c: char) {
    c == ' ' || '\t' <= c <= '\r'
  }

  predicate AllSpace(s: string) {
    forall k :: 0 <= k < |s| ==> IsSpace(s[k])
  }

  /** Neither starts nor ends with white space. */
  predicate Trimmed(w: string) {
    w == [] || (!IsSpace(w[0]) && !IsSpace(w[|w| - 1]))
  }

  /** Number of line feeds in `s`. */
  function Count(s: string): nat {
    if s == [] then 0 else (if s[0] == '\n' then 1 else 0) + Count(s[1..])
  }

  /** strings.Split(s, "\n"): the pieces between line feeds, one more piece
      than there are line feeds (so the empty text gives one empty line). */
  function Split(s: string): (lines: seq<string>)
    ensures |lines| == Count(s) + 1
    ensures forall k :: 0 <= k < |lines| ==> '\n' !in lines[k]
  {
    if s == [] then [""]
    else
      var rest := Split(s[1..]);
      if s[0] == '\n' then [""] + rest else [[s[0]] + rest[0]] + rest[1..]
  }

  /** strings.Join(lines, "\n"), the inverse of Split. */
  function Join(lines: seq<string>): string
    requires |lines| > 0
  {
    if |lines| == 1 then lines[0] else lines[0] + "\n" + Join(lines[1..])
  }

  /** Splitting loses nothing: joining the lines gives the text back. */
  lemma {:induction false} SplitJoin(s: string)
    ensures Join(Split(s)) == s
  {
    if s != [] {
      SplitJoin(s[1..]);
      var rest := Split(s[1..]);
      if s[0] == '\n' {
        assert ([""] + rest)[1..] == rest;
      } else {
        var lines := [[s[0]] + rest[0]] + rest[1..];
        if |rest| > 1 {
          assert lines[1..] == rest[1..];
          assert Join(rest) == rest[0] + "\n" + Join(rest[1..]);
        }
      }
    }
  }

  /** Number of white-space characters at the start of `s`. */
  function Lead(s: string): (n: nat)
    ensures n <= |s| && AllSpace(s[..n])
    ensures n < |s| ==> !IsSpace(s[n])
  {
    if s != [] && IsSpace(s[0]) then
      var n := 1 + Lead(s[1..]);
      assert s[..n] == [s[0]] + s[1..][..n - 1];
      n
    else 0
  }

  /** Number of white-space characters at the end of `s`. */
  function Trail(s: string): (n: nat)
    ensures n <= |s| && AllSpace(s[|s| - n..])
    ensures n < |s| ==> !IsSpace(s[|s| - n - 1])
  {
    if s != [] && IsSpace(s[|s| - 1]) then
      var m := Trail(s[..|s| - 1]);
      TrailStep(s, m);
      m + 1
    else 0
  }

  lemma TrailStep(s: string, m: nat)
    requires s != [] && IsSpace(s[|s| - 1]) && m <= |s| - 1
    requires AllSpace(s[..|s| - 1][|s| - 1 - m..])
    ensures AllSpace(s[|s| - (m + 1)..])
  {
    var front := s[..|s| - 1];
    assert s[|s| - (m + 1)..] == front[|front| - m..] + [s[|s| - 1]];
  }

  /** strings.TrimSpace over ASCII white space: the infix of `s` between its
      leading and its trailing white space, which neither starts nor ends
      with white space, and around which only white space is dropped. */
  function Trim(s: string): (t: string)
    ensures Trimmed(t)
    ensures var i := Lead(s);
      i + |t| <= |s| && t == s[i..i + |t|] && AllSpace(s[..i]) && AllSpace(s[i + |t|..])
  {
    var i := Lead(s);
    if i == |s| then []
    else
      var j := |s| - Trail(s);
      assert i < j;
      s[i..j]
  }

  /** A trimmed word is its own trim: trimming is idempotent. */
  lemma TrimmedIsFixpoint(w: string)
    requires Trimmed(w)
    ensures Trim(w) == w
  {
  }

  /** A trimmed line is kept unless it is blank or a `#` comment. */
  predicate Keep(w: string) {
    w != "" && w[0] != '#'
  }

  /** Every line trimmed, in order. */
  function TrimLines(lines: seq<string>): (ts: seq<string>)
    ensures |ts| == |lines|
    ensures forall k :: 0 <= k < |ts| ==> ts[k] == Trim(lines[k])
  {
    seq(|lines|, k requires 0 <= k < |lines| => Trim(lines[k]))
  }

  /** The words that are kept, in their original order. */
  function Filter(ws: seq<string>): (r: seq<string>)
    ensures |r| <= |ws|
    ensures forall k :: 0 <= k < |r| ==> Keep(r[k])
  {
    if ws == [] then []
    else
      var n := |ws| - 1;
      Filter(ws[..n]) + (if Keep(ws[n]) then [ws[n]] else [])
  }

  /** The position in `ws` each kept word comes from. */
  function Sources(ws: seq<string>): (idx: seq<nat>)
    ensures |idx| == |Filter(ws)|
    ensures forall k :: 0 <= k < |idx| ==> idx[k] < |ws| && Filter(ws)[k] == ws[idx[k]]
  {
    if ws == [] then []
    else
      var n := |ws| - 1;
      var front := ws[..n];
      var prev := Sources(front);
      var idx := prev + (if Keep(ws[n]) then [n] else []);
      assert forall k :: 0 <= k < |prev| ==> idx[k] == prev[k] && front[prev[k]] == ws[prev[k]];
      idx
  }

  predicate Increasing(idx: seq<nat>) {
    forall k, m :: 0 <= k < m < |idx| ==> idx[k] < idx[m]
  }

  /** The kept words keep their relative order: the source positions
      strictly increase. */
  lemma {:induction false} SourcesIncrease(ws: seq<string>)
    ensures Increasing(Sources(ws))
  {
    if ws != [] {
      var n := |ws| - 1;
      var prev := Sources(ws[..n]);
      SourcesIncrease(ws[..n]);
      var idx := Sources(ws);
      assert idx == prev + (if Keep(ws[n]) then [n] else []);
      forall k, m | 0 <= k < m < |idx|
        ensures idx[k] < idx[m]
      {
        assert idx[k] == prev[k] && prev[k] < n;
        if m < |prev| {
          assert idx[m] == prev[m];
          assert prev[k] < prev[m];
        } else {
          assert idx[m] == n;
        }
      }
    }
  }

  /** No qualifying word is dropped: every position holding a word that is
      kept is among the sources. */
  lemma {:induction false} SourcesComplete(ws: seq<string>, i: nat)
    requires i < |ws| && Keep(ws[i])
    ensures i in Sources(ws)
  {
    var n := |ws| - 1;
    if i < n {
      assert ws[..n][i] == ws[i];
      SourcesComplete(ws[..n], i);
    }
  }

  /** Filtering trimmed words yields trimmed words. */
  lemma FilterKeepsTrimmed(ws: seq<string>)
    requires forall k :: 0 <= k < |ws| ==> Trimmed(ws[k])
    ensures forall k :: 0 <= k < |Filter(ws)| ==> Trimmed(Filter(ws)[k]) && Trim(Filter(ws)[k]) == Filter(ws)[k]
  {
    var idx := Sources(ws);
    forall k | 0 <= k < |Filter(ws)|
      ensures Trimmed(Filter(ws)[k]) && Trim(Filter(ws)[k]) == Filter(ws)[k]
    {
      assert Filter(ws)[k] == ws[idx[k]];
      TrimmedIsFixpoint(Filter(ws)[k]);
    }
  }

  lemma FilterStep(ws: seq<string>, i: nat)
    requires i < |ws|
    ensures Filter(ws[..i + 1]) == Filter(ws[..i]) + (if Keep(ws[i]) then [ws[i]] else [])
  {
    assert ws[..i + 1][..i] == ws[..i];
  }

  /** parseLines: the loop over the split lines, trimming each one and
      appending those that are neither blank nor comments. */
  method ParseLines(s: string) returns (out: seq<string>)
    ensures out == Filter(TrimLines(Split(s)))
    ensures |out| <= Count(s) + 1
    ensures forall k :: 0 <= k < |out| ==> out[k] != "" && out[k][0] != '#' && Trim(out[k]) == out[k]
  {
    var lines := Split(s);
    ghost var ts := TrimLines(lines);
    out := [];
    for i := 0 to |lines|
      invariant out == Filter(ts[..i])
    {
      var l := Trim(lines[i]);
      FilterStep(ts, i);
      assert ts[i] == l;
      if l == "" || l[0] == '#' {
        continue;
      }
      out := out + [l];
    }
    assert ts[..|lines|] == ts;
    FilterKeepsTrimmed(ts);
  }
}
