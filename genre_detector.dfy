/**
 * The genre detector: collect the extension tokens (`.` followed by word
 * characters) of every commit message, score each genre by how many of its
 * extensions were seen, and take the strictly highest score, falling back
 * to Experimental.
 */
module GenreDetector {
  import opened JsText
  import opened Commits
  import opened MusicTheory

  /** One `GENRES` entry. */
  datatype GenreInfo = GenreInfo(name: string, emoji: string, extensions: seq<string>,
                                 bpmMin: nat, bpmMax: nat, description: string)

  /** The `GENRES` table. */
  function Info(g: Genre): GenreInfo {
    match g
    case Synthwave => GenreInfo("Synthwave", "\U{1F306}",
        [".jsx", ".tsx", ".css", ".scss", ".html", ".vue", ".svelte"], 110, 130, "Frontend-heavy, modern web vibes")
    case Industrial => GenreInfo("Industrial", "\U{2699}\U{FE0F}",
        [".py", ".go", ".java", ".rs", ".cpp", ".c", ".rb"], 95, 115, "Backend systems, heavy processing")
    case Ambient => GenreInfo("Ambient", "\U{2601}\U{FE0F}",
        [".csv", ".json", ".sql", ".ipynb", ".xml", ".yaml"], 80, 100, "Data-focused, analytical flow")
    case Chiptune => GenreInfo("Chiptune", "\U{1F3AE}",
        [".unity", ".godot", ".asm", ".shader", ".glsl"], 140, 160, "Game dev, retro computing")
    case Experimental => GenreInfo("Experimental", "\U{1F52C}", [], 100, 120, "Mixed or unknown styles")
  }

  /** Key order of the `GENRES` object, which is the order the argmax visits. */
  const Order: seq<Genre> := [Synthwave, Industrial, Ambient, Chiptune, Experimental]

  function Position(g: Genre): (r: nat)
    ensures r < |Order| && Order[r] == g
  {
    match g
    case Synthwave => 0
    case Industrial => 1
    case Ambient => 2
    case Chiptune => 3
    case Experimental => 4
  }

  lemma BpmRangesOrdered(g: Genre)
    ensures Info(g).bpmMin < Info(g).bpmMax
    ensures Info(g).bpmMax - Info(g).bpmMin == 20
  {
  }

  // ---------------------------------------------------------------- tokens

  /** The regular-expression class `\w`. */
  predicate IsWordChar(c: char) {
    ('a' <= c <= 'z') || ('A' <= c <= 'Z') || ('0' <= c <= '9') || c == '_'
  }

  /** Length of the run of word characters that starts `s`. */
  function WordRun(s: string): (n: nat)
    ensures n <= |s|
    ensures forall i :: 0 <= i < n ==> IsWordChar(s[i])
    ensures n < |s| ==> !IsWordChar(s[n])
  {
    if |s| == 0 || !IsWordChar(s[0]) then 0 else 1 + WordRun(s[1..])
  }

  /** The matches of `/\.\w+/g`, left to right, non-overlapping, each as long as possible. */
  function Tokens(s: string): seq<string>
    decreases |s|
  {
    if |s| == 0 then []
    else if s[0] == '.' && |s| > 1 && IsWordChar(s[1]) then
      var n := 1 + WordRun(s[1..]);
      [s[..n]] + Tokens(s[n..])
    else Tokens(s[1..])
  }

  predicate IsExtensionToken(t: string) {
    |t| >= 2 && t[0] == '.' && forall i :: 1 <= i < |t| ==> IsWordChar(t[i])
  }

  /** Every match is `.` followed by at least one word character, and occurs in the message. */
  lemma {:induction false} TokensAreExtensions(s: string)
    ensures forall t :: t in Tokens(s) ==> IsExtensionToken(t) && Contains(s, t)
    decreases |s|
  {
    if |s| == 0 {
    } else if s[0] == '.' && |s| > 1 && IsWordChar(s[1]) {
      var n := 1 + WordRun(s[1..]);
      TokensAreExtensions(s[n..]);
      forall t | t in Tokens(s) ensures IsExtensionToken(t) && Contains(s, t) {
        if t == s[..n] {
          assert t <= s;
        } else {
          assert t in Tokens(s[n..]);
          ContainsSuffix(s, n, t);
        }
      }
    } else {
      TokensAreExtensions(s[1..]);
      forall t | t in Tokens(s) ensures Contains(s, t) {
        ContainsSuffix(s, 1, t);
      }
    }
  }

  lemma ContainsSuffix(s: string, n: nat, t: string)
    requires n <= |s| && Contains(s[n..], t)
    ensures Contains(s, t)
  {
    var i := ContainsPosition(s[n..], t);
    assert s[n + i..n + i + |t|] == s[n..][i..i + |t|];
    OccursContained(s, t, n + i);
  }

  lemma WordRunConcat(x: string, y: string)
    requires exists i :: 0 <= i < |x| && !IsWordChar(x[i])
    ensures WordRun(x + y) == WordRun(x)
    decreases |x|
  {
    if IsWordChar(x[0]) {
      assert (x + y)[1..] == x[1..] + y;
      var i :| 0 <= i < |x| && !IsWordChar(x[i]);
      assert i > 0 && !IsWordChar(x[1..][i - 1]);
      WordRunConcat(x[1..], y);
    }
  }

  /** A message splits into independent parts at a character that is neither `.` nor a word character. */
  lemma {:induction false} TokensConcat(a: string, b: string)
    requires a == [] || (a[|a| - 1] != '.' && !IsWordChar(a[|a| - 1]))
    ensures Tokens(a + b) == Tokens(a) + Tokens(b)
    decreases |a|
  {
    if a == [] {
      assert a + b == b;
    } else if a[0] == '.' && |a| > 1 && IsWordChar(a[1]) {
      var n := TokenStep(a, b);
      TokensConcat(a[n..], b);
      TokenListAssoc([a[..n]], Tokens(a[n..]), Tokens(b));
    } else {
      SkipStep(a, b);
      TokensConcat(a[1..], b);
    }
  }

  lemma TokenListAssoc(x: seq<string>, y: seq<string>, z: seq<string>)
    ensures x + (y + z) == (x + y) + z
  {
  }

  /** A first character that starts no token is skipped in `a` and in `a + b` alike. */
  lemma SkipStep(a: string, b: string)
    requires a != [] && a[|a| - 1] != '.' && !IsWordChar(a[|a| - 1])
    requires !(a[0] == '.' && |a| > 1 && IsWordChar(a[1]))
    ensures Tokens(a) == Tokens(a[1..]) && Tokens(a + b) == Tokens(a[1..] + b)
    ensures a[1..] == [] || (a[1..][|a| - 2] != '.' && !IsWordChar(a[1..][|a| - 2]))
  {
    assert (a + b)[0] == a[0];
    assert |a| > 1 ==> (a + b)[1] == a[1];
    assert (a + b)[1..] == a[1..] + b;
  }

  /** A token that starts `a` ends inside `a`, and is the first token of `a + b` as well. */
  lemma TokenStep(a: string, b: string) returns (n: nat)
    requires |a| > 1 && a[0] == '.' && IsWordChar(a[1])
    requires a[|a| - 1] != '.' && !IsWordChar(a[|a| - 1])
    ensures 1 < n < |a| && a[|a| - 1] == a[n..][|a| - n - 1]
    ensures Tokens(a) == [a[..n]] + Tokens(a[n..])
    ensures Tokens(a + b) == [a[..n]] + Tokens(a[n..] + b)
  {
    assert !IsWordChar(a[1..][|a| - 2]);
    WordRunConcat(a[1..], b);
    assert (a + b)[1..] == a[1..] + b;
    n := 1 + WordRun(a[1..]);
    assert (a + b)[..n] == a[..n];
    assert (a + b)[n..] == a[n..] + b;
  }

  /** A lone extension token is matched whole. */
  lemma SingleToken(t: string)
    requires IsExtensionToken(t)
    ensures Tokens(t) == [t]
  {
    WordRunAll(t[1..]);
    assert t[..|t|] == t;
    assert t[|t|..] == [];
  }

  lemma {:induction false} WordRunAll(s: string)
    requires forall i :: 0 <= i < |s| ==> IsWordChar(s[i])
    ensures WordRun(s) == |s|
    decreases |s|
  {
    if |s| > 0 {
      WordRunAll(s[1..]);
    }
  }

  /** The lower-casing of every token of one message. */
  function LoweredTokens(ts: seq<string>): set<string> {
    set t | t in ts :: Lower(t)
  }

  /** The extension set built over the commits in order. */
  function ExtensionSet(commits: seq<Commit>): set<string> {
    if |commits| == 0 then {}
    else ExtensionSet(commits[..|commits| - 1]) + LoweredTokens(Tokens(commits[|commits| - 1].message))
  }

  lemma {:induction false} ExtensionSetMembers(commits: seq<Commit>, e: string)
    ensures e in ExtensionSet(commits) <==>
      exists k, t :: 0 <= k < |commits| && t in Tokens(commits[k].message) && e == Lower(t)
  {
    if |commits| > 0 {
      var init := commits[..|commits| - 1];
      ExtensionSetMembers(init, e);
      if e in ExtensionSet(commits) {
        if e in ExtensionSet(init) {
          var k, t :| 0 <= k < |init| && t in Tokens(init[k].message) && e == Lower(t);
          assert commits[k] == init[k];
        }
      } else {
        forall k, t | 0 <= k < |commits| && t in Tokens(commits[k].message) ensures e != Lower(t) {
          if k < |init| { assert commits[k] == init[k]; }
        }
      }
    }
  }

  // ---------------------------------------------------------------- scores

  /** How many of `exts` lie in `seen`. */
  function Score(seen: set<string>, exts: seq<string>): (r: nat)
    ensures r <= |exts|
  {
    if |exts| == 0 then 0
    else Score(seen, exts[..|exts| - 1]) + (if exts[|exts| - 1] in seen then 1 else 0)
  }

  function GenreScore(seen: set<string>, g: Genre): nat {
    Score(seen, Info(g).extensions)
  }

  lemma {:induction false} ScoreZero(seen: set<string>, exts: seq<string>)
    ensures Score(seen, exts) == 0 <==> forall i :: 0 <= i < |exts| ==> exts[i] !in seen
  {
    if |exts| > 0 {
      ScoreZero(seen, exts[..|exts| - 1]);
    }
  }

  lemma {:induction false} ScoreFull(seen: set<string>, exts: seq<string>)
    ensures Score(seen, exts) == |exts| <==> forall i :: 0 <= i < |exts| ==> exts[i] in seen
  {
    if |exts| > 0 {
      ScoreFull(seen, exts[..|exts| - 1]);
    }
  }

  /** The running leader (genre and its score) after visiting the first `n` genres in key order. */
  function Leader(seen: set<string>, n: nat): (Genre, nat)
    requires n <= |Order|
  {
    if n == 0 then (Experimental, 0)
    else
      var prev := Leader(seen, n - 1);
      var s := GenreScore(seen, Order[n - 1]);
      if s > prev.1 then (Order[n - 1], s) else prev
  }

  function DetectedGenre(commits: seq<Commit>): Genre {
    Leader(ExtensionSet(commits), |Order|).0
  }

  lemma {:induction false} LeaderShape(seen: set<string>, n: nat)
    requires n <= |Order|
    ensures forall j :: 0 <= j < n ==> GenreScore(seen, Order[j]) <= Leader(seen, n).1
    ensures Leader(seen, n).1 == 0 ==> Leader(seen, n).0 == Experimental
    ensures Leader(seen, n).1 > 0 ==>
      && Position(Leader(seen, n).0) < n
      && GenreScore(seen, Leader(seen, n).0) == Leader(seen, n).1
      && forall j :: 0 <= j < Position(Leader(seen, n).0) ==> GenreScore(seen, Order[j]) < Leader(seen, n).1
  {
    if n > 0 {
      LeaderShape(seen, n - 1);
      var prev := Leader(seen, n - 1);
      var g := Order[n - 1];
      var s := GenreScore(seen, g);
      OrderPosition(n - 1);
      var cur := Leader(seen, n);
      assert cur == if s > prev.1 then (g, s) else prev;
      forall j | 0 <= j < n ensures GenreScore(seen, Order[j]) <= cur.1 {
        if j < n - 1 {
          assert GenreScore(seen, Order[j]) <= prev.1;
        }
      }
      if s > prev.1 {
        assert cur.0 == g && Position(cur.0) == n - 1 && GenreScore(seen, cur.0) == cur.1;
        forall j | 0 <= j < Position(cur.0) ensures GenreScore(seen, Order[j]) < cur.1 {
          assert GenreScore(seen, Order[j]) <= prev.1;
        }
      } else {
        assert cur == prev;
      }
    }
  }

  lemma OrderPosition(j: nat)
    requires j < |Order|
    ensures Position(Order[j]) == j
  {
  }

  /**
   * The argmax: the detected genre scores at least as much as every genre,
   * beats every genre earlier in key order, and is Experimental exactly when
   * nothing scores.
   */
  lemma DetectedGenreIsArgmax(commits: seq<Commit>)
    ensures forall h: Genre :: GenreScore(ExtensionSet(commits), h) <= GenreScore(ExtensionSet(commits), DetectedGenre(commits))
    ensures DetectedGenre(commits) != Experimental ==>
      forall h: Genre :: Position(h) < Position(DetectedGenre(commits)) ==>
        GenreScore(ExtensionSet(commits), h) < GenreScore(ExtensionSet(commits), DetectedGenre(commits))
    ensures DetectedGenre(commits) == Experimental <==> forall h: Genre :: GenreScore(ExtensionSet(commits), h) == 0
  {
    var seen := ExtensionSet(commits);
    LeaderShape(seen, |Order|);
    assert GenreScore(seen, Experimental) == 0;
    forall h: Genre ensures GenreScore(seen, h) <= Leader(seen, |Order|).1 {
      assert Order[Position(h)] == h;
    }
  }

  /** With no commits there are no extensions, and the fallback applies. */
  lemma NoCommitsIsExperimental()
    ensures DetectedGenre([]) == Experimental
  {
    DetectedGenreIsArgmax([]);
    forall h: Genre ensures GenreScore({}, h) == 0 {
      ScoreZero({}, Info(h).extensions);
    }
  }

  /** Experimental lists no extensions and so never scores. */
  lemma ExperimentalNeverScores(seen: set<string>)
    ensures GenreScore(seen, Experimental) == 0
  {
  }

  // ---------------------------------------------------------------- detectGenre

  /** The first phase of `detectGenre`: every lower-cased match of every message, added to a set. */
  method CollectExtensions(commits: seq<Commit>) returns (extensions: set<string>)
    ensures extensions == ExtensionSet(commits)
  {
    extensions := {};
    var i := 0;
    while i < |commits|
      invariant 0 <= i <= |commits|
      invariant extensions == ExtensionSet(commits[..i])
    {
      var matches := Tokens(commits[i].message);
      ghost var before := extensions;
      var j := 0;
      while j < |matches|
        invariant 0 <= j <= |matches|
        invariant extensions == before + LoweredTokens(matches[..j])
      {
        assert LoweredTokens(matches[..j + 1]) == LoweredTokens(matches[..j]) + {Lower(matches[j])} by {
          assert matches[..j + 1] == matches[..j] + [matches[j]];
        }
        extensions := extensions + {Lower(matches[j])};
        j := j + 1;
      }
      assert matches[..j] == matches;
      assert commits[..i + 1][..i] == commits[..i];
      i := i + 1;
    }
    assert commits[..i] == commits;
  }

  /** The inner loop of the second phase: one increment per listed extension present in the set. */
  method CountPresent(extensions: set<string>, exts: seq<string>) returns (count: nat)
    ensures count == Score(extensions, exts)
  {
    count := 0;
    var e := 0;
    while e < |exts|
      invariant 0 <= e <= |exts|
      invariant count == Score(extensions, exts[..e])
    {
      assert exts[..e + 1][..e] == exts[..e];
      if exts[e] in extensions {
        count := count + 1;
      }
      e := e + 1;
    }
    assert exts[..e] == exts;
  }

  /** The second phase: one counter per genre, incremented for each of its extensions in the set. */
  method ScoreGenres(extensions: set<string>) returns (scores: map<Genre, nat>)
    ensures forall h: Genre :: h in scores && scores[h] == GenreScore(extensions, h)
  {
    scores := map[];
    var g := 0;
    while g < |Order|
      invariant 0 <= g <= |Order|
      invariant forall k :: 0 <= k < g ==> Order[k] in scores && scores[Order[k]] == GenreScore(extensions, Order[k])
    {
      var genre := Order[g];
      var count := CountPresent(extensions, Info(genre).extensions);
      scores := scores[genre := count];
      g := g + 1;
    }
    forall h: Genre ensures h in scores && scores[h] == GenreScore(extensions, h) {
      assert Order[Position(h)] == h;
    }
  }

  /** `detectGenre`: collect, score, then keep the first strictly highest score, starting from Experimental at 0. */
  method DetectGenre(commits: seq<Commit>) returns (info: GenreInfo)
    ensures info == Info(DetectedGenre(commits))
  {
    var extensions := CollectExtensions(commits);
    var scores := ScoreGenres(extensions);
    var maxScore := 0;
    var detected := Experimental;
    var k := 0;
    while k < |Order|
      invariant 0 <= k <= |Order|
      invariant (detected, maxScore) == Leader(extensions, k)
    {
      var score := scores[Order[k]];
      if score > maxScore {
        maxScore := score;
        detected := Order[k];
      }
      k := k + 1;
    }
    info := Info(detected);
  }
}
