/**
 * Building the relation graph from lexicon lines (retrofit.py,
 * `read_lexicon`, the loop body without the file handling).
 *
 * Each line arrives already split on whitespace.  Its first token,
 * normalised, is the key; its other tokens, normalised, are added to that
 * key's set, which starts empty the first time the key is seen.
 */
module Lexicon {
  import opened Tokens

  /** Normalised word to the set of its normalised related words. */
  type Graph = map<string, set<string>>

  /** The outcome of reading a lexicon: the graph, or the blank line that made indexing `words[0]` fail. */
  datatype ReadResult = Read(graph: Graph) | BlankLine(index: nat)

  /** A raw token as it ends up in the graph: the line is lower-cased, then the token normalised. */
  function Token(t: string): string
  {
    Normalize(LowerStr(t))
  }

  function Head(line: seq<string>): string
    requires |line| > 0
  {
    Token(line[0])
  }

  function Related(line: seq<string>): set<string>
    requires |line| > 0
  {
    set j | 1 <= j < |line| :: Token(line[j])
  }

  /** `lexicon[head].update(tail)` on a default-empty dictionary of sets. */
  function AddLine(g: Graph, line: seq<string>): (r: Graph)
    requires |line| > 0
    ensures r.Keys == g.Keys + {Head(line)}
    ensures Related(line) <= r[Head(line)]
    ensures Head(line) in g ==> g[Head(line)] <= r[Head(line)]
  {
    var k := Head(line);
    g[k := (if k in g then g[k] else {}) + Related(line)]
  }

  predicate NoBlankLine(lines: seq<seq<string>>)
  {
    forall i :: 0 <= i < |lines| ==> lines[i] != []
  }

  /** The index of the first blank line, where `words[0]` raises. */
  function FirstBlank(lines: seq<seq<string>>): (i: nat)
    requires !NoBlankLine(lines)
    ensures i < |lines| && lines[i] == [] && NoBlankLine(lines[..i])
  {
    if lines[0] == [] then 0
    else
      var i := 1 + FirstBlank(lines[1..]);
      assert forall j :: 1 <= j < i ==> lines[..i][j] == lines[1..][..i - 1][j - 1];
      i
  }

  /** The dictionary after folding `AddLine` over lines that are all non-blank. */
  function Fold(lines: seq<seq<string>>): (r: Graph)
    requires NoBlankLine(lines)
  {
    if lines == [] then map[]
    else AddLine(Fold(lines[..|lines| - 1]), lines[|lines| - 1])
  }

  /** The whole loop: the first blank line aborts it; otherwise every line is added. */
  function Build(lines: seq<seq<string>>): (r: ReadResult)
    ensures r.Read? <==> NoBlankLine(lines)
    ensures r.BlankLine? ==> r.index < |lines| && lines[r.index] == [] && NoBlankLine(lines[..r.index])
  {
    if NoBlankLine(lines) then Read(Fold(lines)) else BlankLine(FirstBlank(lines))
  }

  /** `k` is the normalised head of some line. */
  predicate IsHead(lines: seq<seq<string>>, k: string)
  {
    exists i :: 0 <= i < |lines| && lines[i] != [] && Head(lines[i]) == k
  }

  /** `t` is a normalised related token on some line whose normalised head is `k`. */
  predicate IsRelated(lines: seq<seq<string>>, k: string, t: string)
  {
    exists i :: 0 <= i < |lines| && lines[i] != [] && Head(lines[i]) == k && t in Related(lines[i])
  }

  /** The loop of `read_lexicon` over the lines of the file. */
  method ReadLexicon(lines: seq<seq<string>>) returns (r: ReadResult)
    ensures r == Build(lines)
    ensures r.Read? <==> NoBlankLine(lines)
    ensures r.BlankLine? ==> r.index < |lines| && lines[r.index] == [] && NoBlankLine(lines[..r.index])
  {
    var lexicon: Graph := map[];
    var n := 0;
    while n < |lines|
      invariant 0 <= n <= |lines|
      invariant NoBlankLine(lines[..n]) && lexicon == Fold(lines[..n])
    {
      var words := lines[n];
      if words == [] {
        FirstBlankIsUnique(lines, n);
        return BlankLine(n);
      }
      var key := Token(words[0]);
      var known := if key in lexicon then lexicon[key] else {};
      var tail := set j | 1 <= j < |words| :: Token(words[j]);
      FoldStep(lines, n, lexicon, key, tail);
      lexicon := lexicon[key := known + tail];
      n := n + 1;
    }
    assert lines[..n] == lines;
    r := Read(lexicon);
  }

  /** The first blank line is the only blank line with no blank line before it. */
  lemma FirstBlankIsUnique(lines: seq<seq<string>>, n: nat)
    requires n < |lines| && lines[n] == [] && NoBlankLine(lines[..n])
    ensures !NoBlankLine(lines) && FirstBlank(lines) == n
  {
  }

  lemma IsHeadSnoc(lines: seq<seq<string>>, k: string)
    requires lines != [] && lines[|lines| - 1] != []
    ensures IsHead(lines, k) <==> IsHead(lines[..|lines| - 1], k) || Head(lines[|lines| - 1]) == k
  {
    var front := lines[..|lines| - 1];
    if IsHead(front, k) {
      var i :| 0 <= i < |front| && front[i] != [] && Head(front[i]) == k;
      assert lines[i] == front[i];
    }
    if IsHead(lines, k) {
      var i :| 0 <= i < |lines| && lines[i] != [] && Head(lines[i]) == k;
      if i < |front| {
        assert front[i] == lines[i];
      }
    }
  }

  lemma IsRelatedSnoc(lines: seq<seq<string>>, k: string, t: string)
    requires lines != [] && lines[|lines| - 1] != []
    ensures IsRelated(lines, k, t) <==>
              IsRelated(lines[..|lines| - 1], k, t) ||
              (Head(lines[|lines| - 1]) == k && t in Related(lines[|lines| - 1]))
  {
    var front := lines[..|lines| - 1];
    if IsRelated(front, k, t) {
      var i :| 0 <= i < |front| && front[i] != [] && Head(front[i]) == k && t in Related(front[i]);
      assert lines[i] == front[i];
    }
    if IsRelated(lines, k, t) {
      var i :| 0 <= i < |lines| && lines[i] != [] && Head(lines[i]) == k && t in Related(lines[i]);
      if i < |front| {
        assert front[i] == lines[i];
      }
    }
  }

  lemma RelatedHasHead(lines: seq<seq<string>>, k: string, t: string)
    requires IsRelated(lines, k, t)
    ensures IsHead(lines, k)
  {
  }

  /** On success the keys are exactly the normalised heads. */
  lemma {:induction false} BuildKeys(lines: seq<seq<string>>)
    requires Build(lines).Read?
    ensures forall k :: k in Build(lines).graph <==> IsHead(lines, k)
    decreases |lines|
  {
    if lines != [] {
      var front := lines[..|lines| - 1];
      assert NoBlankLine(front) by {
        forall j | 0 <= j < |front| ensures front[j] != [] { assert front[j] == lines[j]; }
      }
      BuildKeys(front);
      forall k ensures k in Build(lines).graph <==> IsHead(lines, k) {
        IsHeadSnoc(lines, k);
      }
    }
  }

  /**
   * On success the set of a key is the union of the normalised tails of
   * every line with that head: lines with the same head merge rather than
   * overwrite, and a head-only line leaves its key with no related words.
   */
  lemma {:induction false} BuildMembers(lines: seq<seq<string>>)
    requires Build(lines).Read?
    ensures forall k, t :: k in Build(lines).graph ==>
              (t in Build(lines).graph[k] <==> IsRelated(lines, k, t))
    decreases |lines|
  {
    if lines != [] {
      var front := lines[..|lines| - 1];
      assert NoBlankLine(front) by {
        forall j | 0 <= j < |front| ensures front[j] != [] { assert front[j] == lines[j]; }
      }
      BuildMembers(front);
      BuildKeys(front);
      var g := Build(front).graph;
      var g' := Build(lines).graph;
      forall k, t | k in g' ensures t in g'[k] <==> IsRelated(lines, k, t) {
        IsRelatedSnoc(lines, k, t);
        if k !in g && IsRelated(front, k, t) {
          RelatedHasHead(front, k, t);
        }
      }
    }
  }

  /** Every key and every related word is a fixed point of normalisation. */
  lemma BuildIsNormalised(lines: seq<seq<string>>)
    requires Build(lines).Read?
    ensures forall k :: k in Build(lines).graph ==> Normalize(k) == k
    ensures forall k, t :: k in Build(lines).graph && t in Build(lines).graph[k] ==> Normalize(t) == t
  {
    BuildKeys(lines);
    BuildMembers(lines);
    var g := Build(lines).graph;
    forall k | k in g ensures Normalize(k) == k {
      assert IsHead(lines, k);
      var i :| 0 <= i < |lines| && lines[i] != [] && Head(lines[i]) == k;
      NormalizeIsNormal(LowerStr(lines[i][0]));
      NormalizeFixedPoints(k);
    }
    forall k, t | k in g && t in g[k] ensures Normalize(t) == t {
      assert IsRelated(lines, k, t);
      var i :| 0 <= i < |lines| && lines[i] != [] && Head(lines[i]) == k && t in Related(lines[i]);
      var j :| 1 <= j < |lines[i]| && Token(lines[i][j]) == t;
      NormalizeIsNormal(LowerStr(lines[i][j]));
      NormalizeFixedPoints(t);
    }
  }

  lemma TokenOfWord(t: string)
    requires |t| > 0 && forall i :: 0 <= i < |t| ==> IsUpper(t[i]) || IsLowerLetter(t[i])
    ensures Token(t) == LowerStr(t)
  {
    NormalizeAfterLower(t);
    assert IsWordChar(t[0]);
    NormalizeCases(t);
  }

  lemma TokenOfNumber(t: string, i: nat)
    requires i < |t| && IsDigit(t[i])
    ensures Token(t) == NUM
  {
    NormalizeAfterLower(t);
    NormalizeCases(t);
  }

  lemma TokenOfPunctuation(t: string)
    requires forall i :: 0 <= i < |t| ==> !IsWordChar(t[i])
    ensures Token(t) == PUNC
  {
    NormalizeAfterLower(t);
    NormalizeCases(t);
  }

  const ExampleLines: seq<seq<string>> := [["Big", "large"], ["big", "huge"], ["small"], ["3", "!!"], ["42nd", "--"]]

  lemma PairLine(a: string, b: string)
    ensures Head([a, b]) == Token(a) && Related([a, b]) == {Token(b)}
  {
    assert Token([a, b][1]) in Related([a, b]);
  }

  /** A token made of lower-case letters only is its own token. */
  lemma TokenOfLowerWord(t: string)
    requires |t| > 0 && forall i :: 0 <= i < |t| ==> IsLowerLetter(t[i])
    ensures Token(t) == t
  {
    TokenOfWord(t);
    LowerStrOfLowerCase(t);
  }

  lemma SingleLine(a: string)
    ensures Head([a]) == Token(a) && Related([a]) == {}
  {
  }

  lemma ExampleWordTokens()
    ensures Token("Big") == "big" && Token("big") == "big" && Token("large") == "large"
    ensures Token("huge") == "huge" && Token("small") == "small"
  {
    TokenOfLowerWord("big");
    TokenOfLowerWord("large");
    TokenOfLowerWord("huge");
    TokenOfLowerWord("small");
    TokenOfWord("Big");
    assert LowerStr("Big") == "big";
  }

  lemma ExampleBucketTokens()
    ensures Token("3") == NUM && Token("42nd") == NUM
    ensures Token("!!") == PUNC && Token("--") == PUNC
  {
    TokenOfNumber("3", 0);
    TokenOfNumber("42nd", 0);
    TokenOfPunctuation("!!");
    TokenOfPunctuation("--");
  }

  lemma ExampleTokens()
    ensures NoBlankLine(ExampleLines)
    ensures Head(ExampleLines[0]) == "big" && Related(ExampleLines[0]) == {"large"}
    ensures Head(ExampleLines[1]) == "big" && Related(ExampleLines[1]) == {"huge"}
    ensures Head(ExampleLines[2]) == "small" && Related(ExampleLines[2]) == {}
    ensures Head(ExampleLines[3]) == NUM && Related(ExampleLines[3]) == {PUNC}
    ensures Head(ExampleLines[4]) == NUM && Related(ExampleLines[4]) == {PUNC}
  {
    ExampleWordTokens();
    ExampleBucketTokens();
    PairLine("Big", "large");
    PairLine("big", "huge");
    PairLine("3", "!!");
    PairLine("42nd", "--");
    SingleLine("small");
    assert forall i :: 0 <= i < 5 ==> |ExampleLines[i]| > 0;
  }


  lemma UnionPair(a: string, b: string)
    ensures {a} + {b} == {a, b}
  {
  }

  /** A second write to the same key replaces the first. */
  lemma Overwrite(m: Graph, k: string, a: set<string>, b: set<string>)
    ensures m[k := a][k := b] == m[k := b]
  {
  }

  /** Line `n` exists, is not blank, and has normalised head `k` and tail `rel`. */
  predicate LineIs(lines: seq<seq<string>>, n: nat, k: string, rel: set<string>)
  {
    n < |lines| && lines[n] != [] && Head(lines[n]) == k && Related(lines[n]) == rel
  }

  /** One more line, with known head and tail tokens, folded into the graph. */
  lemma FoldStep(lines: seq<seq<string>>, n: nat, g: Graph, k: string, rel: set<string>)
    requires n <= |lines| && NoBlankLine(lines[..n]) && Fold(lines[..n]) == g
    requires LineIs(lines, n, k, rel)
    ensures NoBlankLine(lines[..n + 1])
    ensures Fold(lines[..n + 1]) == g[k := (if k in g then g[k] else {}) + rel]
  {
    var p := lines[..n + 1];
    assert p[..n] == lines[..n] && p[n] == lines[n];
  }

  /** Two lines with the same head merge their tails. */
  lemma MergeShapeStart(lines: seq<seq<string>>, big: string, large: string, huge: string)
    requires LineIs(lines, 0, big, {large}) && LineIs(lines, 1, big, {huge})
    ensures NoBlankLine(lines[..2]) && Fold(lines[..2]) == map[big := {large, huge}]
  {
    var none: set<string> := {};
    var e: Graph := map[];
    assert lines[..0] == [];
    FoldStep(lines, 0, e, big, {large});
    assert none + {large} == {large};
    var g1 := map[big := {large}];
    FoldStep(lines, 1, g1, big, {huge});
    UnionPair(large, huge);
    Overwrite(e, big, {large}, {large, huge});
  }

  /** A head-only line adds its head with no related words. */
  lemma MergeShapeThree(lines: seq<seq<string>>, big: string, small: string, large: string, huge: string)
    requires LineIs(lines, 0, big, {large}) && LineIs(lines, 1, big, {huge}) && LineIs(lines, 2, small, {})
    requires big != small
    ensures NoBlankLine(lines[..3])
    ensures Fold(lines[..3]) == map[big := {large, huge}, small := {}]
  {
    var none: set<string> := {};
    MergeShapeStart(lines, big, large, huge);
    var g2 := map[big := {large, huge}];
    assert small !in g2;
    FoldStep(lines, 2, g2, small, none);
    assert none + none == none;
  }

  lemma MergeShapeFour(lines: seq<seq<string>>, big: string, small: string, large: string, huge: string, num: string, punc: string)
    requires LineIs(lines, 0, big, {large}) && LineIs(lines, 1, big, {huge}) && LineIs(lines, 2, small, {})
    requires LineIs(lines, 3, num, {punc})
    requires big != small && big != num && small != num
    ensures NoBlankLine(lines[..4])
    ensures Fold(lines[..4]) == map[big := {large, huge}, small := {}, num := {punc}]
  {
    var none: set<string> := {};
    MergeShapeThree(lines, big, small, large, huge);
    var g3 := map[big := {large, huge}, small := none];
    assert num !in g3;
    FoldStep(lines, 3, g3, num, {punc});
    assert none + {punc} == {punc};
  }

  /**
   * The shape of the example, over any five lines whose tokens normalise
   * as the example's do: two lines share the head `big`, one line has the
   * head `small` alone, and two lines put `punc` under `num`.
   */
  lemma MergeShape(lines: seq<seq<string>>, big: string, small: string, large: string, huge: string, num: string, punc: string)
    requires |lines| == 5
    requires LineIs(lines, 0, big, {large}) && LineIs(lines, 1, big, {huge}) && LineIs(lines, 2, small, {})
    requires LineIs(lines, 3, num, {punc}) && LineIs(lines, 4, num, {punc})
    requires big != small && big != num && small != num
    ensures Build(lines) == Read(map[big := {large, huge}, small := {}, num := {punc}])
  {
    var none: set<string> := {};
    MergeShapeFour(lines, big, small, large, huge, num, punc);
    var g3 := map[big := {large, huge}, small := none];
    FoldStep(lines, 4, g3[num := {punc}], num, {punc});
    assert {punc} + {punc} == {punc};
    Overwrite(g3, num, {punc}, {punc});
    assert lines[..5] == lines;
  }

  /**
   * Lines with the same head merge, a head-only line creates an empty set,
   * and numeric and punctuation tokens from different lines share buckets.
   */
  lemma MergeExample()
    ensures Build(ExampleLines) == Read(map["big" := {"large", "huge"}, "small" := {}, NUM := {PUNC}])
  {
    ExampleTokens();
    assert "big" != "small" && "big" != NUM && "small" != NUM;
    assert LineIs(ExampleLines, 0, "big", {"large"}) && LineIs(ExampleLines, 1, "big", {"huge"});
    assert LineIs(ExampleLines, 2, "small", {});
    assert LineIs(ExampleLines, 3, NUM, {PUNC}) && LineIs(ExampleLines, 4, NUM, {PUNC});
    MergeShape(ExampleLines, "big", "small", "large", "huge", NUM, PUNC);
  }
}
