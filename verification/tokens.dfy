/**
 * Token normalisation (retrofit.py, `normalize`).
 *
 * Every lexicon token is mapped to one of three shapes: the number
 * sentinel, the punctuation sentinel, or its lower-case form.  Character
 * classes follow Python's `\d`, `\w` and `str.lower` restricted to ASCII.
 */
module Tokens {

  /** The bucket shared by every token that contains a digit. */
  const NUM: string := "---num---"
  /** The bucket shared by every token without a word character. */
  const PUNC: string := "---punc---"

  predicate IsDigit(c: char) { '0' <= c <= '9' }
  predicate IsUpper(c: char) { 'A' <= c <= 'Z' }
  predicate IsLowerLetter(c: char) { 'a' <= c <= 'z' }

  /** `\w` on ASCII: a letter, a digit or the underscore. */
  predicate IsWordChar(c: char) { IsDigit(c) || IsUpper(c) || IsLowerLetter(c) || c == '_' }

  /** `str.lower` on one ASCII character. */
  function Lower(c: char): (d: char)
    ensures !IsUpper(d)
    ensures IsDigit(d) == IsDigit(c) && IsWordChar(d) == IsWordChar(c)
    ensures !IsUpper(c) ==> d == c
  {
    if IsUpper(c) then (c as int + 32) as char else c
  }

  /** `str.lower` on a token: same length, no upper-case letter left. */
  function LowerStr(s: string): (r: string)
    ensures |r| == |s| && IsLowerCase(r)
  {
    seq(|s|, i requires 0 <= i < |s| => Lower(s[i]))
  }

  /** `NUMBER.search(s)` succeeds: some character is a digit. */
  predicate HasDigit(s: string) { exists i :: 0 <= i < |s| && IsDigit(s[i]) }

  /** `WORD_CHAR.search(s)` succeeds: some character is a word character. */
  predicate HasWordChar(s: string) { exists i :: 0 <= i < |s| && IsWordChar(s[i]) }

  predicate IsLowerCase(s: string) { forall i :: 0 <= i < |s| ==> !IsUpper(s[i]) }

  /**
   * The tokens normalisation can produce: lower case, no digit, at least
   * one word character.  Both sentinels have this shape.
   */
  predicate IsNormal(s: string) { IsLowerCase(s) && !HasDigit(s) && HasWordChar(s) }

  lemma SentinelsAreNormal()
    ensures IsNormal(NUM) && IsNormal(PUNC)
  {
    assert IsWordChar(NUM[3]);
    assert IsWordChar(PUNC[3]);
  }

  /** Lower-casing keeps the digit and word-character tests. */
  lemma LowerStrKeepsClasses(s: string)
    ensures HasDigit(LowerStr(s)) == HasDigit(s)
    ensures HasWordChar(LowerStr(s)) == HasWordChar(s)
    ensures IsLowerCase(LowerStr(s))
  {
    var l := LowerStr(s);
    if HasDigit(s) {
      var i :| 0 <= i < |s| && IsDigit(s[i]);
      assert IsDigit(l[i]);
    }
    if HasDigit(l) {
      var i :| 0 <= i < |l| && IsDigit(l[i]);
      assert IsDigit(s[i]);
    }
    if HasWordChar(s) {
      var i :| 0 <= i < |s| && IsWordChar(s[i]);
      assert IsWordChar(l[i]);
    }
    if HasWordChar(l) {
      var i :| 0 <= i < |l| && IsWordChar(l[i]);
      assert IsWordChar(s[i]);
    }
  }

  lemma LowerStrOfLowerCase(s: string)
    requires IsLowerCase(s)
    ensures LowerStr(s) == s
  {
  }

  /** retrofit.py `normalize`: one of the two sentinels, or a lower-case token of the same length. */
  function Normalize(word: string): (r: string)
    ensures r == NUM || r == PUNC || (|r| == |word| && IsLowerCase(r))
  {
    if HasDigit(LowerStr(word)) then NUM
    else if !HasWordChar(word) then PUNC
    else LowerStr(word)
  }

  /** Normalisation always produces a normal token. */
  lemma NormalizeIsNormal(word: string)
    ensures IsNormal(Normalize(word))
  {
    LowerStrKeepsClasses(word);
    SentinelsAreNormal();
  }

  /**
   * The three cases, stated on the characters of the raw token: a digit
   * anywhere gives the number bucket; otherwise no letter, digit or
   * underscore gives the punctuation bucket; otherwise every character is
   * lower-cased and nothing else changes.
   */
  lemma NormalizeCases(word: string)
    ensures (exists i :: 0 <= i < |word| && IsDigit(word[i])) ==> Normalize(word) == NUM
    ensures (forall i :: 0 <= i < |word| ==> !IsWordChar(word[i])) ==> Normalize(word) == PUNC
    ensures (forall i :: 0 <= i < |word| ==> !IsDigit(word[i])) &&
            (exists i :: 0 <= i < |word| && IsWordChar(word[i])) ==>
              |Normalize(word)| == |word| &&
              forall i :: 0 <= i < |word| ==> Normalize(word)[i] == Lower(word[i])
  {
    LowerStrKeepsClasses(word);
  }

  /** The fixed points of normalisation are exactly the normal tokens. */
  lemma NormalizeFixedPoints(s: string)
    ensures Normalize(s) == s <==> IsNormal(s)
  {
    NormalizeIsNormal(s);
    if IsNormal(s) {
      LowerStrOfLowerCase(s);
    }
  }

  /** Normalising twice is normalising once. */
  lemma NormalizeIdempotent(word: string)
    ensures Normalize(Normalize(word)) == Normalize(word)
  {
    NormalizeIsNormal(word);
    NormalizeFixedPoints(Normalize(word));
  }

  /** Lower-casing the line before normalising (as `read_lexicon` does) changes nothing. */
  lemma NormalizeAfterLower(word: string)
    ensures Normalize(LowerStr(word)) == Normalize(word)
  {
    LowerStrKeepsClasses(word);
    LowerStrKeepsClasses(LowerStr(word));
    LowerStrOfLowerCase(LowerStr(word));
  }

  /** Numeric tokens share one bucket and all-punctuation tokens another. */
  lemma BucketExamples()
    ensures Normalize("3") == Normalize("42nd") == NUM
    ensures Normalize("!!") == Normalize("--") == PUNC
    ensures Normalize("Cat") == "cat"
  {
    assert IsDigit(LowerStr("3")[0]);
    assert IsDigit(LowerStr("42nd")[0]);
    assert !HasWordChar("!!") by {
      forall i | 0 <= i < 2 ensures !IsWordChar("!!"[i]) { }
    }
    assert !HasWordChar("--") by {
      forall i | 0 <= i < 2 ensures !IsWordChar("--"[i]) { }
    }
    var l := LowerStr("Cat");
    assert l == "cat";
    assert !HasDigit(l) by {
      forall i | 0 <= i < 3 ensures !IsDigit(l[i]) { }
    }
    assert IsWordChar("Cat"[0]);
  }

  /**
   * A word spelled like a sentinel lands in that sentinel's bucket: the
   * buckets are not reserved.
   */
  lemma SentinelSpellingCollides()
    ensures Normalize("---NUM---") == Normalize("7") == NUM
  {
    var w := "---NUM---";
    var l := LowerStr(w);
    assert l == NUM;
    SentinelsAreNormal();
    assert IsWordChar(w[3]);
    assert IsDigit(LowerStr("7")[0]);
  }
}
