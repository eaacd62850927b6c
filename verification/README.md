# Retrofitting word vectors to a lexicon

This project models the core of `retrofit.py`, a script that retrofits word
vectors to a semantic lexicon such as PPDB. It has three parts:

- **Token normalisation** (`normalize`) lives in `tokens.dfy`, module `Tokens`.
  A token containing a digit becomes `---num---`. A token with no letter,
  digit or underscore becomes `---punc---`. Any other token is lower-cased.
- **Lexicon building** (the loop of `read_lexicon`) lives in `lexicon.dfy`,
  module `Lexicon`. Each line, already split into tokens, adds the normalised
  tail tokens to the set of its normalised head token. Sets for a repeated
  head merge. A blank line aborts the read: `words[0]` raises there, and the
  model returns `BlankLine(index)`. `ReadLexicon` is the loop as a method,
  proved equal to the specification function `Build`.
- **Retrofitting** (`retrofit`) lives in `retrofit.dfy`, module `Retrofitting`,
  with vector arithmetic in `vectors.dfy`, module `Vectors`.
  - The active words are those that have both a vector and a lexicon entry.
  - Each round visits the active words in turn. A word with `k >= 1`
    neighbours that have vectors is overwritten with
    `(k * original[w] + Σ current[n]) / (2k)`.
  - The data term comes from the input table. The neighbour terms come from
    the working table, so words later in a round see values written earlier
    in the same round (Gauss–Seidel).
  - The order in which the active set is visited is an explicit `order`
    argument. `RetrofittingExample.OrderMatters` proves that the result
    depends on it.

Tables are Dafny `map` values. The input table therefore cannot be changed by
`Retrofit`, and the working table is an independent copy from the start.
Floats are modelled as exact `real`s. Every table vector has the same length,
`dim`, which is a ghost parameter.

## Model

| member | source | states |
|---|---|---|
| Tokens.LowerStr | retrofit.py:15-21 | `str.lower` on a token, character by character; the result has the same length and no upper-case letter |
| Tokens.Normalize | retrofit.py:15-21 | `normalize`: the number sentinel if the lowered token has a digit, else the punctuation sentinel if the token has no word character, else the lowered token; so the result is a sentinel or a lower-case token of the input's length |
| Tokens.Lower | retrofit.py:16 | lower-casing one character gives a non-upper-case character, changes only upper-case letters, and keeps the digit and word-character tests |
| Tokens.LowerStrKeepsClasses | retrofit.py:16-18 | lower-casing a token keeps whether it contains a digit and whether it contains a word character, and yields a lower-case token |
| Tokens.NormalizeIsNormal | retrofit.py:15-21 | every normalised token is lower case, has no digit and has a word character, and so do both sentinels |
| Tokens.NormalizeCases | retrofit.py:15-21 | a digit anywhere gives `---num---`; otherwise no word character gives `---punc---`; otherwise the result is the token with every character lower-cased |
| Tokens.NormalizeFixedPoints | retrofit.py:15-21 | a token is left unchanged by normalisation exactly when it is lower case, digit-free and has a word character |
| Tokens.NormalizeIdempotent | retrofit.py:15-21 | normalising twice equals normalising once |
| Tokens.NormalizeAfterLower | retrofit.py:61-62 | lower-casing the line before normalising its tokens changes no token |
| Tokens.BucketExamples | retrofit.py:15-21 | "3" and "42nd" share the number bucket, "!!" and "--" share the punctuation bucket, and "Cat" becomes "cat" |
| Tokens.SentinelSpellingCollides | retrofit.py:15-21 | a word spelled like the number sentinel lands in the same bucket as "7", so the buckets are not reserved |
| Lexicon.Token | retrofit.py:61-62 | a raw token as it enters the graph: the line is lower-cased, then the token normalised (NormalizeAfterLower shows this equals normalising the raw token) |
| Lexicon.AddLine | retrofit.py:62 | `lexicon[head].update(tail)` on a dictionary whose missing keys default to the empty set: the keys gain the head, the head's set gains every tail token and keeps what it had |
| Lexicon.Fold | retrofit.py:60-62 | the dictionary after adding every line in file order, starting from the empty dictionary |
| Lexicon.Build | retrofit.py:58-63 | the whole read: it succeeds exactly when no line is blank, and otherwise reports a blank line with no blank line before it |
| Lexicon.FirstBlank | retrofit.py:60-62 | the reported index is a blank line, and no line before it is blank |
| Lexicon.ReadLexicon | retrofit.py:56-63 | the loop returns the folded graph exactly when no line is blank, and otherwise fails at the first blank line |
| Lexicon.FirstBlankIsUnique | retrofit.py:60-62 | a blank line with no blank line before it is the one the read fails at |
| Lexicon.BuildKeys | retrofit.py:58-63 | on success a word is a key exactly when it is the normalised head of some line |
| Lexicon.BuildMembers | retrofit.py:58-63 | on success a key's set holds exactly the normalised tail tokens of all lines with that head, so repeated heads merge |
| Lexicon.BuildIsNormalised | retrofit.py:62 | every key and every related word is a fixed point of normalisation |
| Lexicon.TokenOfWord | retrofit.py:61-62 | an all-letter token ends up as its lower-case spelling |
| Lexicon.TokenOfNumber | retrofit.py:61-62 | a token with a digit ends up in the number bucket |
| Lexicon.TokenOfPunctuation | retrofit.py:61-62 | a token with no word character ends up in the punctuation bucket |
| Lexicon.MergeShape | retrofit.py:58-63 | any five lines whose tokens normalise as in the example below read to the same three-key dictionary |
| Lexicon.MergeExample | retrofit.py:58-63 | for a concrete five-line lexicon: the two "big" lines merge, a head-only line gives an empty set, and numeric and punctuation tokens from different lines share buckets |
| Vectors.SumOver | retrofit.py:83-84 | the sum of the vectors of a set of neighbours, as the neighbour loop accumulates it; it has the table's vector length |
| Vectors.SumOverRemove | retrofit.py:83-84 | any neighbour may be added first: the neighbour sum does not depend on the order the set yields |
| Vectors.SumOverInsert | retrofit.py:83-84 | adding one more neighbour to the set adds its vector to the sum |
| Vectors.SumOverSingleton | retrofit.py:83-84 | the sum over one neighbour is that neighbour's vector |
| Vectors.SumOverBounds | retrofit.py:83-84 | if a coordinate of every summed vector lies in [lo, hi], the sum's coordinate lies in [n·lo, n·hi] for n summands |
| Retrofitting.Active | retrofit.py:69-70 | `loop_vocab`: exactly the words that have both a vector and a lexicon entry |
| Retrofitting.Neighbours | retrofit.py:75 | `word_neighbours`: exactly the lexicon neighbours of the word that have a vector in the input table |
| Retrofitting.Averaged | retrofit.py:81-85 | the update for a word with k >= 1 neighbours: (k · input vector + sum of the neighbours' current vectors) / 2k; the result has the table's vector length |
| Retrofitting.Visit | retrofit.py:74-85 | visiting one word keeps the table's keys and every vector's length |
| Retrofitting.Sweep | retrofit.py:74-85 | a whole round keeps the table's keys and every vector's length |
| Retrofitting.Iterate | retrofit.py:71-85 | any number of rounds keeps the table's keys and every vector's length |
| Retrofitting.Retrofit | retrofit.py:66-86 | the result is the given number of rounds over the active words. It has the input's keys and vector length. Zero iterations return the input. A word without a lexicon entry, or whose neighbours all lack vectors, keeps its input vector |
| Retrofitting.Round | retrofit.py:74-85 | one round visits the words in order, each overwriting the working table in place |
| Retrofitting.UpdateWord | retrofit.py:75-85 | a word with neighbours that have vectors gets the weighted average; any other word is left as it is (`continue`) |
| Retrofitting.WeightedSum | retrofit.py:81-84 | the accumulated vector is k times the original vector plus the current vectors of all neighbours, whatever order they are taken in |
| Retrofitting.SweepLeaves | retrofit.py:74-79 | a round leaves unchanged every word it does not visit and every word with no usable neighbour |
| Retrofitting.IteratePassThrough | retrofit.py:70-79 | such a word keeps its input vector however many rounds run |
| Retrofitting.SweepValue | retrofit.py:74-85 | each visited word ends the round with the average computed from the table as it stood after the words before it |
| Retrofitting.AveragedOneNeighbour | retrofit.py:81-85 | with a single neighbour u the new vector is (original[w] + current[u]) / 2 |
| Retrofitting.MixBounds | retrofit.py:85 | (k·a + s) / (2k) lies in [lo, hi] when a does and s lies in [k·lo, k·hi] |
| Retrofitting.AverageBounds | retrofit.py:81-85 | the same bound, with the neighbour sum bounded by n repeated additions |
| Retrofitting.AveragedWithin | retrofit.py:81-85 | a new vector's coordinate stays within the bounds that coordinate has in the input table and in the working table |
| Retrofitting.SweepWithin | retrofit.py:74-85 | a round keeps every coordinate within the input's bounds for that coordinate |
| Retrofitting.IterateWithin | retrofit.py:71-85 | after any number of rounds every coordinate lies between the smallest and largest input value of that coordinate |
| RetrofittingExample.CatThenDog | retrofit.py:66-86 | one round visiting "cat" then "dog" gives cat (0.5, 0.5) and dog (0.25, 0.75); "pet" has no entry and keeps (0.5, 0.5) |
| RetrofittingExample.DogThenCat | retrofit.py:66-86 | visiting "dog" first gives dog (0.375, 0.625), then cat (0.6875, 0.3125) |
| RetrofittingExample.OrderMatters | retrofit.py:74 | two orders that each list the active words exactly once, so both are possible iteration orders of the set, give "cat" different vectors after one round |

## Left out

- `read_word_vectors` (retrofit.py:24-42) is left out. It is file and gzip I/O plus L2 normalisation with a square root. The model takes the vector table as a value.
- `write_word_vectors` (retrofit.py:45-53) is left out: it is file output with `%.4f` formatting.
- The command-line entry point (retrofit.py:89 onwards) and the progress `print` at line 72 are left out: they are I/O.
- Opening the lexicon file and splitting each line on whitespace are left out. `Lexicon.ReadLexicon` takes the lines already split into tokens. A line with only whitespace is the empty token list.
- Floating point is modelled as exact reals. Rounding, overflow and NaN are not modelled.
- Only ASCII characters are modelled. Python's `\d`, `\w` and `str.lower` also act on non-ASCII characters. Here a non-ASCII character is neither a digit nor a word character and is unchanged by lower-casing.
- Retrofitting.Retrofit: takes `iterations` as a `nat`. The code does not reject a negative count; `range` of it is empty, so Python returns the unchanged copy. That case is not modelled.
- Retrofitting.Retrofit: requires every vector of the input table to have the same length. The code does not check this. The requirement excludes more than the runs that raise when arrays of different lengths are summed. It also excludes runs that succeed: numpy broadcasts a length-1 neighbour vector into a longer one, and vectors of another length on words that are never active and never neighbours are simply copied through. None of these inputs are modelled.
- Retrofitting.Retrofit: the order in which Python iterates `loop_vocab` is a hash-set order the model cannot see. It is the `order` argument instead, required to list each active word exactly once.
- `deepcopy` and aliasing between the input and output tables are not modelled as memory: both tables are values, so the input is unchanged by construction.
