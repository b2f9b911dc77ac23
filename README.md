# Shingle extraction, modelled in Dafny

This project models the shingle-extraction engine of the `lsh` package
(`lsh/shingles/shingles.py`). The engine turns a stream of documents into a
stream of shingle sets, one per document, in order. An empty or absent
document gives `None`. Any other document gives a set, which may be empty:

- **k-shingles**: the document has its whitespace removed and is normalised.
  The set holds every piece of `size` consecutive characters of that text.
- **w-shingles**: the document is tokenised, and each token is normalised and
  then stemmed. The set holds every tuple of `size` consecutive tokens.

An unknown shingle type makes `shingle_generator` fail with a `ValueError`
whose message starts with the type.

Files:

- `wrappers.dfy`: `Option` (Python's `None`) and `Result` (a raised error).
- `strings_utils.dfy`: the four text operations of `lsh.utils.strings_utils`.
  That module is not part of this model. Its operations are a record of
  total functions passed to the engine. The engine assumes no property of
  them. Only `ShinglesProperties.ShortDocumentExample` adds a hypothesis,
  that `"hi"` cleans to `"hi"`.
- `seqs.dfy`: Python slicing `s[i:j]` with its index clamping, `set(list)`,
  and the lemma that a list's set has at most as many elements as the list,
  with equality exactly when the list has no duplicates.
- `shingles.dfy`: `ShingleType.is_valid`, `_get_list_of_shingles`, one step
  of each per-document generator, the two generators and `shingle_generator`,
  together with the lemmas about windows and shingle sets.
- `shingles_properties.dfy`: alignment, streaming and default-argument
  lemmas. It also has examples built on the two input strings of the
  module's commented-out test block, which gives no expected output, plus
  three small cases: a short text, an empty or absent document, and an
  unknown type.

Modelling choices:

- A lazy generator is a finite `seq`. The `ValueError` becomes an `Err` for
  the whole call, whatever the documents are. In Python it is raised when the
  first element is pulled, before any document is read.
- A document is `Option<string>`. Python's `if doc:` is `Truthy`: present and
  non-empty.
- The window helper accepts any `int` size, as the source does. Python's slice
  clamping is written out in `Seqs.Slice`. The window properties are proved
  for `size >= 1`. For `size == 0` the code is unguarded: a non-empty text
  gives `L + 1` empty windows (`Shingles.WindowsOfSizeZero`).
- The defaults are kept: `size` defaults to `DefaultShingleSize` (4) in
  `ShingleGenerator` and both generators, and the type defaults to
  `"k-shingles"` (`ShinglesProperties.DefaultArguments`).
- A Dafny `char` stands for one unit of the document's string type. The
  module is Python 2 code (it uses `print` statements), so for a byte
  `str` a k-shingle is `size` bytes, not necessarily `size` Unicode
  characters.
- The dispatcher picks k-shingles when the type is `"k-shingles"` and
  w-shingles otherwise, after validation, as the source does.

## Model

| member | source | states |
|---|---|---|
| `Shingles.IsValid` | lsh/shingles/shingles.py:5-13 | a type string is valid exactly when it is the name of one of the two shingle kinds, `"w-shingles"` or `"k-shingles"` |
| `Seqs.ClampIndex` | lsh/shingles/shingles.py:90 | a slice bound is clamped into `0..n`; an in-range bound is kept; a bound past the end becomes `n`; a negative bound counts from the end, floored at 0 |
| `Seqs.Slice` | lsh/shingles/shingles.py:90 | a Python slice is never longer than the sequence, and for in-range bounds `i <= j` it is exactly the elements `i` to `j`; crossed non-negative bounds `0 <= j <= i` give the empty slice |
| `Seqs.CardToSet` | lsh/shingles/shingles.py:75 | `set(list)` has at most as many elements as the list, and exactly as many iff no two list elements are equal |
| `Shingles.WindowsShape` | lsh/shingles/shingles.py:89-92 | for size at least 1 there are `max(L - size + 1, 0)` windows; window `i` has exactly `size` elements and is the piece starting at `i`; the list is empty iff `L < size` |
| `Shingles.WindowsOfSizeZero` | lsh/shingles/shingles.py:89-90 | with size 0 a non-empty sequence of length `L` gives `L + 1` windows, all empty |
| `Shingles.WindowSetMembers` | lsh/shingles/shingles.py:90 | for size at least 1, a value is in the set of windows iff it has length `size` and occurs contiguously in the sequence |
| `Shingles.WindowSetCard` | lsh/shingles/shingles.py:89-92 | for size at least 1 the set of windows has at most `max(L - size + 1, 0)` elements, with equality iff no two windows are equal |
| `Shingles.StemmedTokens` | lsh/shingles/shingles.py:45-51 | there is one token per tokenised word, in order; token `i` is the stem of the normalised word `i` |
| `Shingles.KShinglesOfSpec` | lsh/shingles/shingles.py:66-77 | a document gives `None` iff it is empty or absent; otherwise a set of strings that holds exactly the length-`size` pieces of the cleaned text, with at most `max(L - size + 1, 0)` elements, and empty iff `L < size` |
| `Shingles.WShinglesOfSpec` | lsh/shingles/shingles.py:42-56 | a document gives `None` iff it is empty or absent; otherwise a set of token tuples that holds exactly the runs of `size` consecutive stemmed tokens, with at most `max(n - size + 1, 0)` elements for `n` tokens, and empty iff `n < size` |
| `Shingles.KShinglesGenerator` | lsh/shingles/shingles.py:58-77 | the k-shingle generator gives exactly one output per document, and output `i` is the k-shingles of document `i` |
| `Shingles.WShinglesGenerator` | lsh/shingles/shingles.py:34-56 | the w-shingle generator gives exactly one output per document, and output `i` is the w-shingles of document `i` |
| `Shingles.ShingleGenerator` | lsh/shingles/shingles.py:15-32 | the call fails iff the type is invalid, whatever the documents are, and the error message starts with the type; otherwise there is one output per document, made by the strategy the type names |
| `ShinglesProperties.OutputDependsOnlyOnItsDocument` | lsh/shingles/shingles.py:27-32 | with a valid type, two streams that agree at position `i` give the same output at `i` |
| `ShinglesProperties.KGeneratorOfConcat` | lsh/shingles/shingles.py:66-77 | the k-shingle generator on a concatenated stream gives the outputs of the first part followed by those of the second |
| `ShinglesProperties.WGeneratorOfConcat` | lsh/shingles/shingles.py:42-56 | the w-shingle generator on a concatenated stream gives the outputs of the first part followed by those of the second |
| `ShinglesProperties.GeneratorOfConcat` | lsh/shingles/shingles.py:27-32 | on a concatenated stream the call succeeds iff it succeeds on the first part, and its outputs are those of the first part followed by those of the second |
| `ShinglesProperties.GeneratorOutputKinds` | lsh/shingles/shingles.py:27-32 | with a valid type, output `i` is `None` iff document `i` is empty or absent, and a present set is a k-shingle set iff the type is `"k-shingles"` |
| `ShinglesProperties.DefaultArguments` | lsh/shingles/shingles.py:15 | called with only the documents, the generator gives the k-shingles of size 4; each generator's size defaults to 4 |
| `ShinglesProperties.KShinglesExample` | lsh/shingles/shingles.py:97-105 | the cleaned text `"abcdefghijcklmnop"` with size 4 gives the 14 windows `"abcd"` to `"mnop"`, in order |
| `ShinglesProperties.KShinglesExampleSize` | lsh/shingles/shingles.py:97-105 | the 14 k-shingles of `"abcdefghijcklmnop"` with size 4 are pairwise different, so the set has 14 elements |
| `ShinglesProperties.WShinglesExample` | lsh/shingles/shingles.py:100-109 | the eight tokens of `"do or do not there is no try"` with size 4 give five 4-token windows, in order |
| `ShinglesProperties.WShinglesExampleSize` | lsh/shingles/shingles.py:100-109 | the five 4-token windows of that token list are pairwise different, so the set has 5 elements |
| `ShinglesProperties.ShortDocumentExample` | lsh/shingles/shingles.py:66-77 | a document whose cleaned text `"hi"` is shorter than 4 gives the empty set, not `None` |
| `ShinglesProperties.EmptyDocumentExample` | lsh/shingles/shingles.py:42-77 | empty and absent documents give `None` for both kinds |
| `ShinglesProperties.UnknownTypeExample` | lsh/shingles/shingles.py:24-25 | the type `"x-shingles"` is rejected, with a message that starts with `"x-shingles"` |

## Left out

- `pipe_node.py` (`PipeNode`, `NotFound`, `NotLoggedIn`): it has no logic and the shingle engine does not use it.
- The bodies of `tokenize`, `normalize`, `get_stem` and `remove_all_whitespace`: that module is not part of this model, so they are unconstrained parameters. As a result nothing is proved about punctuation or case, `normalize` is not shown to be idempotent, and `get_stem` is not taken to be the identity.
- Laziness: the streams are finite sequences. The model does not capture that the `ValueError` appears only on the first pull, nor that a caller who never pulls never sees it.
- A `type` that is not a string and a document that is a falsy non-string value: the type is a `string` and a document is a string or `None`.
- `ShinglesProperties.KShinglesExample`: starts from the cleaned text `"abcdefghijcklmnop"`, not the raw input `"abcdefghijcklmnop."`, because removing the period is the job of `normalize`, which is not modelled.
- `ShinglesProperties.WShinglesExample`: starts from the normalised tokens, because `tokenize` and `normalize` are not modelled.
