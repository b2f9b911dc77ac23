/**
 * The shingle-extraction engine of `lsh/shingles/shingles.py`.
 *
 * A document stream becomes, document by document, either `None` (the
 * document was empty or absent) or the set of its shingles: windows of
 * `size` consecutive characters of the cleaned text (k-shingles) or of
 * `size` consecutive normalised, stemmed tokens (w-shingles).
 *
 * Python's lazy generators are modelled as finite sequences, and the
 * `ValueError` for an unknown shingle type as an `Err` result.
 */
module Shingles {
  import opened Wrappers
  import opened Seqs
  import opened StringsUtils

  /** `DEFAULT_SHINGLE_SIZE`. */
  const DefaultShingleSize: int := 4

  /** The two shingle kinds, with the strings that name them. */
  datatype ShingleType = WShingles | KShingles {
    function Name(): string {
      match this
      case WShingles => "w-shingles"
      case KShingles => "k-shingles"
    }
  }

  /** `ShingleType.is_valid`: exactly the name of a shingle kind is valid. */
  function IsValid(t: string): (b: bool)
    ensures b <==> exists k: ShingleType :: k.Name() == t
  {
    t == WShingles.Name() || t == KShingles.Name()
  }

  /** A document as the stream yields it: absent (`None`) or a string. */
  type Document = Option<string>

  /** Python's truth value of a document: present and non-empty. */
  predicate Truthy(doc: Document) {
    doc.Some? && |doc.value| > 0
  }

  /** One document's shingles: a set of strings or a set of token tuples. */
  datatype ShingleSet = KSet(chars: set<string>) | WSet(words: set<seq<string>>)

  /** The `ValueError` raised for an unknown shingle type. */
  datatype ShingleError = ValueError(message: string)

  function InvalidTypeMessage(t: string): string {
    t + " is not a valid shingle type. Valid types are \"w-shingles or k-shingles. Please use ShinglesType."
  }

  /** `len(range(n - size + 1))`. */
  function WindowCount(n: nat, size: int): nat {
    if n - size + 1 > 0 then n - size + 1 else 0
  }

  /**
   * `_get_list_of_shingles`: for a non-empty sequence, the slice
   * `doc[i:i + size]` for every `i` in `range(len(doc) - size + 1)`;
   * the empty list for an empty sequence. Any `int` size is accepted,
   * as in the source.
   */
  function GetListOfShingles<T>(doc: seq<T>, size: int): seq<seq<T>> {
    if |doc| > 0 then seq(WindowCount(|doc|, size), i => Slice(doc, i, i + size))
    else []
  }

  /**
   * For a positive size there are `max(L - size + 1, 0)` windows; window `i`
   * is the piece of exactly `size` elements starting at `i`, so windows come
   * in increasing start order; there are none when `L < size`.
   */
  lemma WindowsShape<T>(doc: seq<T>, size: int)
    requires size >= 1
    ensures |GetListOfShingles(doc, size)| == WindowCount(|doc|, size)
    ensures |doc| < size <==> GetListOfShingles(doc, size) == []
    ensures forall i :: 0 <= i < |GetListOfShingles(doc, size)| ==>
      |GetListOfShingles(doc, size)[i]| == size &&
      GetListOfShingles(doc, size)[i] == Piece(doc, i, size)
  {
    var ws := GetListOfShingles(doc, size);
    forall i | 0 <= i < |ws| ensures |ws[i]| == size && ws[i] == Piece(doc, i, size) {
      assert i + size <= |doc|;
      assert ws[i] == Slice(doc, i, i + size);
    }
  }

  /**
   * With size 0 the comprehension is not guarded: a non-empty sequence of
   * length `L` yields `L + 1` empty windows.
   */
  lemma WindowsOfSizeZero<T>(doc: seq<T>)
    requires |doc| > 0
    ensures |GetListOfShingles(doc, 0)| == |doc| + 1
    ensures forall i :: 0 <= i < |GetListOfShingles(doc, 0)| ==> GetListOfShingles(doc, 0)[i] == []
  {
  }

  /**
   * The set of windows holds exactly the contiguous pieces of length `size`.
   */
  lemma WindowSetMembers<T>(doc: seq<T>, size: int, w: seq<T>)
    requires size >= 1
    ensures w in ToSet(GetListOfShingles(doc, size)) <==> |w| == size && IsSegment(w, doc)
  {
    var ws := GetListOfShingles(doc, size);
    WindowsShape(doc, size);
    if w in ToSet(ws) {
      var i :| 0 <= i < |ws| && ws[i] == w;
      assert Piece(doc, i, |w|) == w;
    }
    if |w| == size && IsSegment(w, doc) {
      var i: nat :| i + |w| <= |doc| && Piece(doc, i, |w|) == w;
      assert ws[i] == w;
    }
  }

  /**
   * The set of windows has at most `max(L - size + 1, 0)` elements, exactly
   * that many when no two windows are equal.
   */
  lemma WindowSetCard<T>(doc: seq<T>, size: int)
    requires size >= 1
    ensures |ToSet(GetListOfShingles(doc, size))| <= WindowCount(|doc|, size)
    ensures |ToSet(GetListOfShingles(doc, size))| == WindowCount(|doc|, size) <==>
      Distinct(GetListOfShingles(doc, size))
  {
    WindowsShape(doc, size);
    CardToSet(GetListOfShingles(doc, size));
  }

  /** The k-shingle text: whitespace removed, then normalised. */
  function CleanedDoc(u: StringsUtils, doc: string): string {
    u.normalize(u.removeAllWhitespace(doc))
  }

  /** The w-shingle tokens: tokenised, each normalised, then each stemmed. */
  function StemmedTokens(u: StringsUtils, doc: string): (r: seq<string>)
    ensures |r| == |u.tokenize(doc)|
    ensures forall i :: 0 <= i < |r| ==> r[i] == u.getStem(u.normalize(u.tokenize(doc)[i]))
  {
    var tokens := u.tokenize(doc);
    var normalized := seq(|tokens|, i requires 0 <= i < |tokens| => u.normalize(tokens[i]));
    seq(|normalized|, i requires 0 <= i < |normalized| => u.getStem(normalized[i]))
  }

  /** One step of `_k_shingles_generator`. */
  function KShinglesOf(u: StringsUtils, doc: Document, size: int): Option<ShingleSet> {
    if Truthy(doc) then Some(KSet(ToSet(GetListOfShingles(CleanedDoc(u, doc.value), size))))
    else None
  }

  /** One step of `_w_shingles_generator`. */
  function WShinglesOf(u: StringsUtils, doc: Document, size: int): Option<ShingleSet> {
    if Truthy(doc) then Some(WSet(ToSet(GetListOfShingles(StemmedTokens(u, doc.value), size))))
    else None
  }

  /**
   * A document gives `None` exactly when it is empty or absent; otherwise a
   * set of strings, each `size` characters of the cleaned text taken at
   * consecutive positions, every such piece included, at most
   * `max(L - size + 1, 0)` of them and none when `L < size`.
   */
  lemma KShinglesOfSpec(u: StringsUtils, doc: Document, size: int)
    requires size >= 1
    ensures KShinglesOf(u, doc, size).None? <==> !Truthy(doc)
    ensures Truthy(doc) ==>
      var cleaned := CleanedDoc(u, doc.value);
      var r := KShinglesOf(u, doc, size).value;
      && r.KSet?
      && (forall w :: w in r.chars <==> |w| == size && IsSegment(w, cleaned))
      && |r.chars| <= WindowCount(|cleaned|, size)
      && (|cleaned| < size <==> r.chars == {})
  {
    if Truthy(doc) {
      var cleaned := CleanedDoc(u, doc.value);
      forall w ensures w in ToSet(GetListOfShingles(cleaned, size)) <==> |w| == size && IsSegment(w, cleaned) {
        WindowSetMembers(cleaned, size, w);
      }
      WindowSetCard(cleaned, size);
      WindowsShape(cleaned, size);
    }
  }

  /**
   * A document gives `None` exactly when it is empty or absent; otherwise a
   * set of token tuples, each `size` consecutive stemmed tokens, every such
   * window included, at most `max(n - size + 1, 0)` of them for `n` tokens
   * and none when `n < size`.
   */
  lemma WShinglesOfSpec(u: StringsUtils, doc: Document, size: int)
    requires size >= 1
    ensures WShinglesOf(u, doc, size).None? <==> !Truthy(doc)
    ensures Truthy(doc) ==>
      var tokens := StemmedTokens(u, doc.value);
      var r := WShinglesOf(u, doc, size).value;
      && r.WSet?
      && (forall w :: w in r.words <==> |w| == size && IsSegment(w, tokens))
      && |r.words| <= WindowCount(|tokens|, size)
      && (|tokens| < size <==> r.words == {})
  {
    if Truthy(doc) {
      var tokens := StemmedTokens(u, doc.value);
      forall w ensures w in ToSet(GetListOfShingles(tokens, size)) <==> |w| == size && IsSegment(w, tokens) {
        WindowSetMembers(tokens, size, w);
      }
      WindowSetCard(tokens, size);
      WindowsShape(tokens, size);
    }
  }

  /** `_k_shingles_generator`: one output per document, in order. */
  function KShinglesGenerator(u: StringsUtils, docs: seq<Document>, size: int := DefaultShingleSize): (r: seq<Option<ShingleSet>>)
    ensures |r| == |docs|
    ensures forall i :: 0 <= i < |docs| ==> r[i] == KShinglesOf(u, docs[i], size)
  {
    if docs == [] then []
    else [KShinglesOf(u, docs[0], size)] + KShinglesGenerator(u, docs[1..], size)
  }

  /** `_w_shingles_generator`: one output per document, in order. */
  function WShinglesGenerator(u: StringsUtils, docs: seq<Document>, size: int := DefaultShingleSize): (r: seq<Option<ShingleSet>>)
    ensures |r| == |docs|
    ensures forall i :: 0 <= i < |docs| ==> r[i] == WShinglesOf(u, docs[i], size)
  {
    if docs == [] then []
    else [WShinglesOf(u, docs[0], size)] + WShinglesGenerator(u, docs[1..], size)
  }

  /**
   * `shingle_generator`: an unknown type fails, whatever the documents, with
   * a message that starts with the type; a valid type gives one output per
   * document, in order, by the strategy the type names. The size defaults
   * to `DEFAULT_SHINGLE_SIZE` and the type to `"k-shingles"`.
   */
  function ShingleGenerator(u: StringsUtils, docs: seq<Document>,
                            size: int := DefaultShingleSize, kind: string := KShingles.Name())
    : (r: Result<seq<Option<ShingleSet>>, ShingleError>)
    ensures r.Err? <==> !IsValid(kind)
    ensures r.Err? ==> |kind| <= |r.error.message| && r.error.message[..|kind|] == kind
    ensures r.Ok? ==> |r.value| == |docs|
    ensures r.Ok? ==> forall i :: 0 <= i < |docs| ==>
      r.value[i] == if kind == KShingles.Name() then KShinglesOf(u, docs[i], size)
                    else WShinglesOf(u, docs[i], size)
  {
    if !IsValid(kind) then Err(ValueError(InvalidTypeMessage(kind)))
    else if kind == KShingles.Name() then Ok(KShinglesGenerator(u, docs, size))
    else Ok(WShinglesGenerator(u, docs, size))
  }
}
