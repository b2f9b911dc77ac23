/**
 * Properties of `shingle_generator` that relate several calls: positional
 * alignment, streaming over concatenated inputs, the default arguments, and
 * examples built on the two inputs of the module's commented-out test block
 * plus three small cases.
 */
module ShinglesProperties {
  import opened Wrappers
  import opened Seqs
  import opened StringsUtils
  import opened Shingles

  /**
   * Output `i` depends on document `i` only: two streams that agree at
   * position `i` give the same shingles there.
   */
  lemma OutputDependsOnlyOnItsDocument(u: StringsUtils, a: seq<Document>, b: seq<Document>,
                                       size: int, kind: string, i: nat)
    requires IsValid(kind)
    requires i < |a| && i < |b| && a[i] == b[i]
    ensures ShingleGenerator(u, a, size, kind).Ok? && ShingleGenerator(u, b, size, kind).Ok?
    ensures ShingleGenerator(u, a, size, kind).value[i] == ShingleGenerator(u, b, size, kind).value[i]
  {
  }

  /** The k-shingle generator maps a concatenated stream part by part. */
  lemma {:induction false} KGeneratorOfConcat(u: StringsUtils, a: seq<Document>, b: seq<Document>, size: int)
    ensures KShinglesGenerator(u, a + b, size) == KShinglesGenerator(u, a, size) + KShinglesGenerator(u, b, size)
  {
    if a == [] {
      assert a + b == b;
    } else {
      assert (a + b)[1..] == a[1..] + b;
      KGeneratorOfConcat(u, a[1..], b, size);
    }
  }

  /** The w-shingle generator maps a concatenated stream part by part. */
  lemma {:induction false} WGeneratorOfConcat(u: StringsUtils, a: seq<Document>, b: seq<Document>, size: int)
    ensures WShinglesGenerator(u, a + b, size) == WShinglesGenerator(u, a, size) + WShinglesGenerator(u, b, size)
  {
    if a == [] {
      assert a + b == b;
    } else {
      assert (a + b)[1..] == a[1..] + b;
      WGeneratorOfConcat(u, a[1..], b, size);
    }
  }

  /**
   * Pulling from a concatenated stream yields the outputs of the first part
   * followed by those of the second: no buffering, reordering or state
   * carried across documents.
   */
  lemma GeneratorOfConcat(u: StringsUtils, a: seq<Document>, b: seq<Document>, size: int, kind: string)
    ensures ShingleGenerator(u, a + b, size, kind).Ok? <==> ShingleGenerator(u, a, size, kind).Ok?
    ensures ShingleGenerator(u, a + b, size, kind).Ok? ==>
      ShingleGenerator(u, a + b, size, kind).value ==
      ShingleGenerator(u, a, size, kind).value + ShingleGenerator(u, b, size, kind).value
  {
    KGeneratorOfConcat(u, a, b, size);
    WGeneratorOfConcat(u, a, b, size);
  }

  /**
   * With a valid type, output `i` is `None` exactly when document `i` is
   * empty or absent, and otherwise a set of the kind the type names.
   */
  lemma GeneratorOutputKinds(u: StringsUtils, docs: seq<Document>, size: int, kind: string, i: nat)
    requires IsValid(kind) && i < |docs|
    ensures ShingleGenerator(u, docs, size, kind).Ok?
    ensures ShingleGenerator(u, docs, size, kind).value[i].None? <==> !Truthy(docs[i])
    ensures ShingleGenerator(u, docs, size, kind).value[i].Some? ==>
      (ShingleGenerator(u, docs, size, kind).value[i].value.KSet? <==> kind == KShingles.Name())
  {
  }

  /** With its defaults, `shingle_generator(docs)` gives the k-shingles of size 4. */
  lemma DefaultArguments(u: StringsUtils, docs: seq<Document>)
    ensures ShingleGenerator(u, docs) == Ok(KShinglesGenerator(u, docs, 4))
    ensures ShingleGenerator(u, docs, 4) == ShingleGenerator(u, docs, 4, "k-shingles")
    ensures KShinglesGenerator(u, docs) == KShinglesGenerator(u, docs, 4)
    ensures WShinglesGenerator(u, docs) == WShinglesGenerator(u, docs, 4)
  {
  }

  /** The k-shingles of "abcdefghijcklmnop" (its cleaned form) with size 4. */
  lemma KShinglesExample()
    ensures GetListOfShingles("abcdefghijcklmnop", 4) ==
      ["abcd", "bcde", "cdef", "defg", "efgh", "fghi", "ghij",
       "hijc", "ijck", "jckl", "cklm", "klmn", "lmno", "mnop"]
  {
    var doc := "abcdefghijcklmnop";
    var ws := GetListOfShingles(doc, 4);
    WindowsShape(doc, 4);
    assert |ws| == 14;
    assert ws[0] == "abcd" by { assert ws[0] == doc[0..4]; }
    assert ws[1] == "bcde" by { assert ws[1] == doc[1..5]; }
    assert ws[2] == "cdef" by { assert ws[2] == doc[2..6]; }
    assert ws[3] == "defg" by { assert ws[3] == doc[3..7]; }
    assert ws[4] == "efgh" by { assert ws[4] == doc[4..8]; }
    assert ws[5] == "fghi" by { assert ws[5] == doc[5..9]; }
    assert ws[6] == "ghij" by { assert ws[6] == doc[6..10]; }
    assert ws[7] == "hijc" by { assert ws[7] == doc[7..11]; }
    assert ws[8] == "ijck" by { assert ws[8] == doc[8..12]; }
    assert ws[9] == "jckl" by { assert ws[9] == doc[9..13]; }
    assert ws[10] == "cklm" by { assert ws[10] == doc[10..14]; }
    assert ws[11] == "klmn" by { assert ws[11] == doc[11..15]; }
    assert ws[12] == "lmno" by { assert ws[12] == doc[12..16]; }
    assert ws[13] == "mnop" by { assert ws[13] == doc[13..17]; }
  }

  /** Those 14 k-shingles are pairwise different, so the set keeps all 14. */
  lemma KShinglesExampleSize()
    ensures |ToSet(GetListOfShingles("abcdefghijcklmnop", 4))| == 14
  {
    KShinglesExample();
    var ws := GetListOfShingles("abcdefghijcklmnop", 4);
    forall i, j | 0 <= i < j < |ws| ensures ws[i] != ws[j] {
      assert ws[i][0] != ws[j][0] || ws[i][1] != ws[j][1];
    }
    WindowSetCard("abcdefghijcklmnop", 4);
  }

  /** The w-shingles of the tokens of "do or do not there is no try!" with size 4. */
  lemma WShinglesExample()
    ensures GetListOfShingles(["do", "or", "do", "not", "there", "is", "no", "try"], 4) ==
      [["do", "or", "do", "not"], ["or", "do", "not", "there"],
       ["do", "not", "there", "is"], ["not", "there", "is", "no"],
       ["there", "is", "no", "try"]]
  {
    var tokens := ["do", "or", "do", "not", "there", "is", "no", "try"];
    var ws := GetListOfShingles(tokens, 4);
    WindowsShape(tokens, 4);
    assert |ws| == 5;
    assert ws[0] == ["do", "or", "do", "not"];
    assert ws[1] == ["or", "do", "not", "there"];
    assert ws[2] == ["do", "not", "there", "is"];
    assert ws[3] == ["not", "there", "is", "no"];
    assert ws[4] == ["there", "is", "no", "try"];
  }

  /** Those five w-shingles are pairwise different, so the set keeps all five. */
  lemma WShinglesExampleSize()
    ensures |ToSet(GetListOfShingles(["do", "or", "do", "not", "there", "is", "no", "try"], 4))| == 5
  {
    WShinglesExample();
    var tokens := ["do", "or", "do", "not", "there", "is", "no", "try"];
    var ws := GetListOfShingles(tokens, 4);
    forall i, j | 0 <= i < j < |ws| ensures ws[i] != ws[j] {
      assert ws[i][0] != ws[j][0] || ws[i][1] != ws[j][1];
    }
    WindowSetCard(tokens, 4);
  }

  /** A text shorter than the shingle size gives the empty set, not `None`. */
  lemma ShortDocumentExample(u: StringsUtils)
    requires CleanedDoc(u, "hi") == "hi"
    ensures ShingleGenerator(u, [Some("hi")], 4, "k-shingles") == Ok([Some(KSet({}))])
  {
    WindowsShape("hi", 4);
    assert GetListOfShingles(CleanedDoc(u, "hi"), 4) == [];
    assert ToSet<string>([]) == {};
    assert KShinglesOf(u, Some("hi"), 4) == Some(KSet({}));
    assert IsValid("k-shingles") && "k-shingles" == KShingles.Name();
    var r := ShingleGenerator(u, [Some("hi")], 4, "k-shingles");
    assert r.Ok? && |r.value| == 1 && r.value[0] == Some(KSet({}));
    assert r.value == [Some(KSet({}))];
  }

  /** Empty and absent documents give `None` for both kinds. */
  lemma EmptyDocumentExample(u: StringsUtils, size: int)
    ensures ShingleGenerator(u, [Some(""), None], size, "k-shingles") == Ok([None, None])
    ensures ShingleGenerator(u, [Some(""), None], size, "w-shingles") == Ok([None, None])
  {
    var docs: seq<Document> := [Some(""), None];
    assert !Truthy(docs[0]) && !Truthy(docs[1]);
    var rk := ShingleGenerator(u, docs, size, "k-shingles");
    var rw := ShingleGenerator(u, docs, size, "w-shingles");
    assert IsValid("k-shingles") && IsValid("w-shingles");
    assert rk.value == [None, None];
    assert rw.value == [None, None];
  }

  /** "x-shingles" is rejected with a message naming it, for any stream. */
  lemma UnknownTypeExample(u: StringsUtils, docs: seq<Document>, size: int)
    ensures var r := ShingleGenerator(u, docs, size, "x-shingles");
      r.Err? && r.error.message[..10] == "x-shingles"
  {
  }
}
