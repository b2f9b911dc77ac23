/**
 * The text-normalisation collaborator `lsh.utils.strings_utils`.
 *
 * Its source is not part of this model, so each of its four operations is a
 * parameter: a record of total functions that the shingle engine receives.
 * Nothing is assumed about them (in particular neither that `normalize` is
 * idempotent nor that `get_stem` is the identity).
 */
module StringsUtils {
  datatype StringsUtils = StringsUtils(
    /** `tokenize(doc)`: the words of a document, in order. */
    tokenize: string -> seq<string>,
    /** `normalize(text)`: lower-cases and strips punctuation. */
    normalize: string -> string,
    /** `get_stem(token)`: the stem of a token. */
    getStem: string -> string,
    /** `remove_all_whitespace(doc)`: the document without any whitespace. */
    removeAllWhitespace: string -> string
  )
}
