/**
 * Library code the handler calls but that is not part of this model, taken as
 * given functions, and the clock, taken as a given value.
 */
module Foreign {
  import opened Wrappers
  import opened Dto

  /** What ObjectMapper.readValue(text, List<String>) gives: an exception, a JSON null, or the strings in order. */
  datatype JsonStringList = Malformed | JsonNull | Strings(items: seq<string>)

  datatype Runtime = Runtime(
    /** Base64.getDecoder().decode; None where it throws IllegalArgumentException. */
    base64Decode: string -> Option<seq<byte>>,
    /** Jackson's parse of a response body as a list of strings. */
    readStringList: string -> JsonStringList,
    /** Whether URI.create accepts the string (otherwise it throws IllegalArgumentException). */
    uriCreate: string -> bool,
    /** new Date() at the moment an error is normalised. */
    now: Date)
}
