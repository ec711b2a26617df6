/** The JSON values that the weather servers receive from the upstream service or parse from text. */
module Json {
  import opened Wrappers

  /**
   * A JSON value as `json.loads` or `response.json()` produce it. Every value carries
   * `shown`, the text that Python's `str()` gives for it, which is what an f-string
   * field prints: the text itself for a string, the decimal rendering for a number,
   * `True`/`False` for a boolean, `None` for null and the `repr` for a list or a dict.
   */
  datatype JValue =
    | Str(shown: string)       // a string; its text is also what `str()` prints
    | Scalar(shown: string)    // a number, a boolean or null
    | Array(items: seq<JValue>, shown: string)
    | Object(fields: map<string, JValue>, shown: string)

  /** `json.loads`: the value the text denotes, or the message of the exception it raises. */
  type Loads = string -> Result<JValue, string>
}
