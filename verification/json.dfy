/**
 * The outcome of a Jackson `ObjectMapper.readValue` call, kept abstract:
 * the decoder itself is foreign code, so the model only distinguishes a
 * decoded value from the three exception kinds the pipeline catches.
 */
module Json {

  datatype Decoded<+T> =
    | Decoded(value: T)
      /** `JsonParseException`: the text is not well-formed JSON. */
    | ParseFailure(message: string)
      /** `JsonMappingException`: well-formed JSON that does not fit the target type. */
    | MappingFailure(message: string)
      /** Any other `IOException` raised while reading. */
    | ReadFailure(message: string)
}
