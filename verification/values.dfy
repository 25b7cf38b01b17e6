/** Opaque payloads the plugin stores, compares and passes through without interpreting. */
module Values {

  /** Term bytes as produced by the analysis chain. */
  type Bytes = seq<bv8>

  /**
   * A Java `float`, represented by `Float.floatToIntBits`. Boosts are only stored,
   * compared (`Float.equals` compares exactly these bits) and written
   * (`writeFloat` writes exactly these bits); the model does no arithmetic on them.
   */
  datatype Float32 = Float32(bits: bv32)

  /** AbstractQueryBuilder.DEFAULT_BOOST, 1.0f. */
  const DefaultBoost: Float32 := Float32(0x3F80_0000)

  /**
   * The query value: an opaque object compared by equality. The textual
   * configuration yields a string, a number (kept as its text) or a boolean.
   */
  datatype Value = Str(s: string) | Num(text: string) | Bool(b: bool)
}
