/** The exceptions the plugin raises, one constructor per distinct throw site. */
module Errors {

  import opened Wrappers

  datatype Error =
    /** IllegalArgumentException from the builder constructor: null field name. */
    | MissingFieldName
    /** IllegalArgumentException from the builder constructor: null query value. */
    | MissingValue
    /** IllegalArgumentException from the checked zero-terms setter. */
    | NullZeroTermsQuery
    /** ElasticsearchException from ZeroTermsQuery.readFromStream. */
    | UnknownSerializedType(ordinal: int)
    /** The stream holds an item of another kind, or ends, where a read expects one. */
    | UnexpectedItem
    /** ParsingException: a second field name under the query object. */
    | MultipleFields(processed: string, current: Option<string>)
    /** ParsingException: a key the field object does not support. */
    | UnsupportedKey(key: string)
    /** ParsingException: a token that is neither a key nor a value inside the field object. */
    | UnknownToken(after: Option<string>)
    /** ParsingException: a zero_terms_query literal other than none/all. */
    | UnsupportedZeroTerms(literal: string)
    /** ParsingException: no query text was given. */
    | NoText
    /** A value is read where the current key is still null (ParseField.match rejects null). */
    | NullKey
    /** Text or a float is requested from a token that does not carry one. */
    | NotAValue
    /** NumberFormatException: a boost's text does not read as a float. */
    | NotANumber(text: string)
    /** The token sequence ends before the closing END_OBJECT. */
    | UnexpectedEnd
    /** QueryShardException: the explicitly named analyzer is not registered. */
    | AnalyzerNotFound(analyzer: string)
    /** NullPointerException: the query text is analysed with an analyzer that was never set. */
    | NullAnalyzer
}
