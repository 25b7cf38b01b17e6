# synonym_match: a verified model

`synonym_match` is an Elasticsearch query plugin. It analyses the query text of
one field. It cuts the analysed tokens into *position groups*: the tokens at one
position, which are a word and the synonyms the analyzer injected for it. It then
compiles the groups into a Lucene query tree:

- one group of one term gives a term query;
- one group of several terms gives a synonym query, in which terms typed
  `"SYNONYM"` carry a separate, small boost (`synonym_type_boost`);
- several groups give a boolean query with one SHOULD clause per group.

An analysis that yields no terms falls back to the zero-terms policy (`NONE`,
`ALL` or `NULL`). The query builder holds the parameters. It validates them,
compares them, writes them to and reads them from the binary transport stream,
parses them from the JSON query body and writes them back, and checks that an
explicitly named analyzer exists on the shard.

This project models that core in Dafny and proves properties of the model.

| file | module | what it models |
|---|---|---|
| `wrappers.dfy` | `Wrappers` | `Option` (Java `null`) and `Result` (a thrown exception) |
| `errors.dfy` | `Errors` | one error constructor per distinct throw site |
| `values.dfy` | `Values` | term bytes, `float` as its `floatToIntBits` pattern, the opaque query value |
| `term_type.dfy` | `TermTypes` | `TermType` and the `BytesRef` buffer it deep-copies |
| `queries.dfy` | `Queries` | the query tree, in place of the Lucene/Elasticsearch query classes |
| `wire.dfy` | `Wire` | the transport stream as a sequence of typed items |
| `zero_terms.dfy` | `ZeroTerms` | the `ZeroTermsQuery` enum, its wire ordinal and its fallback query |
| `grouping.dfy` | `Grouping` | the position grouper of `createFieldQuery` |
| `synonym_match_query.dfy` | `SynonymMatchQuery` | the query compiler, `parse` / `parseInternal` |
| `synonym_match_builder.dfy` | `SynonymMatchBuilder` | the builder: validation, `doEquals`, stream form, `doToQuery` |
| `xcontent.dfy` | `XContent` | `fromXContent` over JSON tokens, and `doXContent` |

The grouping is stated three ways:

- `IsPositionGrouping` says declaratively what a correct grouping is;
- `Group` is a reference grouping built token by token;
- `Fold` / `PositionTerms` is the source's own accumulator loop.

`CollectPositionTerms` runs that loop imperatively over a term buffer that is
overwritten at every advance. The lemmas prove that all of these agree and that
the grouping is unique.

Boosts are `float`s that the plugin only stores, compares (`Float.equals`
compares bit patterns) and writes. They are therefore modelled as 32-bit
patterns: `DEFAULT_SYNONYM_BOOST` (0.00001f) is `0x3727C5AC` and the default
boost 1.0f is `0x3F800000`. Converting a float to JSON text and back is a
parameter of the textual functions.

`DoToQuery` follows the source's control flow, including its failure on a mapped
field without an explicit analyzer (see Findings). Failures thrown inside Lucene
are not modelled; they are listed under "Left out". Its contract states that every
query it does return is the one the corrected `Parse` returns.

A builder with the `NULL` zero-terms policy is written by `doXContent` as
`"zero_terms_query": "NULL"`. `fromXContent` rejects that literal, so the
textual round trip holds for `NONE` and `ALL` only (`XContentRoundTrip`,
`NullPolicyDoesNotRoundTrip`). The binary round trip holds for all three
policies (`WireRoundTrip`).

Source paths below are relative to the repository root.

## Model

| member | source | states |
|---|---|---|
| `Grouping.Group` | src/main/java/org/elasticsearch/mysynonym/SynonymMatchQuery.java:158-174 | Yields a correct position grouping: non-empty groups which, laid end to end, give back the tokens in order. Every later group starts at a token with nonzero increment, every other member has increment 0, and the first token opens a group whatever its increment. |
| `Grouping.ExtendPreservesGrouping` | src/main/java/org/elasticsearch/mysynonym/SynonymMatchQuery.java:161-170 | Adding a token keeps a correct grouping correct. An increment-0 token joins the last group; any other token opens a new group. |
| `Grouping.PeelLast` | src/main/java/org/elasticsearch/mysynonym/SynonymMatchQuery.java:161-170 | A correct grouping without its last token is a correct grouping of the tokens before it, and adding that token back by one loop step restores it. |
| `Grouping.GroupingIsUnique` | src/main/java/org/elasticsearch/mysynonym/SynonymMatchQuery.java:158-174 | Any grouping that meets the boundary rules is the reference grouping. |
| `Grouping.GroupingCharacterised` | src/main/java/org/elasticsearch/mysynonym/SynonymMatchQuery.java:158-174 | A grouping meets the boundary rules if and only if it is the reference grouping. |
| `Grouping.EmptyGrouping` | src/main/java/org/elasticsearch/mysynonym/SynonymMatchQuery.java:172-179 | A grouping of non-empty groups has no groups exactly when there are no tokens. |
| `Grouping.GroupCount` | src/main/java/org/elasticsearch/mysynonym/SynonymMatchQuery.java:161-167 | The number of groups is one for the first token plus one per later token with nonzero increment, and zero for an empty stream. |
| `Grouping.SinglePosition` | src/main/java/org/elasticsearch/mysynonym/SynonymMatchQuery.java:189-191 | A non-empty stream forms one group if and only if no later token has a nonzero increment. That group is then the whole stream. |
| `Grouping.AcceptExtends` | src/main/java/org/elasticsearch/mysynonym/SynonymMatchQuery.java:161-170 | One iteration of the source loop changes the collected groups exactly as adding the token changes the reference grouping. The iteration seals the open group on a nonzero increment, opens a group if none is open, and appends. |
| `Grouping.Accept` | src/main/java/org/elasticsearch/mysynonym/SynonymMatchQuery.java:161-170 | One loop iteration never changes a group already sealed. It seals one more group exactly when the increment is nonzero and a group is open. |
| `Grouping.Seal` | src/main/java/org/elasticsearch/mysynonym/SynonymMatchQuery.java:172-174 | After the loop, the sealed groups come first, unchanged and in order, and the open group, if any, follows as the last group, so no group is dropped. |
| `Grouping.Fold` | src/main/java/org/elasticsearch/mysynonym/SynonymMatchQuery.java:158-171 | After the loop, the open group is null exactly when no token was read, and nothing is sealed then. |
| `Grouping.PositionTerms` | src/main/java/org/elasticsearch/mysynonym/SynonymMatchQuery.java:158-174 | The loop collects no group exactly when the stream has no token. |
| `Grouping.PositionTermsAreSnapshotGroups` | src/main/java/org/elasticsearch/mysynonym/SynonymMatchQuery.java:158-174 | The source loop collects exactly the reference groups. Each token becomes a TermType of field, type label and bytes. |
| `Grouping.ConcatSnapshots` | src/main/java/org/elasticsearch/mysynonym/SynonymMatchQuery.java:170-173 | Snapshotting the groups and laying them end to end gives the snapshots of the tokens in stream order. |
| `Grouping.PositionTermsPartitionStream` | src/main/java/org/elasticsearch/mysynonym/SynonymMatchQuery.java:158-174 | Every collected group is non-empty. Laid end to end, the groups are the input tokens in order. There are no groups exactly when the stream is empty. |
| `Grouping.CollectPositionTerms` | src/main/java/org/elasticsearch/mysynonym/SynonymMatchQuery.java:141-174 | The imperative loop reads every token through one term buffer that each advance overwrites, and collects `TermType` objects. Once the stream ends, each collected group shows, object by object, the same field, type and bytes as the corresponding group of the functional loop. This holds because no collected object shares the buffer or its byte array. |
| `Grouping.Capture` | src/main/java/org/elasticsearch/mysynonym/SynonymMatchQuery.java:158-169 | After the buffer advances to a token, the new `TermType` shows that token's field, type and bytes. The object, its window and its byte array are all newly allocated. |
| `Grouping.Step` | src/main/java/org/elasticsearch/mysynonym/SynonymMatchQuery.java:158-169 | One loop iteration preserves the loop invariant: the sealed groups and the open group show the functional loop's state after one more token, and none of them shares the buffer. |
| `SynonymMatchQuery.NewTermQuery` | src/main/java/org/elasticsearch/mysynonym/SynonymMatchQuery.java:204-206 | A term query on the TermType's field and bytes. |
| `SynonymMatchQuery.AddTerms` | src/main/java/org/elasticsearch/mysynonym/SynonymMatchQuery.java:210-216 | Adds one synonym term per TermType, in order, after those already added. Only a type equal to "SYNONYM" gets the synonym boost; any other type is added without a boost. |
| `SynonymMatchQuery.NewSynonymQuery` | src/main/java/org/elasticsearch/mysynonym/SynonymMatchQuery.java:208-217 | A synonym query on the first TermType's field with one entry per TermType, in group order. Each entry holds that TermType's term, and it carries a boost exactly when its type is "SYNONYM"; the boost is synonym_type_boost. |
| `SynonymMatchQuery.PositionQuery` | src/main/java/org/elasticsearch/mysynonym/SynonymMatchQuery.java:189-198 | A group of one TermType compiles to a term query, and only such a group does. A larger group compiles to a synonym query. |
| `SynonymMatchQuery.AddClauses` | src/main/java/org/elasticsearch/mysynonym/SynonymMatchQuery.java:222-228 | Adds one SHOULD clause per group, in order. Clause k is the query of group k on its own. |
| `SynonymMatchQuery.NewBooleanQuery` | src/main/java/org/elasticsearch/mysynonym/SynonymMatchQuery.java:220-230 | A boolean query with exactly one clause per group, in group order. Each clause is SHOULD and holds the query of its group on its own. |
| `SynonymMatchQuery.AnalyzeList` | src/main/java/org/elasticsearch/mysynonym/SynonymMatchQuery.java:188-202 | One group compiles on its own. n > 1 groups give a boolean query of n SHOULD clauses, where clause k is what group k compiles to. |
| `SynonymMatchQuery.CreateFieldQuery` | src/main/java/org/elasticsearch/mysynonym/SynonymMatchQuery.java:147-182 | Returns null exactly when the stream has no term attribute or yields no token. |
| `SynonymMatchQuery.SingleTokenIsTermQuery` | src/main/java/org/elasticsearch/mysynonym/SynonymMatchQuery.java:189-194 | A one-token stream compiles to a term query on the field and that token's bytes. |
| `SynonymMatchQuery.SinglePositionIsSynonymQuery` | src/main/java/org/elasticsearch/mysynonym/SynonymMatchQuery.java:195-197 | Several tokens at one position compile to a synonym query on the field with one term per token, in stream order. Exactly the "SYNONYM"-typed terms carry the synonym boost. |
| `SynonymMatchQuery.PositionCompilesAlone` | src/main/java/org/elasticsearch/mysynonym/SynonymMatchQuery.java:222-227 | The tokens of one well-formed position group, compiled alone, give that group's term or synonym query. |
| `SynonymMatchQuery.SeveralPositionsIsBooleanQuery` | src/main/java/org/elasticsearch/mysynonym/SynonymMatchQuery.java:199-201 | A stream that spans several positions compiles to a boolean query with one SHOULD clause per position (one plus the number of later nonzero increments). Clause k is what the tokens of position k compile to alone. |
| `SynonymMatchQuery.FastCarAutomobile` | src/main/java/org/elasticsearch/mysynonym/SynonymMatchQuery.java:158-230 | "fast car", with "automobile" injected at the position of "car", compiles to (term "fast") SHOULD (synonym "car", "automobile"), and only "automobile" carries the synonym boost. |
| `SynonymMatchQuery.ParseInternal` | src/main/java/org/elasticsearch/mysynonym/SynonymMatchQuery.java:123-133 | An analysis with no terms gives the zero-terms query. Any other analysis gives a term, synonym or boolean query. |
| `SynonymMatchQuery.ParseAsWritten` | src/main/java/org/elasticsearch/mysynonym/SynonymMatchQuery.java:111-121 | An unmapped field gives the unmapped-field query. A mapped field without an explicit analyzer fails with a null analyzer. With an explicit analyzer, the text is analysed with that analyzer. |
| `SynonymMatchQuery.GetAnalyzer` | src/main/java/org/elasticsearch/mysynonym/SynonymMatchQuery.java:233-239 | The explicit analyzer when one is set, otherwise the field's search analyzer. |
| `SynonymMatchQuery.ParseAsWrittenIgnoresSearchAnalyzer` | src/main/java/org/elasticsearch/mysynonym/SynonymMatchQuery.java:116-127 | With no explicit analyzer, the as-written parse fails on every mapped field, while the field's search analyzer would have served. |
| `SynonymMatchQuery.Parse` | src/main/java/org/elasticsearch/mysynonym/SynonymMatchQuery.java:111-121 | The corrected parse never fails. It agrees with the as-written parse wherever that succeeds, and it analyses with the analyzer getAnalyzer chose. |
| `SynonymMatchQuery.UnmappedFieldSkipsAnalysis` | src/main/java/org/elasticsearch/mysynonym/SynonymMatchQuery.java:112-115 | An unmapped field gives the unmapped-field query whatever the analysis would produce. |
| `ZeroTerms.Ordinal` | src/main/java/org/elasticsearch/mysynonym/SynonymMatchQuery.java:35-46 | The wire ordinals are NONE = 0, ALL = 1 and NULL = 2, each in both directions. |
| `ZeroTerms.FromOrdinal` | src/main/java/org/elasticsearch/mysynonym/SynonymMatchQuery.java:48-56 | Decoding succeeds exactly for ordinals 0 to 2 and then inverts Ordinal. Any other ordinal fails with "unknown serialized type" naming that ordinal. |
| `ZeroTerms.OrdinalRoundTrip` | src/main/java/org/elasticsearch/mysynonym/SynonymMatchQuery.java:48-61 | Decoding a constant's ordinal gives back the constant. |
| `ZeroTerms.WriteTo` | src/main/java/org/elasticsearch/mysynonym/SynonymMatchQuery.java:58-61 | Writes one variable-length int, which decodes to the constant written. |
| `ZeroTerms.ReadFromStream` | src/main/java/org/elasticsearch/mysynonym/SynonymMatchQuery.java:48-56 | A successful read consumed exactly what writeTo writes for the constant read. An unknown ordinal is rejected with that ordinal. |
| `ZeroTerms.StreamRoundTrip` | src/main/java/org/elasticsearch/mysynonym/SynonymMatchQuery.java:48-61 | readFromStream after writeTo returns the same constant and leaves the rest of the stream. |
| `ZeroTerms.ZeroTermsResult` | src/main/java/org/elasticsearch/mysynonym/SynonymMatchQuery.java:241-252 | NONE gives match-none, ALL gives match-all and NULL gives null, each in both directions. |
| `SynonymMatchBuilder.New` | src/main/java/org/elasticsearch/mysynonym/SynonymMatchBuilder.java:56-65 | A null field name is rejected first, then a null value. Otherwise both are stored unchanged (an empty name is accepted) and every other parameter takes its default. |
| `SynonymMatchBuilder.WithZeroTerms` | src/main/java/org/elasticsearch/mysynonym/SynonymMatchBuilder.java:105-111 | Fails exactly for null. Otherwise it sets the policy and nothing else changes. |
| `SynonymMatchBuilder.WithAnalyzer` | src/main/java/org/elasticsearch/mysynonym/SynonymMatchBuilder.java:125-128 | Sets the analyzer, null included; nothing else changes. |
| `SynonymMatchBuilder.WithSynonymBoost` | src/main/java/org/elasticsearch/mysynonym/SynonymMatchBuilder.java:135-138 | Sets the synonym boost; nothing else changes. |
| `SynonymMatchBuilder.DoEquals` | src/main/java/org/elasticsearch/mysynonym/SynonymMatchBuilder.java:180-187 | doEquals holds exactly when the builders differ at most in their base fields. |
| `SynonymMatchBuilder.DoEqualsIffSameExceptBase` | src/main/java/org/elasticsearch/mysynonym/SynonymMatchBuilder.java:180-187 | doEquals holds if and only if the two builders agree on field name, value, analyzer, policy and synonym boost, whatever their base fields. |
| `SynonymMatchBuilder.DoWriteTo` | src/main/java/org/elasticsearch/mysynonym/SynonymMatchBuilder.java:80-88 | Writes exactly five items, in this order: the field name as a string, the value as a generic value, the policy's ordinal as a variable-length int, the analyzer as an optional string, and the synonym boost as a float. |
| `SynonymMatchBuilder.ReadFrom` | src/main/java/org/elasticsearch/mysynonym/SynonymMatchBuilder.java:70-78 | A successful read consumed exactly what doWriteTo writes for the builder read, and keeps the base fields it was given. |
| `SynonymMatchBuilder.WireRoundTrip` | src/main/java/org/elasticsearch/mysynonym/SynonymMatchBuilder.java:70-88 | Reading back what doWriteTo wrote gives a builder equal under doEquals, for every analyzer (present or absent) and every policy, and leaves the rest of the stream. |
| `SynonymMatchBuilder.UnknownOrdinalRejected` | src/main/java/org/elasticsearch/mysynonym/SynonymMatchBuilder.java:72-74 | A stream whose policy ordinal is not 0, 1 or 2 is rejected with that ordinal. |
| `SynonymMatchBuilder.DoToQuery` | src/main/java/org/elasticsearch/mysynonym/SynonymMatchBuilder.java:161-178 | An explicit analyzer missing from the shard is an error naming it. Otherwise the result is the as-written parse. In the model, it succeeds exactly when the analyzer is set and registered, or is unset and the field is unmapped. Every query it returns is the corrected parse's. |
| `SynonymMatchBuilder.MissingAnalyzerPrecedesParsing` | src/main/java/org/elasticsearch/mysynonym/SynonymMatchBuilder.java:164-166 | With a missing analyzer the outcome is the same error whatever the field mappings and whatever the analysis would give. |
| `SynonymMatchBuilder.NoTermsFallBack` | src/main/java/org/elasticsearch/mysynonym/SynonymMatchBuilder.java:168-175 | With a registered analyzer and an analysis with no terms, the query is the zero-terms query: match-none, match-all or null, by policy. |
| `XContent.ParseZeroTerms` | src/main/java/org/elasticsearch/mysynonym/SynonymMatchBuilder.java:227-236 | "none" and "all" in any letter case select NONE and ALL. Any other literal is rejected with that literal, so no literal selects NULL. |
| `XContent.ApplyKey` | src/main/java/org/elasticsearch/mysynonym/SynonymMatchBuilder.java:218-242 | A value under a null key, or under a key other than the six supported, is rejected. Each of the six parameters is kept unless the key is that parameter's own. "query" sets the value to the token's object text. "synonym_analyzer" and "_name" set the token's text. "boost" and "synonym_type_boost" succeed exactly when the token reads as a float, store that float, and otherwise fail with the float reader's error. "zero_terms_query" succeeds exactly when the text names NONE or ALL, stores that policy, and otherwise fails naming the text. |
| `XContent.ParseFieldObject` | src/main/java/org/elasticsearch/mysynonym/SynonymMatchBuilder.java:215-247 | A successful read consumes at least one token, and the last token consumed is an END_OBJECT. It returns exactly the tokens after that END_OBJECT. Field name and outer key are left alone, and a non-NULL policy stays non-NULL. |
| `XContent.ParseQueryObject` | src/main/java/org/elasticsearch/mysynonym/SynonymMatchBuilder.java:209-253 | The query object never ends with the NULL policy when it started without it. |
| `XContent.Build` | src/main/java/org/elasticsearch/mysynonym/SynonymMatchBuilder.java:255-266 | No text is rejected, then no field name. Otherwise the builder carries exactly the parameters read. |
| `XContent.FromXContent` | src/main/java/org/elasticsearch/mysynonym/SynonymMatchBuilder.java:199-267 | A parsed builder never has the NULL policy. |
| `XContent.ParsePairs` | src/main/java/org/elasticsearch/mysynonym/SynonymMatchBuilder.java:215-247 | Reading a run of key/value pairs applies them in order; what follows is read from the resulting state. |
| `XContent.AbsentKeyKeepsValue` | src/main/java/org/elasticsearch/mysynonym/SynonymMatchBuilder.java:200-206 | A parameter whose key does not occur keeps its value. |
| `XContent.LongFormReadsPairs` | src/main/java/org/elasticsearch/mysynonym/SynonymMatchBuilder.java:212-257 | The long form `{field: {pairs}}` yields exactly the builder that its pairs, applied in order, describe. |
| `XContent.LongFormWithoutQueryRejected` | src/main/java/org/elasticsearch/mysynonym/SynonymMatchBuilder.java:255-257 | A long form without a query key is rejected for lacking text. |
| `XContent.LongFormDefaults` | src/main/java/org/elasticsearch/mysynonym/SynonymMatchBuilder.java:200-206 | An omitted key leaves its default: analyzer null, boost 1, synonym boost DEFAULT_SYNONYM_BOOST, policy NONE, no name. |
| `XContent.UnknownKeyRejected` | src/main/java/org/elasticsearch/mysynonym/SynonymMatchBuilder.java:239-241 | An unsupported key inside the field object is rejected with that key. |
| `XContent.NonValueRejected` | src/main/java/org/elasticsearch/mysynonym/SynonymMatchBuilder.java:243-245 | An object, an array or a JSON null where a value belongs is rejected as an unknown token after its key. |
| `XContent.KeyThenToken` | src/main/java/org/elasticsearch/mysynonym/SynonymMatchBuilder.java:216-218 | A key followed by a token is that token read under that key. |
| `XContent.InsideFieldObject` | src/main/java/org/elasticsearch/mysynonym/SynonymMatchBuilder.java:212-217 | The field object's pairs are applied first, then whatever follows them is read. |
| `XContent.OpenFieldObject` | src/main/java/org/elasticsearch/mysynonym/SynonymMatchBuilder.java:209-216 | A field name followed by START_OBJECT makes that name the query's field and passes the rest to the inner loop. The outer loop resumes on whatever the inner loop leaves, and an inner failure is the query's failure. |
| `XContent.ClosingBraces` | src/main/java/org/elasticsearch/mysynonym/SynonymMatchBuilder.java:208-216 | The first END_OBJECT closes the field object and leaves the state unchanged. The second END_OBJECT closes the query object, and nothing after it is read. |
| `XContent.SecondFieldRejected` | src/main/java/org/elasticsearch/mysynonym/SynonymMatchBuilder.java:209-252 | A second field after a complete long-form field object, in long or short form, is rejected, naming both fields. |
| `XContent.ShortFormThenSecondFieldRejected` | src/main/java/org/elasticsearch/mysynonym/SynonymMatchBuilder.java:209-252 | A second field after a short-form first field, whatever its value and in either form, is rejected, naming both fields. |
| `XContent.ShortForm` | src/main/java/org/elasticsearch/mysynonym/SynonymMatchBuilder.java:248-252 | `{field: value}` sets the field name and text and leaves every other parameter at its default. |
| `XContent.ShortFormNullRejected` | src/main/java/org/elasticsearch/mysynonym/SynonymMatchBuilder.java:248-257 | `{field: null}` leaves no text and is rejected. |
| `XContent.ValueToken` | src/main/java/org/elasticsearch/mysynonym/SynonymMatchBuilder.java:150 | The query value is written as a value token that reads back as the same value. |
| `XContent.ZeroTermsNameRoundTrip` | src/main/java/org/elasticsearch/mysynonym/SynonymMatchBuilder.java:155 | The written policy name reads back as NONE or ALL. "NULL" is rejected. |
| `XContent.DoXContent` | src/main/java/org/elasticsearch/mysynonym/SynonymMatchBuilder.java:146-159 | The output opens with the query's name and an object. |
| `XContent.WrittenPairsPlain` | src/main/java/org/elasticsearch/mysynonym/SynonymMatchBuilder.java:150-156 | Every value doXContent writes inside the field object is a plain value token, never structure. |
| `XContent.XContentRoundTrip` | src/main/java/org/elasticsearch/mysynonym/SynonymMatchBuilder.java:146-159 | Reading back what doXContent wrote gives the same builder, base fields included, for policies NONE and ALL. This assumes the float text reads back as the float written. |
| `XContent.ReadWrittenPairs` | src/main/java/org/elasticsearch/mysynonym/SynonymMatchBuilder.java:218-238 | The pairs doXContent writes are all values, and reading them sets every parameter to the builder's. |
| `XContent.MidPairs` | src/main/java/org/elasticsearch/mysynonym/SynonymMatchBuilder.java:223-236 | The synonym boost, policy and boost pairs set exactly those three parameters. |
| `XContent.NullPolicyDoesNotRoundTrip` | src/main/java/org/elasticsearch/mysynonym/SynonymMatchBuilder.java:227-236 | A builder with the NULL policy is written in a form that fromXContent rejects, naming "NULL". |
| `TermTypes.DeepCopyOf` | src/main/java/org/elasticsearch/mysynonym/TermType.java:18 | The copy shows the same bytes as the source, through a newly allocated object over a newly allocated array. |
| `TermTypes.CopySurvivesOverwrite` | src/main/java/org/elasticsearch/mysynonym/TermType.java:15-19 | A TermType built from a buffer keeps the bytes it saw after the buffer is overwritten. |
| `TermTypes.SetBytesShares` | src/main/java/org/elasticsearch/mysynonym/TermType.java:41-43 | After setBytes, the TermType shares the caller's buffer, so an overwrite shows through. |

## Left out

- Lucene analysis (`Analyzer`, `TokenStream`, `CachingTokenFilter`, the attribute classes) is foreign code. The analysed stream is an input: a sequence of (position increment, type label, bytes), or "no term attribute". The position length the source reads is never used and is not modelled.
- The Lucene and Elasticsearch query classes, `newUnmappedFieldQuery` and `Queries.*` are datatype constructors. Scoring and execution are not modelled.
- `NewSynonymQuery`: does not model the checks of Lucene's `SynonymQuery.Builder.addTerm`, which rejects a boost outside (0, 1], nor the sorting of terms in `build()`. The model keeps the terms in the order they were added.
- `SynonymMatchBuilder.DoToQuery`: does not model three failures thrown inside Lucene; its "succeeds exactly when" holds in the model only.
  - `SynonymQuery.Builder.addTerm` (SynonymMatchQuery.java:212) throws `IllegalArgumentException` for a synonym boost outside (0, 1]. This happens when a position holds two or more tokens and one is typed "SYNONYM". The rejected boosts include 0, the value the comment at SynonymMatchBuilder.java:44 calls ideal, and any negative or NaN pattern `WithSynonymBoost` accepts.
  - The cast at SynonymMatchQuery.java:168 throws `ClassCastException` for a term attribute that is not a `PackedTokenAttributeImpl`.
  - `BooleanQuery.Builder` throws `TooManyClauses` past Lucene's clause limit.
- `NewBooleanQuery`: does not model the limit on the number of boolean clauses, which is enforced by Lucene.
- Analyzers are names. `setAnalyzer(String)` has its own "No analyzer found" check; after `doToQuery`'s check it cannot fail, so it is not modelled. `setAnalyzer(Analyzer)` is never called.
- `setOccur` and the `occur` field are left out: every clause the compiler builds is SHOULD regardless.
- The `default` branch of `zeroTermsQuery()` cannot be reached with three constants.
- `setZeroTermsQuery` (SynonymMatchBuilder.java:49-51) is the builder's unchecked setter and accepts null. The model's builder cannot hold a null policy, so this setter is not modelled. A builder given null through it would throw `NullPointerException` in `doWriteTo` (line 84), in `doXContent` (line 155), and in the `switch` of `zeroTermsQuery()` (SynonymMatchQuery.java:242). The last happens only when analysis yields no query, because `parse` falls back to `zeroTermsQuery()` only then (SynonymMatchQuery.java:132). None of these failures is modelled.
- `doHashCode` and `getWriteableName` are left out, as are the plain getters `fieldName()`, `value()`, `zeroTermsQuery()`, `analyzer()` and `synonym_type_boost()`.
- `AbstractQueryBuilder` behaviour is not shown, so it is not modelled:
  - the boost and query name of the stream envelope, which `ReadFrom` takes as a parameter;
  - `toXContent`'s outer object;
  - the registry's consumption of the query name and brace before `fromXContent`.
- The generic value is opaque: a string, a number kept as its text, or a boolean, compared by equality. Its byte encoding is not modelled, and neither is any byte encoding of the stream.
- Floats are bit patterns with no arithmetic. Float-to-text and text-to-float conversion are parameters (`floatText`, `parseFloat`).
- `XContentRoundTrip`: holds only under the stated assumption that `parseFloat` reads `floatText`'s output back as the same float.
- JSON is a sequence of lexer tokens. Token locations, message texts and deprecated field-name spellings are not modelled. An input that ends before the closing `END_OBJECT` is an error (`UnexpectedEnd`).
- `XContent.ParseZeroTerms`: folds ASCII letters only. For the literals "none" and "all" this agrees with `String.equalsIgnoreCase`, because no other character folds to their letters.
- The `IOException` wrapping and `try`-with-resources closing are resource plumbing.
- The `TermType` getters carry no contract; the ghost `View` states what an object shows. The setters' contracts use `old()`. The top-level methods `CopySurvivesOverwrite` and `SetBytesShares` state the copy-versus-share behaviour instead.
- `SynonymMatchQuery.CreateFieldQuery`: does not model a term attribute whose implementation is not `PackedTokenAttributeImpl`. For such a stream the cast at SynonymMatchQuery.java:168 throws `ClassCastException` as soon as one token is read. With no token the result is still null. `Analysis` assumes Lucene's default packed attribute, which every standard analysis chain uses.

## Findings

| source | as written | input that shows it | evidently intended | confidence | as-written member | corrected member |
|---|---|---|---|---|---|---|
| src/main/java/org/elasticsearch/mysynonym/SynonymMatchQuery.java:116-127 | `parse` computes `getAnalyzer(fieldType)` into a local variable that is never used. `parseInternal` then analyses with the field `this.analyzer`, which `doToQuery` sets only when an analyzer was named explicitly. | Any query on a mapped field without `synonym_analyzer`: `analyzer.tokenStream(..)` dereferences null. | Analyse with the analyzer `getAnalyzer` chose: the explicit one, else the field's search analyzer. | not executed; high | `SynonymMatchQuery.ParseAsWritten` | `SynonymMatchQuery.Parse` |
