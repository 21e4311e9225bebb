# Verification of the import pipeline

A Dafny model of agentlen's import pipeline, and proofs about it. A mapping
document is a small program: a path notation and thirteen operators. A static
checker accepts it, an interpreter runs it on each record of a file, a
normaliser assembles the linked sessions and calls, and an import run commits
them in batches to tables keyed by natural keys. Around that pipeline the
project models the preview, the job queue and its worker, the mapping history
and the guard on import creation, and four smaller cores: the sanitizer, the
content-addressed file store, the dashboard's aggregates and the paging loop.

Code that loops or updates state in the source is a method or a class here,
proved against a function; the laws are lemmas about those functions. The
modules named `Meanings` and the like say what those functions compute without
naming them: a wrong table, column or order in one would fail there.

| file | what it holds |
|---|---|
| `Values`, `JsonPath`, `PathPrinter` | values, the path parser and evaluator, the profiler's path printer |
| `PathLaws`, `PathIssues` | what paths mean, which texts are refused and why, which documents do not fit |
| `Mappings`, `Engine`, `EngineLaws`, `OperatorLaws` | mapping documents, the interpreter, the type gate, laws of the operators |
| `OperatorMeanings`, `OperatorFaults` | what each operator computes, and what it does with odd parameters |
| `Validator`, `DocumentLaws`, `ProblemLaws`, `ValidatorLaws`, `HazardLaws` | the static checker, what it accepts and lists, and exactly what that means for the interpreter |
| `Normalizer`, `NormalizerLaws`, `Accounting`, `RowFates`, `RowLedger` | entity assembly, that nothing escapes, and the fate of every row |
| `EntityMeanings`, `RecordMeanings`, `IssueMeanings` | what each entity and each issue says of the row it comes from |
| `References`, `ResolveReferences`, `Store` | referential tables and their cache, fact tables, inserts, transactions |
| `Importing`, `Reporting`, `Rejections`, `RunImport`, `ImportLaws` | the line-by-line fold, the batched run that refines it, resume, replay and re-import |
| `Preview`, `PreviewLaws` | the dry run, and its agreement with the import |
| `Repeats`, `RepeatWitness` | when every call of a file is stored, and an input on which one is not |
| `JobQueue`, `Worker` | the claim protocol under interleaving workers, the worker's loop |
| `Catalogue`, `CatalogueLaws`, `CatalogueMeanings` | mapping versions and the import guard, over any sequence of steps |
| `Sanitizer`, `SanitizerLaws`, `FileStore`, `Aggregates`, `AggregateLaws`, `AggregateMeanings`, `Pages` | the smaller cores |

Exceptions are values, so that "caught" and "escapes" are visible. Library
calls (`str`, `int`, `float`, date parsing, pattern matching, hashing, the
order in which an object is walked) are parameters of the model, in the
datatype `Runtime`; one that may raise has an outcome for each exception its
caller tells apart, and one for those it does not catch. What is proved holds
for any of them. A random identifier is replaced by a tag that says where its
entity comes from, and a database id of a fact by its natural key, which the
unique constraints make equivalent.

Where the code and its documentation disagree, the model follows the code:

- `validate` documents that it never raises. It raises `TypeError` on an
  operator name or parameter that is a list or an object, because it is looked
  up in a set; and it lets through what its syntax probes raise beside the one
  exception they catch, as on a date format that repeats a directive
  (`re.error`) or a pattern with an oversized repetition count
  (`OverflowError`): `ValidatorLaws.ValidateRaises` says exactly when.
- An explicit null parameter passes the validator, and some of them make the
  engine fail: `ValidatorLaws.HazardExact` says exactly which.
- The printer's pattern ends with `$`, which also matches before one final
  newline, so a name made of an identifier and a newline is printed unquoted
  and read back without success: `PathPrinter.RoundTrip` is an equivalence.
- `on_error: null` does not cover a number out of range:
  `OperatorLaws.CastToNull`.
- The position that stands in for a missing `sequence_index` is called stable,
  but it is counted afresh in each record, so two records of one session can
  give one key to two calls, and the later call is not stored:
  `Repeats.PositionsRestart` says exactly when.
- The check for a taken mapping name reads the newest thousand rows only;
  beyond them the table's constraint refuses the row: `CatalogueLaws.NameGuard`.

## Model

| member | source | states |
|---|---|---|
| `JsonPath.ReadQuoted` | src/agentlen/domain/services/json_path.py:143-159 | Reads a quoted name with its two escapes; refuses an unclosed one and an unknown escape at the character where it happens. |
| `JsonPath.ParsePath` | src/agentlen/domain/services/json_path.py:54-74 | The parsing loop accepts exactly the texts whose segments, read from the left, use them up, and gives those segments; the error names the character. |
| `JsonPath.Resolve` | src/agentlen/domain/services/json_path.py:98-105 | Following keys through objects gives the value they lead to, or Null. |
| `JsonPath.StepRows` | src/agentlen/domain/services/json_path.py:108-129 | One step of the row walk keeps the rows in order and the first reason why a row was left out. |
| `JsonPath.ResolveRows` | src/agentlen/domain/services/json_path.py:108-129 | The rows a path reaches, in document order, and every mismatch met on the way; a key that leads to null gives no row, while `[]` keeps the nulls of its list. |
| `JsonPath.RowsCompose` | src/agentlen/domain/services/json_path.py:108-129 | Walking a path is walking its first part and then the rest from each row reached. |
| `JsonPath.RowsAreResolved` | src/agentlen/domain/services/json_path.py:98-129 | On keys alone, the row walk and the key walk agree, nulls apart. |
| `JsonPath.PathComposition` | src/agentlen/domain/services/json_path.py:77-129 | Composition law of `[]`: the rows reached by p followed by keys q are, in order, the non-null results of resolving q on the rows reached by p. |
| `JsonPath.IterateThenSource` | src/agentlen/domain/services/transformation_engine.py:79-120 | An entity iterated on a path, with a source that repeats it, reads what the full path means; `PathLaws.RelativeSource` says what one that does not repeat it reads. |
| `PathLaws.PathLanguage` | src/agentlen/domain/services/json_path.py:54-74 | The language of paths: a text parses to a path if and only if it is `$` and then the segments of the path, each a bare identifier, a quoted name in its one escaped form, or `[]`. |
| `PathLaws.SourceExact` | src/agentlen/domain/services/json_path.py:83-95 | A source is refused if and only if it does not parse, or has a `[]` outside of a repeated prefix. |
| `PathLaws.RelativeSource` | src/agentlen/domain/services/json_path.py:83-105 | A source that does not repeat the prefix is read on its row as the whole path it is: what the row walk reaches there, or Null. |
| `PathLaws.RepeatedSource` | src/agentlen/domain/services/json_path.py:83-105 | A source that repeats the prefix is read on its row as what comes after it. |
| `PathLaws.KeyMeans` | src/agentlen/domain/services/json_path.py:98-105 | One key leads to the value under it, and to Null from anything else; the rest of the path goes on from there. |
| `PathLaws.StepMeans` | src/agentlen/domain/services/json_path.py:108-129 | `[]` reaches the items of a list, in order and nulls included, a key its one value unless it is null, and nothing else is reached. |
| `PathLaws.RowsConcat` | src/agentlen/domain/services/json_path.py:108-129 | The rows of several values are those of each, in their order. |
| `PathIssues.IterateMeans` | src/agentlen/domain/services/json_path.py:77-80 | An `iterate` means its path, or the path written with `[]` after it when it does not end in one. |
| `PathIssues.NotationErrors` | src/agentlen/domain/services/json_path.py:132-140 | After any readable part of a path, each notation the language lacks gives its own error: recursion, filter, wildcard, single quotes, index or slice, a trailing dot. |
| `PathIssues.UnexpectedErrors` | src/agentlen/domain/services/json_path.py:132-140 | Any other character that cannot stand where it does is refused as such, with its position. |
| `PathIssues.QuoteErrors` | src/agentlen/domain/services/json_path.py:143-159 | A quoted name that is not closed, is closed by something else, or holds another escape is refused for just that. |
| `PathIssues.MismatchesMean` | src/agentlen/domain/services/json_path.py:108-129 | A walk reports a mismatch if and only if some value it reaches is not of the kind that the next segment needs; it names both kinds. |
| `PathIssues.MismatchesInOrder` | src/agentlen/domain/services/json_path.py:108-129 | Each mismatch is reported once, those of a part of the path before those of the rest. |
| `PathPrinter.SegmentExact` | src/agentlen/infrastructure/files/polars_profiler.py:60-73 | A name is printed bare exactly when it is an identifier, with or without one newline after it; whatever is printed after it, its segment is read back as that name exactly when there is no such newline. |
| `PathPrinter.RoundTrip` | src/agentlen/infrastructure/files/polars_profiler.py:60-104 | Parsing a printed path gives its segments back if and only if no name of it is an identifier followed by one newline. |
| `PathPrinter.PrintInjective` | src/agentlen/infrastructure/files/polars_profiler.py:60-104 | Two paths that print alike are the same path, whatever their names. |
| `PathPrinter.ParsePrintParse` | src/agentlen/domain/services/json_path.py:54-74 | Printing what was parsed and parsing it again gives the same segments, under the same exact condition. |
| `PathPrinter.NewlineWitness` | src/agentlen/infrastructure/files/polars_profiler.py:60-70 | The one failing family, on an input: a path the parser accepts, whose printed form it refuses. |
| `PathPrinter.PrintedSourceAccepted` | src/agentlen/domain/services/json_path.py:83-95 | A printed path is accepted as a source once `iterate` is its prefix through the last `[]`. |
| `PathPrinter.FlattenSeries` | src/agentlen/infrastructure/files/polars_profiler.py:92-104 | The recursion lists exactly the leaves under a column, each with its printed path. |
| `PathPrinter.LeafColumns` | src/agentlen/infrastructure/files/polars_profiler.py:76-89 | The same for a whole record. |
| `PathIssues.EscapeMeans` | src/agentlen/infrastructure/files/polars_profiler.py:60-73 | A printed name is escaped character by character: a backslash and a double quote get a backslash, the rest stays. |
| `PathPrinter.LeavesExact` | src/agentlen/infrastructure/files/polars_profiler.py:76-104 | The paths listed for a column are exactly those that lead from it to a leaf, through the items of lists and the named members of structs. |
| `Engine.ApplyField` | src/agentlen/domain/services/transformation_engine.py:236-279 | The operators run in declared order on the looked-up value; the first failure gives Null and one issue, rejected when the field is required. |
| `EntityMeanings.FieldMeans` | src/agentlen/domain/services/transformation_engine.py:236-279 | What a field gives: its issue points at the source when the path is refused and at the field when an operator fails, and is rejected if and only if the field is required. |
| `EntityMeanings.RowMeans` | src/agentlen/domain/services/transformation_engine.py:122-176 | A row has a field if and only if some rule gives it, and holds what the last such rule gives: its source read, its operators applied, and the result narrowed to the type of the field. |
| `IssueMeanings.RowReports` | src/agentlen/domain/services/transformation_engine.py:122-176 | The issues of a row are those of its rules in order: for each, the refused source, the failed operator, the missing required value or the type mismatch, each with its severity and place, or none. |
| `IssueMeanings.SchemaExact` | src/agentlen/domain/model/target_schema.py:12-43 | The schema has exactly these fields, target by target and type by type. |
| `IssueMeanings.TypesMean` | src/agentlen/domain/services/transformation_engine.py:178-188 | A field takes the values of its own type and no other; a boolean is no whole number. |
| `IssueMeanings.CodesMean` | src/agentlen/domain/services/transformation_engine.py:122-279 | Each stable code with all the reasons that have it. |
| `EngineLaws.CoercionExact` | src/agentlen/domain/services/transformation_engine.py:190-226 | Exactly the typed values pass unchanged; a number on a text field becomes its text, a finite float on a whole field the nearest integer, ties to the even one; exactly the rest is refused; narrowing twice changes nothing. |
| `Engine.ExtractRows` | src/agentlen/domain/services/transformation_engine.py:281-304 | The rows of an entity: the record itself, or what `iterate` reaches, with an issue when it is not a list. |
| `IssueMeanings.ExtractionMeans` | src/agentlen/domain/services/transformation_engine.py:281-304 | An entity without `iterate` reads the record; an unreadable `iterate` reaches nothing and is rejected; a readable one reaches its rows and is rejected too if and only if something on the way does not fit, with exactly the mismatches. |
| `Engine.ApplyRows` | src/agentlen/domain/services/transformation_engine.py:108-176 | Each row is read on its own, in order. |
| `Engine.Apply` | src/agentlen/domain/services/transformation_engine.py:58-106 | The results and issues of a record are those of its entities in mapping order. |
| `IssueMeanings.IssuesInOrder` | src/agentlen/domain/services/transformation_engine.py:58-106 | The issues of a record are those of its entities in turn, and of an entity those of its walk and then of its rows in turn. |
| `EngineLaws.TypeGate` | src/agentlen/domain/services/transformation_engine.py:122-226 | An emitted row holds every required field, only mapped fields, and only non-null values of the declared type. |
| `EngineLaws.DroppedIffRejected` | src/agentlen/domain/services/transformation_engine.py:122-176 | A row is dropped if and only if one of its own issues is rejected. |
| `EngineLaws.RowPositions` | src/agentlen/domain/services/transformation_engine.py:88-100 | The results are exactly the surviving rows, each at its source position before any rejection, in increasing order. |
| `EngineLaws.RowIndependence` | src/agentlen/domain/services/transformation_engine.py:108-176 | Changing one row never changes the result of another. |
| `EngineLaws.UnknownStaysUnknown` | src/agentlen/domain/services/transformation_engine.py:306-481 | A transforming operator gives Null for Null, or fails for a missing parameter only. |
| `EngineLaws.NothingFromNothing` | src/agentlen/domain/services/transformation_engine.py:369-399 | From sources that are all unknown, no text, value or hash is made. |
| `EngineLaws.WholeUnits` | src/agentlen/domain/services/transformation_engine.py:458-481 | A conversion to a whole unit gives the integer nearest to the value times its factor; `OperatorMeanings.UnitsMean` says what the factors are. |
| `OperatorMeanings.UnitsMean` | src/agentlen/domain/services/transformation_engine.py:458-481 | A conversion keeps the quantity: for the six pairs, seconds are 60 to the minute, a thousand milliseconds and so on, bytes 1024 to the kilobyte; a whole unit takes the nearest integer. |
| `OperatorMeanings.SecondsAndMinutes` | src/agentlen/domain/services/transformation_engine.py:458-481 | In numbers: n seconds are 1000 n milliseconds, and n minutes 60000 n. |
| `OperatorMeanings.UnitsRefuse` | src/agentlen/domain/services/transformation_engine.py:458-481 | Any other pair of units is refused, and so is what is no finite number; Null stays Null. |
| `OperatorMeanings.CastMeans` | src/agentlen/domain/services/transformation_engine.py:421-455 | A cast, target by target: the text, the integer, the float, or the boolean that the words true, 1, yes, false, 0, no say; an empty value is unknown; anything else is refused as `on_error` says. |
| `OperatorMeanings.TextsMean` | src/agentlen/domain/services/transformation_engine.py:306-339 | `trim`, `lower` and `upper` change the text of the value as the library does, `json_passthrough` nothing, and `default` replaces exactly Null. |
| `OperatorMeanings.UnknownNames` | src/agentlen/domain/services/transformation_engine.py:306-339 | An operator that is none of the thirteen fails as unknown, and a parameter that is read and not there by its name. |
| `OperatorMeanings.TableMeans` | src/agentlen/domain/services/transformation_engine.py:484-500 | `map_values` gives the entry of the text of the value, `null` for Null; without an entry it gives Null, the constant, a failure or the value itself, by its mode. |
| `OperatorMeanings.DatesMean` | src/agentlen/domain/services/transformation_engine.py:342-367 | A date is what the library reads with the format; an unreadable one and an unexpected exception are told apart. |
| `OperatorMeanings.ExtractionMeans` | src/agentlen/domain/services/transformation_engine.py:401-419 | The extractor is asked for the group of the pattern, group 0 by default, on the text of the value; no match is Null. |
| `OperatorMeanings.CoalesceMeans` | src/agentlen/domain/services/transformation_engine.py:369-375 | On `apply`: the value of the first source that is known, Null when none is. |
| `OperatorMeanings.ConcatMeans` | src/agentlen/domain/services/transformation_engine.py:377-384 | On `apply`: the known values of the sources, joined in order with the separator, the empty one by default. |
| `OperatorMeanings.HashMeans` | src/agentlen/domain/services/transformation_engine.py:386-399 | On `apply`: the digest of the table of source names and values, or Null when none is known. |
| `OperatorFaults.KindsMean` | src/agentlen/domain/services/transformation_engine.py:306-339 | Units, formats, patterns and groups of another kind fail by their name, and an unknown value is unknown before they are looked at. |
| `OperatorFaults.AlgorithmMeans` | src/agentlen/domain/services/transformation_engine.py:386-399 | The one algorithm is the default, and any other value of the parameter fails. |
| `OperatorFaults.OddTables` | src/agentlen/domain/services/transformation_engine.py:484-500 | A table that is a list or a text is an empty one unless it has the key, when it fails; any other kind fails. |
| `OperatorFaults.OddSources` | src/agentlen/domain/services/transformation_engine.py:369-399 | Sources that are a text or an object are taken for the list of their characters or keys; what cannot be walked fails. |
| `OperatorFaults.RefusedSources` | src/agentlen/domain/services/transformation_engine.py:369-399 | The first source that cannot be read fails `concat` and `hash`, and `coalesce` if all before it are unknown. |
| `OperatorFaults.OddSeparator` | src/agentlen/domain/services/transformation_engine.py:377-384 | A separator that is no text fails if and only if there is something to join. |
| `OperatorLaws.OperatorsCompose` | src/agentlen/domain/services/transformation_engine.py:236-279 | A list of operators means its first part, then its second part on the result, stopping at the first failure. |
| `OperatorLaws.CoalesceIsFirstKnown` | src/agentlen/domain/services/transformation_engine.py:369-375 | `coalesce` gives the value of the first known source, and Null exactly when none is known. |
| `OperatorLaws.JoinConcat` | src/agentlen/domain/services/transformation_engine.py:377-384 | Parts are joined in order with one separator between neighbours. |
| `OperatorLaws.ConcatSkipsUnknown` | src/agentlen/domain/services/transformation_engine.py:377-384 | An unknown source of `concat` might as well not be listed. |
| `OperatorLaws.HashIgnoresOrder` | src/agentlen/domain/services/transformation_engine.py:386-399 | The hash of a list of sources depends on which they are, not on their order or repetition. |
| `OperatorLaws.CastToNull` | src/agentlen/domain/services/transformation_engine.py:421-455 | With `on_error: null`, a cast fails if and only if the conversion runs out of range, which that option does not cover. |
| `OperatorLaws.InfiniteIsNotCast` | src/agentlen/domain/services/transformation_engine.py:421-455 | Such a cast, on an input: an infinite float to an integer. |
| `OperatorLaws.CastTypes` | src/agentlen/domain/services/transformation_engine.py:421-455 | A cast that succeeds gives a value of the type it names, or Null. |
| `OperatorLaws.MapValuesExact` | src/agentlen/domain/services/transformation_engine.py:484-500 | A value in the table is mapped; `map_values` fails exactly on a missing one under `reject`. |
| `OperatorLaws.StripExact` | src/agentlen/domain/services/transformation_engine.py:306-339 | `trim` keeps a stretch that neither starts nor ends with white space, drops only white space, and is idempotent. |
| `Validator.ValidateField` | src/agentlen/domain/services/mapping_validator.py:300-357 | The loop over the operators of a field lists all their problems, or raises where a check raises what it does not catch. |
| `Validator.ValidateEntity` | src/agentlen/domain/services/mapping_validator.py:219-289 | All the problems of an entity, in the order the source reports them. |
| `Validator.Validate` | src/agentlen/domain/services/mapping_validator.py:205-216 | All the problems of a document, entity by entity. |
| `DocumentLaws.OperatorExact` | src/agentlen/domain/services/mapping_validator.py:300-357 | An operator has no problem if and only if it is whitelisted, complete, has no unknown parameter, allowed values and readable sources. |
| `DocumentLaws.ParametersExact` | src/agentlen/domain/services/mapping_validator.py:55-157 | The parameter checks find nothing if and only if each value is one its operator allows: the choices, a pair of units with a factor, a readable format or pattern with that group, a table object, a list of texts, a positive bound. |
| `DocumentLaws.ValidExact` | src/agentlen/domain/services/mapping_validator.py:205-357 | A document has no problem if and only if each entity, field and operator of it meets its contract. |
| `ProblemLaws.ProblemsExact` | src/agentlen/domain/services/mapping_validator.py:205-357 | Which problems are listed: each one, with its entity, field, operator and parameter, if and only if the document has the fault it names. |
| `ProblemLaws.FlawsExact` | src/agentlen/domain/services/mapping_validator.py:300-357 | The same for one operator: an unknown name, a missing parameter, the set of unexpected ones, a wrong value, an unreadable source. |
| `ProblemLaws.ValuesMean` | src/agentlen/domain/services/mapping_validator.py:55-157 | The parameters a check names are those whose value is wrong, operator by operator. |
| `ValidatorLaws.OperatorSound` | src/agentlen/domain/services/transformation_engine.py:306-500 | An accepted operator with no null that matters never fails by the mapping's fault, on any value and row. |
| `ValidatorLaws.HazardExact` | src/agentlen/domain/services/mapping_validator.py:60-109 | An accepted operator can fail by the mapping's fault on some value and row if and only if it carries one of the explicit nulls listed. |
| `HazardLaws.HazardIsReported` | src/agentlen/domain/services/mapping_validator.py:55-157 | For whole documents: an accepted one with such a null in the first operator of a rule has a record that is reported for the mapping's own fault. |
| `ValidatorLaws.SupportedHaveFactors` | src/agentlen/domain/services/mapping_validator.py:105-116 | Every unit pair the validator supports has a factor in the engine. |
| `ValidatorLaws.MappingSound` | src/agentlen/domain/services/mapping_validator.py:205-357 | Validator soundness: on an accepted document without such nulls, for every record, every issue comes from the data or the regex extractor. |
| `HazardLaws.SoundnessExact` | src/agentlen/domain/services/mapping_validator.py:205-357 | So soundness is exact where those nulls come first in their rules: there are none if and only if no record is ever reported for the mapping's own fault. |
| `ValidatorLaws.NoPathCode` | src/agentlen/domain/services/transformation_engine.py:205-304 | So no record read with such a document is reported under `MAPPING_UNSUPPORTED_PATH`, a code that no other reason has. |
| `ValidatorLaws.OperatorRaises` | src/agentlen/domain/services/mapping_validator.py:58-109 | Checking an operator raises exactly when a list or an object is looked up in a set, or the probe of a date format or of a pattern raises what is not caught. |
| `ValidatorLaws.ValidateRaises` | src/agentlen/domain/services/mapping_validator.py:205-216 | `validate`, which documents that it never raises, raises if and only if some operator of a known entity has such a parameter. |
| `ValidatorLaws.ListRaises` | src/agentlen/domain/services/mapping_validator.py:58-65 | It does, on a document: a cast whose `to` is a list. |
| `Normalizer.BuildModelCalls` | src/agentlen/domain/services/record_normalizer.py:250-316 | The loop over the rows of a target builds its calls, issues and requests row by row, or one issue for all when there is no session; `EntityMeanings.ModelCallMeans` says what each call holds. |
| `EntityMeanings.ModelCallMeans` | src/agentlen/domain/services/record_normalizer.py:250-316 | What a model call holds, field by field of its row: model and provider are the texts of their names unless blank, the index that of the row or its place, the status that of the row or unknown, the columns exactly those of the row; it asks for its two names. |
| `EntityMeanings.ModelCallExact` | src/agentlen/domain/services/record_normalizer.py:250-316 | A row is built into a model call if and only if its natural key is there, its names are names and its status is one of three. |
| `IssueMeanings.ModelCallRefused` | src/agentlen/domain/services/record_normalizer.py:122-316 | Otherwise its issues say why, in this order: the missing parts of the key, each field that is no name, or the construction. |
| `Normalizer.BuildToolCalls` | src/agentlen/domain/services/record_normalizer.py:318-376 | The same for tool calls, whose name is required. |
| `EntityMeanings.ToolCallMeans` | src/agentlen/domain/services/record_normalizer.py:318-376 | What a tool call holds, in the same way. |
| `EntityMeanings.ToolCallExact` | src/agentlen/domain/services/record_normalizer.py:318-376 | A row is built into a tool call if and only if its key is there, its name says something and its status is one of three. |
| `IssueMeanings.ToolCallRefused` | src/agentlen/domain/services/record_normalizer.py:122-376 | Otherwise its one issue says why: the key, a name that is none or blank, or, without a name or with another status, the construction. |
| `EntityMeanings.SessionMeans` | src/agentlen/domain/services/record_normalizer.py:197-248 | What a session holds: the data source, the text of its external id, its agent, its columns. |
| `EntityMeanings.SessionExact` | src/agentlen/domain/services/record_normalizer.py:197-248 | A row is built into a session if and only if its key and its external id are there, its agent is a name and its outcome one of four. |
| `IssueMeanings.SessionRefused` | src/agentlen/domain/services/record_normalizer.py:122-248 | Otherwise its one issue says why. |
| `IssueMeanings.LeftOutMeans` | src/agentlen/domain/services/record_normalizer.py:153-248 | With several session rows the first is the session and one warning counts them all; calls without a session are counted by one rejection. |
| `IssueMeanings.CallsInOrder` | src/agentlen/domain/services/record_normalizer.py:250-376 | Calls, issues and requests of one more row come after those of the rows before it, and its call is tagged with its rank. |
| `IssueMeanings.LastMappingRules` | src/agentlen/domain/services/record_normalizer.py:74 | When several entity mappings have a target, the natural key checked is that of the last. |
| `Normalizer.Normalize` | src/agentlen/domain/services/record_normalizer.py:66-120 | The session first, then the calls attached to it; issues and requests in that order. `RecordMeanings` says what they hold. |
| `RecordMeanings.ModelCallOfRecord` | src/agentlen/domain/services/record_normalizer.py:66-376 | Every model call of a record is that of one row of it, the one whose rank its tag carries, and holds what that row holds. |
| `RecordMeanings.ToolCallOfRecord` | src/agentlen/domain/services/record_normalizer.py:66-376 | The same for every tool call. |
| `RecordMeanings.SessionOfRecord` | src/agentlen/domain/services/record_normalizer.py:66-376 | The session of a record is that of its first surviving session row. |
| `RecordMeanings.RequestsOfRecord` | src/agentlen/domain/services/record_normalizer.py:66-376 | A record asks for exactly the names its entities carry, a model with its provider. |
| `NormalizerLaws.NoEscape` | src/agentlen/domain/services/record_normalizer.py:197-376 | For every mapping and record, no exception escapes the engine and the normaliser. |
| `NormalizerLaws.UngatedEscapes` | src/agentlen/domain/services/record_normalizer.py:250-376 | Without the type gate one would: a status that is a list, a position that is infinite. |
| `NormalizerLaws.Closure` | src/agentlen/domain/services/record_normalizer.py:197-376 | Reference and parent closure: every call names the record's one session, every name is among the requests, and no two entities share a tag. |
| `RowLedger.NoRowLost` | src/agentlen/domain/services/record_normalizer.py:66-376 | No row is lost in silence, row by row: each row an entity mapping reaches is dropped with rejected issues of its own in the result, or is exactly one entity of it in its own place, or is rejected by issues of its own, or stands under the one orphan issue that counts it, or under the warning that counts ignored sessions. |
| `RowLedger.RanksIncrease` | src/agentlen/domain/services/transformation_engine.py:88-100 | The surviving rows of a target have different ranks, in mapping and source order, so two rows never share an entity. |
| `RowLedger.RowOfEntry` | src/agentlen/domain/services/transformation_engine.py:88-100 | Conversely every engine row, and so every entity, comes from one row of the document, at its rank. |
| `Accounting.RowsCounted` | src/agentlen/domain/services/record_normalizer.py:66-376 | In numbers, for known targets: the rows reached are at least the entities built and at most the entities and the rows the issues speak for; every issue names its line. |
| `Accounting.EntriesOfOnly` | src/agentlen/domain/services/transformation_engine.py:88-100 | When one entity mapping has a target, the rows of that target are its own surviving rows. |
| `RowFates.ModelCallFates` | src/agentlen/domain/services/record_normalizer.py:250-316 | Each engine row is exactly one model call, in its place and tagged with its rank, or is rejected by issues of its own; each call comes from one row. |
| `RowFates.ToolCallFates` | src/agentlen/domain/services/record_normalizer.py:318-376 | The same for tool calls. |
| `RowFates.DistinctModelPositions` | src/agentlen/domain/services/record_normalizer.py:268-269 | With no sequence_index rule, the model calls of a record have increasing positions among the rows its mapping reaches. |
| `RowFates.DistinctToolPositions` | src/agentlen/domain/services/record_normalizer.py:336-337 | The same for tool calls. |
| `References.ResolveOneFacts` | src/agentlen/infrastructure/persistence/repositories/sql.py:935-992 | Resolving a name keeps every row and id there was, leaves the name known, and changes nothing if it was known. |
| `References.ResolveAllFacts` | src/agentlen/infrastructure/persistence/repositories/sql.py:935-992 | The same for a list of requests. |
| `ImportLaws.NamesStayApart` | src/agentlen/infrastructure/persistence/repositories/sql.py:935-992 | Over any import, different names keep different ids, and a model of another provider is another model. |
| `ResolveReferences.Resolver.Query` | src/agentlen/application/use_cases/resolve_references.py:26-36 | A cache miss asks the repository once and keeps its answer. |
| `ResolveReferences.Resolver.Execute` | src/agentlen/application/use_cases/resolve_references.py:26-36 | Every request gets the id of its row; no key is ever asked for twice in the run; the tables end as if every request had been asked for; the cache agrees with them. |
| `Store.InsertKeys` | src/agentlen/infrastructure/persistence/repositories/sql.py:65-89 | An insertion adds exactly the missing keys and changes no stored row. |
| `Store.FirstRowWins` | src/agentlen/infrastructure/persistence/repositories/sql.py:97-152 | The first row of a new key is the one stored. |
| `Store.WrittenCounts` | src/agentlen/application/dto/persistence.py:48-86 | `inserted_count` is the number of rows the table gained. |
| `Store.OutcomeCovers` | src/agentlen/application/dto/persistence.py:77-80 | `ids` holds every entity of the batch, under the key its row is stored by. |
| `Store.CallDuplicatesCount` | src/agentlen/infrastructure/persistence/repositories/sql.py:342-365 | Every call that wrote no row is counted as a duplicate. |
| `Store.AddSessions` | src/agentlen/infrastructure/persistence/repositories/sql.py:97-152 | Sessions are inserted first writer wins; the outcome says which entity wrote, which found, and which repeats another run's session. |
| `Store.LinkToSessions` | src/agentlen/infrastructure/persistence/repositories/sql.py:313-326 | Calls are linked to the session their tag names, or listed as unlinked. |
| `Store.CallOutcome` | src/agentlen/infrastructure/persistence/repositories/sql.py:342-365 | The outcome of an insertion of calls, entity by entity. |
| `Store.AddCalls` | src/agentlen/infrastructure/persistence/repositories/sql.py:221-306 | The two call repositories: link, insert, report. |
| `Store.UnitOfWork.Commit` | src/agentlen/infrastructure/persistence/unit_of_work.py:115-118 | Publishes the work of the open transaction. |
| `Store.UnitOfWork.Rollback` | src/agentlen/infrastructure/persistence/unit_of_work.py:120-122 | Discards it. |
| `Store.UnitOfWork.Exit` | src/agentlen/infrastructure/persistence/unit_of_work.py:101-113 | Leaves the store as it was unless the block committed. |
| `Importing.BatchIsLines` | src/agentlen/application/use_cases/run_import.py:177-249 | Writing a batch table by table leaves what importing its lines one by one leaves. |
| `Importing.StillFresh` | src/agentlen/application/use_cases/run_import.py:203-207 | A line is new in the middle of a run exactly when it was new at its start. |
| `Importing.ImportConcat` | src/agentlen/application/use_cases/run_import.py:141-157 | Importing a file is importing its first part and then the rest. |
| `Reporting.BatchParented` | src/agentlen/application/use_cases/run_import.py:239-249 | The ids handed back by the session insert parent every call of the batch. |
| `Reporting.BatchLinks` | src/agentlen/application/use_cases/run_import.py:239-249 | Through those ids each call is linked to the session of its own record, and none is unlinked. |
| `Reporting.DuplicateKeys` | src/agentlen/application/use_cases/run_import.py:256-258 | The session duplicates name exactly the keys of the batch that another run had stored. |
| `Reporting.BatchCounts` | src/agentlen/application/use_cases/run_import.py:251-265 | The counters of a batch are the keys gained, the sessions of other runs, and the calls that repeat one. |
| `Reporting.ReportStep` | src/agentlen/application/use_cases/run_import.py:251-265 | The report of a file is the sum of its parts, each repeated session counted once. |
| `Rejections.RejectedLineCount` | src/agentlen/application/use_cases/run_import.py:291-292 | The lines with a rejected issue are as many as the results with one, and are lines of the file. |
| `Rejections.IssuesMean` | src/agentlen/application/use_cases/run_import.py:186-202 | The issues of a file are those of its lines, all of them and in order. |
| `RunImport.AddRecords` | src/agentlen/infrastructure/persistence/repositories/sql.py:369-393 | Raw records are stored once per run and line; the lines given back are those that were new. |
| `RunImport.SessionsToStore` | src/agentlen/application/use_cases/run_import.py:208-218 | One row per session, with the id of its agent or none, and one warning per name without an id. |
| `RunImport.SessionIsStored` | src/agentlen/application/use_cases/run_import.py:208-218 | The row of a session, field by field, and the warning when its agent has no id. |
| `RunImport.ModelCallsToStore` | src/agentlen/application/use_cases/run_import.py:219-225 | The same for model calls; `RunImport.ModelCallIsStored` says what the rows hold. |
| `RunImport.ModelCallIsStored` | src/agentlen/application/use_cases/run_import.py:219-225 | The row of a model call, field by field, and the warning when its model has no id. |
| `RunImport.ToolCallsToStore` | src/agentlen/application/use_cases/run_import.py:226-237 | One row per tool call whose name has an id, one rejected issue per other. |
| `RunImport.ToolCallIsStored` | src/agentlen/application/use_cases/run_import.py:226-237 | The row of a tool call, field by field, or the rejected issue when its tool has no id. |
| `RunImport.NoToolLost` | src/agentlen/application/use_cases/run_import.py:226-237 | Rows and rejected issues together are as many as the tool calls: none is dropped in silence. |
| `RunImport.CollectRows` | src/agentlen/application/use_cases/run_import.py:203-237 | The rows and issues of the lines that were new, line by line; a line already stored is skipped. |
| `RunImport.LotsResolved` | src/agentlen/application/use_cases/run_import.py:203-237 | Once every request of a batch is answered, those are the rows of its fresh lines with the ids of the tables, and no reference is unresolved. |
| `RunImport.Counters.AddBatch` | src/agentlen/application/use_cases/run_import.py:251-292 | What a batch adds to the counters and the issues; a session already counted as a duplicate is not counted again. |
| `RunImport.ImportBatch` | src/agentlen/application/use_cases/run_import.py:165-300 | A batch is all or nothing: it leaves the fold of its lines and the counters of `ReportOf`, or, stopped anywhere, the store as it was; the only batch-level notice is of repeats. |
| `RunImport.ImportFile` | src/agentlen/application/use_cases/run_import.py:133-163 | The batch loop leaves and reports what the line-by-line fold says, whatever the batch size; stopped, it leaves the fold of the batches committed. |
| `RunImport.Execute` | src/agentlen/application/use_cases/run_import.py:115-163 | Batch-size independence: store, report, status, diagnoses and the set of references asked for do not mention the size; the notices of repeats add up to the duplicates of the report; each refusal happens exactly on its condition and writes nothing. `ImportLaws.FirstWriterWins` says what the store holds. |
| `ImportLaws.BatchesDoNotMatter` | src/agentlen/application/use_cases/run_import.py:133-163 | However the same file is cut into batches, the store is the same. |
| `ImportLaws.Resume` | src/agentlen/application/use_cases/run_import.py:177-207 | Crash and resume: a run stopped after any prefix and executed again leaves the very store of an uninterrupted run. |
| `ImportLaws.Replay` | src/agentlen/application/use_cases/run_import.py:177-207 | A stopped run replayed by a new run leaves the same facts and references: only the run numbers differ. |
| `ImportLaws.Reimport` | src/agentlen/application/use_cases/run_import.py:251-265 | Re-import idempotence: with any runs in between, nothing but raw records is written, nothing is imported, and each session of the file is one duplicate and each call one. |
| `ImportLaws.ImportGrows` | src/agentlen/infrastructure/persistence/repositories/sql.py:97-306 | No run takes a stored fact away or changes one. |
| `ImportLaws.KeysAfter` | src/agentlen/application/use_cases/run_import.py:239-255 | A new run adds exactly the natural keys of its file. |
| `ImportLaws.FirstWriterWins` | src/agentlen/application/dto/persistence.py:48-86 | A new natural key keeps the first record and call that use it: its stored row has that entity's columns and status, its raw record and run, and the ids its names have in the tables at the end, a model with its provider. |
| `ImportLaws.RecordsAreKept` | src/agentlen/infrastructure/persistence/repositories/sql.py:369-393 | A new run stores each of its records as it was read, under its line, and leaves all others as they were. |
| `Repeats.EveryCallStored` | src/agentlen/application/use_cases/run_import.py:226-255 | A new run stores as many calls as its file has, each with its own fact, if and only if their keys are pairwise different and none was held; the calls missing are exactly those whose key was taken. |
| `Repeats.PositionsRestart` | src/agentlen/domain/services/record_normalizer.py:268-269 | The position fallback restarts on every record: without a sequence_index rule, every call of a file is stored if and only if no key was held and no two lines of one session have a call at the same position. |
| `Repeats.OneCallPerSession` | src/agentlen/domain/services/mapping_validator.py:254-284 | Why a call that is not iterated must map its index: it would stand at position 0, and a file would keep the calls of at most one line of each session. |
| `RepeatWitness.RoundsAreLost` | src/agentlen/domain/services/record_normalizer.py:268-269 | The loss on an input: a mapping the validator accepts and two lines of one session, of whose two calls one is stored. |
| `Preview.ShowRows` | src/agentlen/application/use_cases/preview_import.py:107-109 | The first five entities of a target are shown, in order. |
| `Preview.ShownMeans` | src/agentlen/application/use_cases/preview_import.py:135-154 | What is shown of an entity is its fields, without its ids. |
| `Preview.TargetsMean` | src/agentlen/application/use_cases/preview_import.py:101-109 | Each target shows its own kind of entity, line after line. |
| `Preview.FiveAreShown` | src/agentlen/application/use_cases/preview_import.py:101-109 | Each target counts all of its entities and shows the first five. |
| `Preview.ListIssues` | src/agentlen/application/use_cases/preview_import.py:111-122 | Every issue is listed, at its own line or else at the record's, and exactly the lines of the rejected ones are marked. |
| `Preview.AddResult` | src/agentlen/application/use_cases/preview_import.py:101-109 | Totals and shown rows, target by target. |
| `Preview.Sample` | src/agentlen/application/use_cases/preview_import.py:85-132 | The sampling loop: totals, first rows, issues, and the number of rejected lines. |
| `Preview.Execute` | src/agentlen/application/use_cases/preview_import.py:52-132 | Nothing is written; the sample is the first records; each refusal, an invalid mapping and a raising validator told apart, happens exactly on its condition. |
| `PreviewLaws.SourceOnly` | src/agentlen/application/use_cases/preview_import.py:92-99 | The data source changes only a column of the session, so the sentinel 0 is harmless. |
| `PreviewLaws.NewOrTaken` | src/agentlen/application/dto/persistence.py:52-66 | Every key of a list is either new or taken. |
| `PreviewLaws.CallsStored` | src/agentlen/application/use_cases/run_import.py:239-255 | The calls a file announces are those a new run adds and those whose key was taken. |
| `PreviewLaws.PreviewAgrees` | src/agentlen/application/use_cases/preview_import.py:85-132 | On the same records, would_reject is the run's records_rejected, at most the records; the would_import total is records_imported plus the entities whose key was taken. |
| `JobQueue.SelectOldest` | src/agentlen/infrastructure/jobs/postgres_queue.py:35-41 | The sub-select gives the oldest pending row that is not locked, or none exactly when there is none. |
| `JobQueue.PostgresJobQueue.ClaimNext` | src/agentlen/infrastructure/jobs/postgres_queue.py:28-43 | Claims that row: running, locked by the worker, one attempt more. |
| `JobQueue.PostgresJobQueue.Enqueue` | src/agentlen/infrastructure/jobs/postgres_queue.py:45-49 | Back to pending, without a lock. |
| `JobQueue.PostgresJobQueue.MarkSucceeded` | src/agentlen/infrastructure/jobs/postgres_queue.py:51-55 | Finished with the given status, without a lock. |
| `JobQueue.PostgresJobQueue.MarkFailed` | src/agentlen/infrastructure/jobs/postgres_queue.py:57-62 | Failed, without a lock, with at most 2000 characters of error. |
| `JobQueue.ColumnsMean` | src/agentlen/infrastructure/jobs/postgres_queue.py:28-62 | What each statement sets, column by column, and what it leaves. |
| `JobQueue.StepsMean` | src/agentlen/infrastructure/jobs/postgres_queue.py:28-62 | What each step of the machine does to its one row and its one worker; all others stay as they are. |
| `JobQueue.StepIsSafe` | src/agentlen/infrastructure/jobs/postgres_queue.py:28-62 | Every step keeps the queue safe: no run with two workers, pending rows unlocked, running rows locked, rows in agreement with their worker. |
| `JobQueue.RunIsSafe` | src/agentlen/infrastructure/jobs/postgres_queue.py:28-62 | So does every interleaving of any number of workers, deaths included. |
| `JobQueue.ReachableIsSafe` | src/agentlen/infrastructure/jobs/postgres_queue.py:28-62 | Every reachable queue is safe: any interleaving that starts from pending and finished runs and no worker. |
| `JobQueue.ClaimTakesPending` | src/agentlen/infrastructure/jobs/postgres_queue.py:28-43 | The row a claim marks is still pending and free, whatever happened since it was locked. |
| `JobQueue.ReleaseFrees` | src/agentlen/infrastructure/jobs/postgres_queue.py:51-62 | A released run is terminal, unlocked and with nobody. |
| `JobQueue.ClaimedOnce` | src/agentlen/infrastructure/jobs/postgres_queue.py:28-49 | Over any interleaving a run is claimed at most once, plus once per `enqueue`. |
| `JobQueue.AttemptsCount` | src/agentlen/infrastructure/jobs/postgres_queue.py:34 | `attempts` counts the claims. |
| `JobQueue.RequeueExact` | src/agentlen/infrastructure/jobs/postgres_queue.py:45-49 | On any safe queue, enqueuing a run keeps it safe if and only if no worker is executing the run or has saved its report. |
| `JobQueue.EnqueueInFlightBreaks` | src/agentlen/infrastructure/jobs/postgres_queue.py:45-49 | What follows otherwise, on a queue: a second worker takes a run that the first is executing. |
| `JobQueue.ClaimIsLockThenMark` | src/agentlen/infrastructure/jobs/postgres_queue.py:73-76 | The atomic claim is the lock step followed by the mark step. |
| `Worker.ImportWorker.RunOnce` | src/agentlen/infrastructure/jobs/worker.py:108-127 | Whenever it returns True the claimed run is terminal and unlocked. An exception of the claim goes through and leaves everything as it was; one of the job goes through exactly when it is no `Exception` or the run cannot be marked failed, and leaves the run locked by its worker. |
| `Worker.EscapeMeans` | src/agentlen/infrastructure/jobs/worker.py:108-127 | When an exception goes through, and what it leaves: the status the import saved, or running, and the lock. |
| `Worker.ImportWorker.Drain` | src/agentlen/infrastructure/jobs/worker.py:129-145 | Draining ends with every pending run executed once, oldest first and freed, `processed` raised by as many; after a stop request no run is claimed; an exception that goes through ends it, with at most its own run left locked. |
| `Worker.ImportWorker.RequestStop` | src/agentlen/infrastructure/jobs/worker.py:103-106 | Sets the stop flag. |
| `Catalogue.LatestIs` | src/agentlen/infrastructure/persistence/repositories/sql.py:583-591 | The latest version is the highest stored under the name. |
| `Catalogue.Ledger.SaveMapping` | src/agentlen/application/use_cases/save_mapping.py:25-114 | Creating a mapping or a version: each refusal in its order and without effect, or the new row, the previous one superseded. |
| `CatalogueMeanings.CreatedMeans` | src/agentlen/application/use_cases/save_mapping.py:25-71 | A mapping is created if and only if its document is valid, its source known, its name not among those listed and its row allowed; the row holds the draft; each refusal has its exact condition. |
| `CatalogueMeanings.VersionedMeans` | src/agentlen/application/use_cases/save_mapping.py:73-114 | A version is made if and only if the one it replaces is there, the highest of its name and in its source, and the document valid; it holds the draft's format and entities under the old name, one version up; each refusal has its exact condition. |
| `CatalogueMeanings.ListedExact` | src/agentlen/infrastructure/persistence/repositories/sql.py:553-581 | The listed mappings of a source are those with fewer than the limit after them. |
| `Catalogue.Ledger.FindBlocker` | src/agentlen/application/use_cases/create_import.py:104-125 | The newest run of the file and mapping that blocks. |
| `Catalogue.Ledger.CreateImport` | src/agentlen/application/use_cases/create_import.py:40-64 | Queues a pending run, or refuses in the order of the checks and writes nothing. |
| `CatalogueMeanings.QueuedMeans` | src/agentlen/application/use_cases/create_import.py:40-64 | A run is queued if and only if source, file and mapping are there and agree, the mapping is active and no run of both is pending, running or succeeded; otherwise the first of these that fails is the refusal. |
| `CatalogueMeanings.BlockerIsNewest` | src/agentlen/application/use_cases/create_import.py:104-125 | The run named as the obstacle is the newest of those. |
| `CatalogueLaws.VersionsAreExact` | src/agentlen/application/use_cases/save_mapping.py:73-112 | The versions of a name are exactly 1 to the latest, each once, and only the latest is active. |
| `CatalogueLaws.ReplacesNewest` | src/agentlen/application/use_cases/save_mapping.py:83-95 | Only the newest, active version can be replaced. |
| `CatalogueLaws.StepIsSound` | src/agentlen/application/use_cases/create_import.py:31-125 | Every step keeps the histories, the coherence of runs with their mapping and file, and at most one blocking run per file and mapping. |
| `CatalogueMeanings.StepsMean` | src/agentlen/application/use_cases/create_import.py:31-125 | What each step changes: a refused use case nothing, a claimed or finished run its status only. |
| `CatalogueLaws.RunIsSound` | src/agentlen/application/use_cases/create_import.py:31-125 | So does every sequence of steps. |
| `CatalogueLaws.ReachableIsSound` | src/agentlen/application/use_cases/create_import.py:31-125 | Every reachable catalogue, built from nothing by any sequence of steps, has sound histories, coherent runs and at most one blocking run per file and mapping. |
| `CatalogueLaws.NameGuard` | src/agentlen/application/use_cases/save_mapping.py:49-56 | A taken name is refused as a conflict when it is among the newest thousand rows of its source, and by the table constraint when it is not. |
| `CatalogueLaws.FirstVersion` | src/agentlen/application/use_cases/save_mapping.py:57 | A name created at another version than 1 breaks the history, and only such a one. |
| `CatalogueLaws.RequeueGuard` | src/agentlen/infrastructure/jobs/postgres_queue.py:45-49 | Setting a finished run back to pending keeps the guard if and only if no other run of its file and mapping blocks. |
| `Sanitizer.Apply` | src/agentlen/infrastructure/ai/sanitizer.py:271-274 | The rules rewrite the text one after the other. |
| `Sanitizer.SanitizeValue` | src/agentlen/infrastructure/ai/sanitizer.py:277-293 | Redaction first, then the bound: never longer than the limit, unchanged when it fits, marked when cut. |
| `SanitizerLaws.RulesInOrder` | src/agentlen/infrastructure/ai/sanitizer.py:271-274 | No rule changes nothing, one rule is itself, and a list of rules is its first part and then its last. |
| `Sanitizer.SanitizeScalar` | src/agentlen/infrastructure/ai/sanitizer.py:305-323 | A leaf: a text goes through redaction and the bound, a number, a boolean or a null passes, a binary value becomes its size. |
| `Sanitizer.Pigeonhole` | src/agentlen/infrastructure/ai/sanitizer.py:337-340 | The names tried are distinct, so the suffix search ends. |
| `Sanitizer.FindName` | src/agentlen/infrastructure/ai/sanitizer.py:336-340 | A key keeps its name, or gets the least free suffix from 2. |
| `Sanitizer.Sanitize` | src/agentlen/infrastructure/ai/sanitizer.py:326-350 | The result mirrors the record: same objects, keys in order under fresh names, first items of lists, bounded leaves, and a notice past the depth limit. |
| `SanitizerLaws.LeafExact` | src/agentlen/infrastructure/ai/sanitizer.py:305-350 | What each leaf of a record becomes: the redacted text within its budget, the plain value itself, the number of bytes, or the notice past depth 20. |
| `SanitizerLaws.PlacesAreKept` | src/agentlen/infrastructure/ai/sanitizer.py:326-350 | What stands at a place of the result comes from that place of the record: nothing moves and nothing is made up. |
| `SanitizerLaws.PlacesAreShown` | src/agentlen/infrastructure/ai/sanitizer.py:326-350 | A place is shown if and only if it is within the depth and the budgets of the lists on the way. |
| `SanitizerLaws.TextsAreRedacted` | src/agentlen/infrastructure/ai/sanitizer.py:277-350 | So every text of a record that is shown is redacted and bounded, where it stood. |
| `SanitizerLaws.NothingLeaks` | src/agentlen/infrastructure/ai/sanitizer.py:202-350 | What the rules take out of every text, and cutting does not bring back, is in no text of the result, the sanitizer's own notices apart. |
| `SanitizerLaws.NamesAreRedacted` | src/agentlen/infrastructure/ai/sanitizer.py:296-340 | A text key leaves under its redacted name, or under that name with a suffix. |
| `Sanitizer.SanitizeSamples` | src/agentlen/infrastructure/ai/sanitizer.py:353-381 | The first records, each mirrored; refuses exactly the three bad limits. |
| `Sanitizer.KeysStayDistinct` | src/agentlen/infrastructure/ai/sanitizer.py:334-340 | Redaction never merges two keys of an object. |
| `Sanitizer.FirstKeepsName` | src/agentlen/infrastructure/ai/sanitizer.py:332-340 | A key keeps its redacted name if and only if no earlier key has it. |
| `Sanitizer.NestingIsBounded` | src/agentlen/infrastructure/ai/sanitizer.py:326-328 | The result is nested at most 21 deep, however deep the record is. |
| `Sanitizer.StaysWithin` | src/agentlen/infrastructure/ai/sanitizer.py:326-350 | Every list is within max_list_items and every text within max_value_length, the sanitizer's own notices apart. |
| `Sanitizer.MirrorIsUnique` | src/agentlen/infrastructure/ai/sanitizer.py:326-350 | The result is a function of the record, the rules and the limits. |
| `FileStore.ReadHead` | src/agentlen/infrastructure/files/local_storage.py:63-92 | What format detection is given: the bytes up to the first stop, after the head and whole pieces, at which the file ends, the bound is reached or no open JSON line is left. |
| `FileStore.HeadReach` | src/agentlen/infrastructure/files/local_storage.py:63-92 | So a JSON line that opens in the head is read to its end, the end of the file or the bound, and anything else costs the head alone. |
| `FileStore.HeadExact` | src/agentlen/infrastructure/files/local_storage.py:63-92 | The format is told from the bytes up to the first stop, at 64 KiB, each MiB more, 8 MiB or the end, where no line that opens with a brace is still open. |
| `FileStore.PathMeans` | src/agentlen/infrastructure/files/local_storage.py:226 | A file is in the folder named by the first two characters of its hash. |
| `FileStore.PathsDiffer` | src/agentlen/infrastructure/files/local_storage.py:226 | Hashes of one length that differ name different final paths. |
| `FileStore.LocalFileStorage.Receive` | src/agentlen/infrastructure/files/local_storage.py:184-202 | For every split into chunks, what is hashed and written is the content in order; over the limit it stops with at most the limit written. |
| `FileStore.LocalFileStorage.Place` | src/agentlen/infrastructure/files/local_storage.py:215-240 | The staged file goes to the path of its hash, unless one is there; the format is the one detected, and a refused or raising detection leaves everything as it was. |
| `FileStore.LocalFileStorage.Store` | src/agentlen/infrastructure/files/local_storage.py:161-213 | Every final path only ever holds complete content whose hash is its name; a refusal leaves no file and no staging; each of the five refusals happens exactly on its condition, and the rest is stored. |
| `Aggregates.SessionPredicates` | src/agentlen/infrastructure/persistence/read_models/sql.py:35-78 | The fragments of the filters together select exactly the sessions the filters ask for. |
| `AggregateMeanings.SelectionMeans` | src/agentlen/infrastructure/persistence/read_models/sql.py:35-78 | What each filter asks for: its value in the session, a known start within the dates, a call of the model, a call of the tool. |
| `Aggregates.GroupingConserves` | src/agentlen/infrastructure/persistence/read_models/sql.py:203-217 | Grouping loses nothing, column by column, nullable sums included. |
| `Aggregates.GroupsAreExact` | src/agentlen/infrastructure/persistence/read_models/sql.py:168-184 | A grouping has one row per key, and that row aggregates exactly the rows of its key. |
| `AggregateLaws.Swap` | src/agentlen/infrastructure/persistence/read_models/sql.py:203-252 | Summing calls by session or sessions by call is the same. |
| `AggregateLaws.MetricsParts` | alembic/versions/0002_dashboard_read_views.py:39-82 | A session's row carries the aggregates of its own calls of each kind. |
| `AggregateMeanings.SessionMeans` | alembic/versions/0002_dashboard_read_views.py:39-82 | A session's row counts its own calls: all, those in error, those with a known status or known tokens; its sums are over the known values, and unknown when there are none. |
| `AggregateMeanings.OverviewMeans` | src/agentlen/infrastructure/persistence/read_models/sql.py:121-166 | With ids a primary key, the overview counts the selected sessions and the calls of exactly these, column by column. |
| `AggregateMeanings.ToolUsageMeans` | src/agentlen/infrastructure/persistence/read_models/sql.py:203-232 | A point counts the calls of its tool in the selected sessions of its source, and those among them in error. |
| `AggregateMeanings.ToolUsageComplete` | src/agentlen/infrastructure/persistence/read_models/sql.py:203-232 | And every such call has its point. |
| `AggregateMeanings.ModelUsageMeans` | src/agentlen/infrastructure/persistence/read_models/sql.py:234-270 | A point counts the calls of its model, known or not, in the selected sessions of its source, and sums their known tokens. |
| `AggregateMeanings.ActivityMeans` | src/agentlen/infrastructure/persistence/read_models/sql.py:168-201 | A point counts the selected sessions of its source that started on its day, and their calls. |
| `AggregateLaws.ToolUsageSums` | src/agentlen/infrastructure/persistence/read_models/sql.py:121-232 | Without a tool filter, the points sum to the overview's tool calls, errors and known statuses. |
| `AggregateLaws.ModelUsageSums` | src/agentlen/infrastructure/persistence/read_models/sql.py:121-270 | Without a model filter, they sum to its model calls and nullable token totals, unresolved models included. |
| `AggregateLaws.ActivitySums` | src/agentlen/infrastructure/persistence/read_models/sql.py:168-201 | The daily points and the undated sessions sum to the overview, in every column. |
| `AggregateLaws.FanOut` | alembic/versions/0002_dashboard_read_views.py:13-20 | A join of both kinds of calls counts each model call once per tool call and each tool call once per model call. |
| `AggregateLaws.NaiveTokens` | alembic/versions/0002_dashboard_read_views.py:13-20 | So its token sum is the true one times the number of tool calls, and its coverage likewise. |
| `Pages.LoadAllPages` | frontend/src/lib/api/pagination.ts:27-44 | Over the server's window the loop returns exactly the first items up to the ceiling, and says truncated exactly when some are missing; without a total, one page, flagged when full. |

## Left out

- Reading files: scanning, schema inference and JSON decoding are library code; the model starts from the list of records, each an object, and a reader that raises is an interruption of the run.
- Text of messages and exceptions: an issue keeps its severity, its place, its line and a reason that decides its stable code.
- The `import_issue` table and the `fields_missing` tally: issues are returned by the run, not stored.
- Floating-point rounding: finite floats are exact reals, and `NaN` and the infinities are values of their own; `ns` is scaled by the decimal factor.
- `str.strip` is modelled over any notion of white space, `str.lower` and `str.upper` over any functions.
- Slicing of inserts into groups that fit the bind-parameter limit, which changes no result.
- A tool call's optional link to a model call, and repositories as a kind of reference: the normaliser of this repository produces neither.
- RunImport.ImportBatch: an exception may come while reading, after the references, after the rows or before the commit; the database statements in between have the same effect on the store.
- Rows the tables refuse: an integer outside its column (four bytes for `sequence_index` and the token counts), or a NUL character, which neither text nor `JSONB` can hold. Such a row makes the insert of its batch raise, which is one of the interruptions of RunImport.ImportBatch; which rows are refused is not stated.
- ImportLaws.Resume: no other run writes between the stop and the resumption; counters and issues of a resumed run are recomputed, and nothing is claimed about them.
- JobQueue.StepIsSafe: the sub-select locks its row in one step on committed rows; `enqueue` on a run that a worker is working on is excluded, and `JobQueue.RequeueExact` says that this is exactly what safety asks.
- Recovery of a run whose worker died: the model lets workers die and keeps their rows running and locked, as the queue does.
- Worker.ImportWorker.Drain: nothing arrives while draining, and the idle polling of a worker that does not stop is not modelled.
- The text that `failure_summary` builds is a parameter of a job.
- Worker.ImportWorker.RunOnce: a statement that raises leaves its row as it was; one that raises after its commit, when the connection is lost on the answer, is not modelled.
- CatalogueLaws.RunIsSound: transactions are serial, a router creates a mapping at version 1, and no finished run is enqueued; `CatalogueLaws.FirstVersion` and `CatalogueLaws.RequeueGuard` say what happens otherwise. Rows of mappings and runs are never deleted, so an id is a position.
- The redaction patterns of the sanitizer are parameters; the profile example sanitizer only applies them to each example.
- FileStore.LocalFileStorage.Store: one upload at a time; a file already at the final path is kept, and is the same content when the hash is injective.
- The decision of `detect_format` on the bytes it is given is a parameter: a format, its own refusal, or an exception of the JSON parser that it does not catch.
- HazardLaws.SoundnessExact: a null that matters behind other operators may be shielded by them, as by one that fails first on every row; for those only the sound direction is proved.
- NormalizerLaws.NoEscape: Python's limit on the digits of an integer turned into text is not modelled, and so neither is the `ValueError` of a longer one.
- Averages, ratios, the import quality view, tool and model names, and the order of the dashboard's points.
- Pages.LoadAllPages: the list does not change while it is read.
- HTTP routers, AI adapters, login and the user interface.
