# AutoSchema's schema generator, modelled in Dafny

This project models `SchemaGenerator` from `schema_generator.py`. It reads a
list of JSON records (Python dicts), profiles every field it sees and emits a
JSON Schema (draft 2020-12) in one of several styles:

- the plain style, which `_analyze_objects` checks against the records;
- flexible;
- binary-aware;
- flexible-with-types;
- pydantic-style "Any";
- hardened;
- smart (with its deep, depth-limited analysis).

It also models the structure report of `analyze_objects_with_depth`.

Modules, one per file, in dependency order:

- `Json` (`json.dfy`): decoded JSON values. An object is its member list in
  insertion order. A float is the exact rational it denotes.
  - Python's type names for values.
  - Dict assignment `d[k] = v` (`SetKey`) and lookup.
  - The `Option`/`Result` wrappers and the two failure kinds of the entry
    points: empty input and a rejected record.
- `Classifiers` (`classifiers.dfy`): `_is_likely_binary`, `_is_email`,
  `_is_url`, `_is_date_time` and `_is_uuid`. Each regular expression is
  written out as a predicate on the string, together with the choice of one
  pattern per string. `\s` and `\d` match what they match in Python's str
  patterns: Unicode whitespace and the decimal digits of every script.
- `Structure` (`structure.dfy`): the recursive walk over nested dicts
  (`_analyze_dict_structure_recursive`). It is a class, `StructureWalker`,
  whose `analysis` state the recursive methods update in place. Each method
  is proved equal to a function of the old state. Also here:
  - the invariants of the walk;
  - the recursive binary search (`_contains_binary_recursive`,
    `_has_nested_binary`).
- `Profiling` (`profile.dfy`):
  - the flat profiler `_analyze_fields`, a method with loops proved equal to
    the declarative `Profile`;
  - the per-value updates and `_post_process_field_analysis`;
  - the deep analysis `_analyze_fields_deep_with_depth`;
  - what the profile records about the values it saw.
- `Schemas` (`schemas.dfy`): every per-field schema builder of every style,
  as functions from a field record to a JSON schema value.
- `Validation` (`validation.dfy`): what a schema accepts (`Admits`) for the
  keywords the builders emit. The generator calls `jsonschema.validate` to
  decide this.
- `Acceptance` and `Unions` (`acceptance.dfy`, `unions.dfy`): for each
  builder, which values its schema accepts.
- `Generator` (`generator.dfy`):
  - the loop that assembles a top-level schema;
  - `_validate_schema`;
  - `_analyze_objects`;
  - the public `generate_*` entry points.
- `Soundness` (`soundness.dfy`): what a top-level schema accepts, and which
  of the records it was built from pass the plain schema.
- `Findings` (`findings.dfy`): where the generated schemas reject the records
  they were built from, each shown on a concrete input. Also the corrected
  builders, with the intended property proved about them.
- `Report` (`report.dfy`): `analyze_objects_with_depth` and its summary
  counters.

Several style-specific unions list alternatives that overlap. Examples:
`number` and `integer`, a "text" and a "binary" string, or a string schema
that already admits null next to a `null` alternative. A `oneOf` rejects any
value that two alternatives accept, and the lemmas in `Unions` and
`Acceptance` state exactly which values each union then rejects.

## Model

| member | source | states |
|---|---|---|
| Json.SetKeyFinds | schema_generator.py:368-370 | after `d[key] = value`, looking up `key` gives `value` |
| Json.SetKeyKeeps | schema_generator.py:368-370 | `d[key] = value` leaves the value of every other key unchanged |
| Json.SetKeyItems | schema_generator.py:865-868 | after `d[key] = value` the dict holds that item and every item of another key it held, and nothing else it did not hold |
| Json.SetKeyKeys | schema_generator.py:368-370 | `d[key] = value` keeps the key order; a key not yet present is appended last |
| Json.AddUniqueKeepsDistinct | schema_generator.py:1338 | adding a name to a set-as-sequence keeps its names distinct; `AddUnique` keeps the old names, adds the new one and nothing else |
| Json.TypeNameListExact | schema_generator.py:1497 | `list(types)` holds the Python name of a type exactly when the type is in the set |
| Classifiers.LikelyBinaryCases | schema_generator.py:303-318 | the empty string is never binary; a non-empty base64- or hex-shaped string always is; up to 20 characters, binary exactly when non-empty and base64-shaped; otherwise only the entropy test (more than 20 characters, over 4/5 distinct) decides |
| Classifiers.HexIsBase64 | schema_generator.py:24-27 | every string the hex pattern matches is also matched by the base64 pattern, so the hex pattern never decides anything on its own |
| Classifiers.DistinctCharsBound | schema_generator.py:313-316 | the number of distinct characters lies between 1 and the length, for a non-empty string |
| Classifiers.UrlWhitespace | schema_generator.py:325-328 | a URL starts with `http://` or `https://`, has at least two characters after it, and has no whitespace except possibly at the second character after the scheme, which may be anything but a newline |
| Classifiers.UrlWhitespaceAt | schema_generator.py:325-328 | a string with whitespace anywhere but that one position is not a URL |
| Classifiers.UrlSpaceExamples | schema_generator.py:325-328 | `http://a b` is a URL; `http://ab c`, `http:// ab` and `https://a` followed by a newline and `b` are not |
| Classifiers.DateTimeShape | schema_generator.py:330-344 | a date/time has exactly ten characters, or at least nineteen with a `T` at position 10; a string of nineteen or more characters is a date/time exactly when its first nineteen are |
| Classifiers.DateTimeExamples | schema_generator.py:330-344 | a space in place of the `T` is not a date/time; text after the nineteenth character is ignored; `MM/DD/YYYY` is accepted; an unpadded month is not; dates in Arabic-Indic digits are accepted, since `\d` matches every decimal digit |
| Classifiers.EmailMatchesRegex | schema_generator.py:320-323 | the recogniser (split at the first `@` and the last `.`) accepts exactly the strings the email regular expression matches |
| Classifiers.UuidIgnoresCase | schema_generator.py:346-349 | a string is a UUID exactly when it has 36 characters, dashes at 8, 13, 18 and 23, and hex digits of either case elsewhere |
| Classifiers.ClassifyPriority | schema_generator.py:253-261 | a string is recorded under a pattern exactly when that recogniser accepts and no higher-priority one does (email > URL > date/time > UUID); it is recorded under none exactly when all four reject |
| Profiling.ObserveParts | schema_generator.py:240-283 | one value changes each length and value bound only when it is the new least or greatest; strings and lists share the length bounds, bools never set value bounds; a classified string adds its one pattern |
| Profiling.ObserveCounts | schema_generator.py:209-215 | one value adds one to `total_count`, and one to `null_count` exactly when it is null |
| Profiling.StatsCounts | schema_generator.py:209-215 | after any values: `total_count` is their number, `null_count` is at most that, is zero exactly when no value is null, and equals the total exactly when all are null |
| Profiling.StatsTypes | schema_generator.py:213-219 | the type set holds exactly the type names of the non-null values; null never adds a type |
| Profiling.StatsBinary | schema_generator.py:249-251 | `is_binary` holds exactly when some string value looks binary |
| Profiling.StatsPatterns | schema_generator.py:253-261 | the pattern set holds exactly the patterns the string values were classified as |
| Profiling.StatsLengths | schema_generator.py:240-283 | `min_length`/`max_length` are unset exactly when no string or list was seen; once set they are attained by some value and bound every string or list length |
| Profiling.LengthBoundsOrdered | schema_generator.py:242-247 | once set, `min_length <= max_length` |
| Profiling.StatsValues | schema_generator.py:263-274 | `min_value`/`max_value` are unset exactly when no int or float was seen (a bool never counts); once set each bounds every number, compared by exact value, and is the first value seen that attains it |
| Profiling.StatsMinBound | schema_generator.py:270-272 | `min_value` is unset exactly when no number was seen, and otherwise is at most every number seen |
| Profiling.StatsMinFirst | schema_generator.py:271-272 | `min_value` is a value seen, strictly below every number seen before it |
| Profiling.StatsMaxBound | schema_generator.py:273-274 | `max_value` is unset exactly when no number was seen, and otherwise is at least every number seen |
| Profiling.StatsMaxFirst | schema_generator.py:273-274 | `max_value` is a value seen, strictly above every number seen before it |
| Profiling.ValueBoundsOrdered | schema_generator.py:270-274 | once set, `min_value <= max_value` |
| Profiling.BoolsSetNoBounds | schema_generator.py:263-274 | a field of bools sets no value bounds, although each bool reaches `_analyze_numeric_field`; its type set is `{bool}` |
| Profiling.RawTableStep | schema_generator.py:193-211 | one more member puts its key in the order if it is new and updates that key's record (a fresh one for a new key), and only that one |
| Profiling.OrderValues | schema_generator.py:194-207 | a key is in the field order exactly when some value was seen for it |
| Profiling.FieldOrderDistinct | schema_generator.py:194-207 | the field order has no duplicates and holds exactly the keys seen |
| Profiling.FieldOrderPrefix | schema_generator.py:194-207 | keys keep their first-seen position as more members arrive |
| Profiling.ObserveMember | schema_generator.py:193-232 | one iteration of the inner loop leaves order and table equal to those of the members seen so far plus this one |
| Profiling.ObserveRecord | schema_generator.py:192-232 | the inner loop over a record's members leaves order and table equal to those of all members seen so far |
| Profiling.PostProcessAll | schema_generator.py:234-236 | the post-processing loop finishes every field of the order, and only those |
| Profiling.AnalyzeFields | schema_generator.py:180-238 | the imperative profiler computes exactly the declarative profile `Profile(objects)` |
| Profiling.ProfileOrder | schema_generator.py:190-207 | the table's fields are exactly the keys some record holds, listed once each in first-seen order; profiling a first part of the records lists a prefix of that order |
| Profiling.ProfileFlags | schema_generator.py:291-301 | `required` holds exactly when no record gives the field a null; `null_percentage` is `null_count / total_count` with a positive total; `is_mixed` holds exactly when more than one type was seen |
| Profiling.ValuesOfDistinct | schema_generator.py:193 | a dict gives a key at most one value, and gives one exactly when it holds the key |
| Profiling.ProfileTotal | schema_generator.py:209-210 | for dict records, `total_count` is the number of records that hold the field |
| Profiling.MissingKeyStaysRequired | schema_generator.py:297-298 | in `[{"a": 1, "b": 2}, {"a": 3}]` the field `b` is required with `total_count` 1: a missing key does not count against it |
| Profiling.DeepenField | schema_generator.py:958-968 | one iteration of the enhancement loop gives exactly `Deepen` of the field's record |
| Profiling.AnalyzeFieldsDeep | schema_generator.py:944-970 | the imperative deep analysis computes exactly `DeepProfile(objects, max_depth)` |
| Profiling.DeepBinaryCoincides | schema_generator.py:965-968 | after the deep analysis `is_binary` and `has_nested_binary` agree, and both hold exactly when some record's value for the field contains a binary-looking string |
| Profiling.DeepNested | schema_generator.py:960-963 | a field gets a nested analysis exactly when a dict or a list was seen for it |
| Profiling.DeepNeverSetsMaxDepth | schema_generator.py:1288-1296 | no analysis writes the `max_depth` key that the smart dispatch reads; the nested analysis that is written satisfies the walk's invariant |
| Structure.JoinStartsWithRoot | schema_generator.py:1324 | a dotted path starts with its first segment |
| Structure.StructureWalker.constructor | schema_generator.py:1288-1296 | the walk starts from the empty analysis |
| Structure.StructureWalker.Record | schema_generator.py:1338-1354 | the bookkeeping for one key: field name, type name, binary key at that depth, required or optional |
| Structure.StructureWalker.Enter | schema_generator.py:1321-1334 | entering a dict raises `max_depth_found`, records the dotted path and opens the level |
| Structure.StructureWalker.AnalyzeDict | schema_generator.py:1306-1365 | the recursive walk leaves the shared analysis equal to `WalkDict` of its old state |
| Structure.StructureWalker.Visit | schema_generator.py:1337-1365 | one loop iteration leaves the analysis equal to `VisitMember` of its old state |
| Structure.StructureWalker.AnalyzeItems | schema_generator.py:1360-1365 | the loop over a list value walks each dict item one level deeper and skips the others |
| Structure.AnalyzeNestedStructuresRecursive | schema_generator.py:1276-1304 | the imperative walk over all records equals `NestedOver` |
| Structure.WalkDictInv | schema_generator.py:1306-1365 | a walk keeps the invariant (nothing at or beyond `max_depth`, depths exactly 0 .. `max_depth_found`, each key of a level required or optional there, every path rooted at the field) and only adds to the analysis |
| Structure.NestedOverInv | schema_generator.py:1318-1334 | the nested analysis of a field satisfies that invariant |
| Structure.WalkDictRecords | schema_generator.py:1336-1354 | after walking a dict below the limit, its path is recorded, and each of its keys is a field of that level, required when its value is not null and optional when it is |
| Structure.WalkItemsPaths | schema_generator.py:1360-1365 | walking a list that holds a dict, below the limit, records the list's path and opens its depth |
| Structure.ListMemberPath | schema_generator.py:1360-1365 | a member whose value is a list holding a dict is walked under `path + [key, "[]"]`, one level deeper |
| Structure.HasNestedBinary | schema_generator.py:1041-1056 | the search answers true exactly when some record holds the field with a value containing a binary-looking string at any depth |
| Schemas.FormatPriority | schema_generator.py:453-460 | the string schema's `format` is `email` exactly when an email was seen, `uri` when a URL but no email was seen, `date-time` when a date but neither of those, `uuid` when only UUIDs were; no `format` when no pattern was seen |
| Validation.ExactlyOneCount | schema_generator.py:529-530 | `oneOf` holds exactly when one alternative, counted, accepts the value |
| Validation.TwoAdmitNotExactlyOne | schema_generator.py:529-530 | two alternatives that both accept a value make `oneOf` reject it |
| Acceptance.StringOrNullAccepts | schema_generator.py:436-442 | `oneOf [string, null]` accepts exactly the strings and null |
| Acceptance.StringSchemaAccepts | schema_generator.py:433-467 | a string field with a null seen accepts strings and null without bounds; otherwise it accepts the strings within the observed length bounds; `format` and the base64 annotations narrow nothing |
| Acceptance.NumericSchemaAccepts | schema_generator.py:469-485 | a numeric field accepts integers (any number once a float was seen) within the observed value bounds |
| Acceptance.BooleanSchemaAccepts | schema_generator.py:487-489 | the boolean schema accepts exactly the bools |
| Acceptance.ArraySchemaAccepts | schema_generator.py:491-504 | the array schema accepts exactly the arrays within the observed length bounds, whatever their items |
| Acceptance.ObjectSchemaAccepts | schema_generator.py:506-511 | the object schema accepts exactly the objects |
| Acceptance.MixedCount | schema_generator.py:409-431 | the number of mixed-union alternatives accepting a value is the sum over the alternatives present, one per type seen, plus null where a null was seen |
| Acceptance.MixedAcceptsDescribed | schema_generator.py:409-431 | the mixed union accepts every non-null value whose type was seen and which lies within the recorded bounds |
| Acceptance.PropertySchemaAcceptsDescribed | schema_generator.py:377-407 | a property schema accepts every non-null value its record describes |
| Acceptance.PropertySchemaNull | schema_generator.py:377-431 | a property schema accepts null only for a single-type string field with a null seen, or a mixed field with a null seen and no string (a mixed field's string alternative already admits null, so null would match twice) |
| Acceptance.AnyValueCount | schema_generator.py:563-573 | every value matches one of the seven "any" alternatives, and an integer matches two (`number` and `integer`) |
| Acceptance.Base64StringAccepts | schema_generator.py:577-580 | the appended base64 alternative accepts every string |
| Unions.PydanticAnyAccepts | schema_generator.py:747-766 | the "Any type" union of a binary, mixed or more than 30% null field accepts exactly the non-integers |
| Unions.BinaryAwareBinaryAccepts | schema_generator.py:629-636 | the binary-aware schema of a binary field accepts exactly the strings; `contentEncoding` and `contentMediaType` narrow nothing |
| Unions.BinaryAwareMixedCount | schema_generator.py:639-653 | a string matches both string alternatives of the binary-aware mixed union; every other value matches the one alternative of its type |
| Unions.BinaryAwareMixedAccepts | schema_generator.py:637-653 | the binary-aware mixed union accepts exactly the values that are not strings |
| Unions.HardenedTextAccepts | schema_generator.py:819-823 | the hardened "Text content" alternative accepts exactly the non-empty strings |
| Unions.HardenedBinaryAccepts | schema_generator.py:824-829 | the hardened "Binary content" alternative accepts exactly the base64-shaped strings |
| Unions.HardenedMixedCount | schema_generator.py:817-857 | the hardened mixed union counted alternative by alternative: a non-empty base64-shaped string and an integer each match two alternatives |
| Unions.HardenedMixedAccepts | schema_generator.py:815-859 | the hardened mixed union accepts exactly the values that are neither integers nor non-empty base64-shaped strings |
| Unions.StrictBinaryAccepts | schema_generator.py:804-814 | the hardened schema of a binary field accepts exactly the non-empty base64-shaped strings |
| Unions.PropertySchemaTyped | schema_generator.py:388-406 | the plain property schema has `type: string` exactly for a non-mixed field that saw only strings and no null, or no type with a builder of its own; it has `type: array` exactly for a non-mixed field that saw only lists |
| Unions.NonEmptyStringShape | schema_generator.py:865-866 | setting `minLength` to 1 replaces the recorded lower bound of a string schema, or adds one; what remains is the type, `minLength: 1`, the recorded `maxLength` and annotations, with no pattern |
| Unions.BoundedArrayShape | schema_generator.py:867-868 | setting `minItems` to 0 replaces the recorded lower bound of an array schema, or adds one; what remains is the type, the recorded `maxItems` and keywords that impose nothing |
| Unions.HardenedRegularAccepts | schema_generator.py:860-868 | a regular hardened field typed `string` accepts exactly the non-empty strings within the recorded `max_length`, whatever `min_length` was recorded, so it rejects an empty string the field held; one typed `array` accepts exactly the arrays within the recorded `max_length`; any other accepts what the plain schema accepts |
| Unions.TypeOptionsCount | schema_generator.py:684-709 | the typed union's alternatives accepting a value, one per type seen, plus null, plus the binary string where binary content was seen |
| Unions.FlexibleWithTypesOneOf | schema_generator.py:711-715 | the field schema accepts what exactly one type option accepts, including the single-option case |
| Unions.FlexibleWithTypesAccepts | schema_generator.py:682-717 | the typed union always accepts null; it rejects integers once ints and floats were both seen, and every string once binary content was seen; every other value of a seen type passes |
| Unions.SmartStringAccepts | schema_generator.py:1163-1170 | the smart string alternative accepts the non-empty strings, base64-shaped ones only for a binary field |
| Unions.SmartMixedCount | schema_generator.py:1160-1191 | the smart mixed union counted alternative by alternative, one per type seen plus null |
| Unions.SmartMixedAccepts | schema_generator.py:1149-1196 | the smart mixed union rejects integers once ints and floats were both seen; any other non-null value of a seen type passes, a string when non-empty (and base64-shaped for a binary field) |
| Unions.SmartSingleTypeAccepts | schema_generator.py:1250-1274 | as for the hardened regular field, except that a binary string field also needs base64-shaped strings |
| Unions.SmartMixedEndsNull | schema_generator.py:1190-1196 | the smart mixed union ends with the null alternative, accepts null, and never accepts the empty string |
| Unions.NestedBinaryAccepts | schema_generator.py:1113-1136 | the nested-binary union accepts exactly the base64-shaped strings, the objects and the arrays |
| Unions.SmartOnDeepProfile | schema_generator.py:1087-1100 | on the deep profile the smart dispatch picks the nested-binary union for a field with binary content, else the mixed union for several types, else the single-type schema: the direct binary and nested branches are never taken |
| Generator.BuildStep | schema_generator.py:368-373 | one more field sets its property schema and appends its name to `required` exactly when its record is required |
| Generator.PropertiesShape | schema_generator.py:368-370 | `properties` holds one entry per analysed field, in first-seen order, each with the schema its style gives that field |
| Generator.RequiredShape | schema_generator.py:372-373 | `required` lists exactly the required fields, once each |
| Generator.RequiredInOrder | schema_generator.py:368-373 | `required` keeps the order of `properties`: its entries are the table's fields at strictly increasing positions |
| Generator.BuildSchema | schema_generator.py:351-375 | the loop over the table builds exactly the style's top-level schema `TopLevel` |
| Generator.ValidateSchema | schema_generator.py:513-535 | no index is reported exactly when every record passes; a reported index is the first record the schema rejects |
| Generator.AnalyzeObjects | schema_generator.py:156-178 | an empty input fails; otherwise it returns the plain schema exactly when that schema accepts every record, and else fails at the first record it rejects |
| Generator.GenerateFlexibleSchema | schema_generator.py:537-584 | an empty input fails; otherwise the flexible schema of the profile |
| Generator.GenerateBinaryAwareSchema | schema_generator.py:586-616 | an empty input fails; otherwise the binary-aware schema of the profile |
| Generator.GenerateFlexibleWithTypesSchema | schema_generator.py:658-719 | an empty input fails; otherwise the typed flexible schema of the profile |
| Generator.GeneratePydanticModelWithAny | schema_generator.py:721-776 | an empty input fails; otherwise the pydantic-style schema of the profile |
| Generator.GenerateHardenedBinarySchema | schema_generator.py:778-875 | an empty input fails; otherwise the hardened schema of the profile |
| Generator.GenerateSmartHardenedSchemaWithDepth | schema_generator.py:897-930 | an empty input fails; otherwise the smart schema of the deep profile at that depth |
| Generator.GenerateSmartHardenedSchema | schema_generator.py:877-895 | the smart schema at depth 100 |
| Soundness.TopDeclared | schema_generator.py:364-370 | the names a top-level schema declares are the table's fields, in order |
| Soundness.RequiredHolds | schema_generator.py:365-373 | the `required` part holds exactly when, for a style that lists it, every listed name is present |
| Soundness.ExtraHolds | schema_generator.py:795-801 | the `additionalProperties` part rejects an undeclared key exactly for the closed styles |
| Soundness.SmartExtraHolds | schema_generator.py:914-929 | the smart top level accepts only records whose keys are all declared |
| Soundness.TopLevelAccepts | schema_generator.py:351-375 | a top-level schema accepts a record exactly when its analysed fields pass their schemas, its required fields are present (where listed) and, for the closed styles, it has no other field |
| Soundness.ProfileDescribes | schema_generator.py:209-232 | every non-null value a record gives a field is described by that field's profile record (type seen, within the bounds) |
| Soundness.ProfileNulls | schema_generator.py:297-301 | `null_percentage > 0` exactly when some record gives the field a null |
| Soundness.MemberAccepted | schema_generator.py:377-431 | a record's member passes its plain property schema unless it is a null in a field whose schema rejects null |
| Soundness.PlainFieldsAccept | schema_generator.py:368-370 | a record's fields all pass exactly when each of its nulls sits in a field whose schema admits null |
| Soundness.PlainAcceptsRecord | schema_generator.py:170-176 | the self-check passes a record exactly when each of its nulls is admitted and it holds every field the profile marks required |
| Findings.ProfileTypes | schema_generator.py:213-219 | a field's types are the type names of the non-null values the records give it |
| Findings.PlainAcceptsComplete | schema_generator.py:170-176 | a record without nulls that holds every key any record holds passes the plain schema |
| Findings.NullableFieldRejected | schema_generator.py:388-407 | on `[{"a": 1}, {"a": null}]` the plain schema accepts the first record and rejects the second |
| Findings.MissingFieldRejected | schema_generator.py:297-298 | on `[{"a": 1, "b": 2}, {"a": 3}]` the plain schema accepts the first record and rejects the second |
| Findings.MissingFieldRequired | schema_generator.py:372-373 | on that input `b` is listed as required, so the second record fails |
| Findings.NullableNull | schema_generator.py:427-431 | the corrected field schema admits null exactly when some record gave the field a null |
| Findings.NullableDescribed | schema_generator.py:377-407 | the corrected field schema still admits every non-null value its record describes |
| Findings.CorrectedRequired | schema_generator.py:372-373 | with `required` kept only for fields every record holds, every record holds every required field |
| Findings.CorrectedAcceptsRecord | schema_generator.py:170-176 | the corrected plain schema accepts each record it was built from |
| Findings.CorrectedAcceptsAll | schema_generator.py:170-176 | the corrected plain schema accepts all the records it was built from |
| Findings.AnalyzeObjectsCorrected | schema_generator.py:156-178 | with the corrected schema, `_analyze_objects` fails only on empty input, and the schema it returns accepts every record |
| Findings.FlexibleAccepts | schema_generator.py:563-580 | the flexible field union accepts exactly the non-integers, and, for a binary field, rejects every string as well |
| Findings.FlexibleRejectsIntegers | schema_generator.py:561-582 | the flexible schema rejects every record that gives an analysed field an integer |
| Findings.AnyValueAdmitsAll | schema_generator.py:563-573 | the same alternatives under `anyOf` accept every value |
| Report.CountField | schema_generator.py:1505-1535 | one iteration of the summary loop updates the four counters as `Tally` says |
| Report.AnalyzeObjectsWithDepth | schema_generator.py:1463-1539 | an empty input fails; otherwise the report of the deep profile (`ReportOf`) |
| Report.FieldsOfEntries | schema_generator.py:1495-1537 | the report has one entry per analysed field, carrying that field's analysis |
| Report.CountersBounds | schema_generator.py:1528-1535 | no counter exceeds the number of fields; each is zero exactly when no field has the property it counts |
| Report.CountersMaxDepth | schema_generator.py:1524-1527 | `max_nested_depth_found` is the largest depth among the nested fields, or zero when there is none |
| Report.ReportFieldCount | schema_generator.py:1486 | `total_fields` is the number of entries in `fields` |
| Report.NestedDepthBelow | schema_generator.py:1318-1321 | a field's `max_depth_found` is zero or below `max_depth` |
| Report.ReportDepthBound | schema_generator.py:1524-1527 | the summary's `max_nested_depth_found` is zero or below `max_depth` |
| Report.ReportFieldOf | schema_generator.py:1495-1503 | the report entry of a field is built from that field's deep analysis |
| Report.ReportNesting | schema_generator.py:1506-1511 | a field gets `nested_structure` exactly when its `types` list names `dict` or `list` |
| Report.ReportTypes | schema_generator.py:1495-1522 | a field's `types` names exactly the types seen in it; its `nested_structure` is present exactly when the deep analysis has one, with the same depths in `structure_hierarchy`, and each level's `types` names exactly the types seen at that depth |
| Report.ReportBinary | schema_generator.py:1500-1502 | a field is reported binary exactly when binary content was found in it, and then `has_nested_binary` is reported too |

## Left out

- Reading NDJSON text and files (`parse_ndjson`, `parse_ndjson_file`,
  `stream_ndjson`, `schema_generator.py:42-106`) and the `analyze_ndjson*`
  wrappers, including their sampling (`schema_generator.py:108-154`). These
  are I/O and JSON decoding; the model starts from decoded records.
- Logging, and the branch of `_validate_schema` that skips the check when
  `jsonschema` cannot be imported. The model always validates.
- `jsonschema` itself is a library call. `Validation.Admits` states the
  draft 2020-12 meaning of the keywords the builders emit.
  - `format`, `contentEncoding`, `contentMediaType`, `description`,
    `examples` and `$schema` are annotations.
  - `pattern` is interpreted only for the base64 pattern the builders emit.
- Floats are exact rationals. NaN and infinities are not modelled.
- Regular expressions are read as whole-string matches. Python's `$` also
  matches before a final newline, so a string ending in `\n` that `re.match`
  accepts is rejected here. `str.lower()` is modelled on ASCII letters only.
  Strings are sequences of Unicode scalar values, so a Python `str` holding a
  lone surrogate (as `json.loads('"\\ud800"')` gives) has no counterpart.
- Classifiers.IsDecimal: `\d` matches the decimal digits of Unicode 15.0,
  the version Python 3.12 uses; other Python versions know a slightly
  different set of scripts.
- The `values` list that `_analyze_fields` keeps per field is never read
  again and is not modelled.
- The nested analysis also carries `mixed_types_at_depth`,
  `required_fields_at_depth` and `optional_fields_at_depth`
  (`schema_generator.py:1293-1295`). They stay empty, `analysis.update`
  copies them into the field record, and nothing reads them, so
  `NestedAnalysis` leaves them out.
- Python's recursion limit: `_contains_binary_recursive`
  (`schema_generator.py:1058-1074`) has no depth bound, and
  `_analyze_dict_structure_recursive` goes as deep as `max_depth` allows,
  so very deeply nested values or a very large `max_depth` raise
  `RecursionError` in Python. The model's recursion never fails.
- Records are member lists. Lemmas that need Python's guarantee that a dict
  holds each key once state it as a precondition (`DistinctKeys`).
- The free-text `description` strings carry no contract.
- `list(...)` of a set of types is built in one fixed order (str, int,
  float, bool, list, dict, NoneType), since Python leaves the iteration
  order of a set unspecified. The report's contracts speak of which names
  are listed, not of their order.
- Sets of strings (level fields, paths) are listed in first-insertion order.
- The report's `fields` and `structure_hierarchy` are maps, so the order in
  which Python's dicts hold fields and depths is not kept. Nothing in the
  code reads that order.
- `_analyze_nested_structures` and `_analyze_structure_depth`
  (`schema_generator.py:972-1039`) are never called by any entry point and
  are not modelled.
- `_generate_smart_nested_schema`, `_generate_recursive_nested_schema`,
  `_generate_nested_level_schema` and `_generate_base_object_schema`
  (`schema_generator.py:1198-1248`, `1367-1461`) are written out as
  functions in `Schemas` without acceptance lemmas. `Unions.SmartOnDeepProfile`
  shows the smart dispatch never reaches them, because no analysis sets
  `max_depth`.
- `api.py` and the repository's example and test scripts are not part of
  this model.
- Behaviour the code does not have, so neither does the model:
  - no widening of one type into another;
  - no counting of missing keys against `required`;
  - no minimum length in the binary test beyond the non-empty check;
  - no majority rule for mixed fields.

## Findings

| source | as written | input that shows it | evidently intended | confidence | as-written member | corrected member |
|---|---|---|---|---|---|---|
| schema_generator.py:388-431 | a single-type non-string field with a null seen gets a schema without a `null` alternative; a mixed field with a string and a null seen admits null twice, so `oneOf` rejects it | `[{"a": 1}, {"a": null}]`: `a` gets `{"type": "integer"}`, the second record fails and `_analyze_objects` raises | a field's schema admits null exactly when some record gave it a null | high (not executed) | Findings.NullableFieldRejected | Findings.NullableNull |
| schema_generator.py:297-298 | `required` is set from `null_count == 0` alone, so a key that some record lacks is still required | `[{"a": 1, "b": 2}, {"a": 3}]`: `b` is required, the second record fails and `_analyze_objects` raises | a field is required only when every record holds it | high (not executed) | Findings.MissingFieldRejected | Findings.CorrectedRequired |
| schema_generator.py:563-573 | the "permissive" field schema is a `oneOf` listing both `number` and `integer`, so every integer matches two alternatives | `[{"a": 1}]`: the flexible schema rejects its own input | accept any value (`anyOf`) | high (not executed) | Findings.FlexibleRejectsIntegers | Findings.AnyValueAdmitsAll |

Together, the two corrections give a plain schema that accepts every record
it was built from (`Findings.CorrectedAcceptsAll`), and with it
`_analyze_objects` fails only on empty input
(`Findings.AnalyzeObjectsCorrected`). The same overlap of `number` and
`integer` appears in the pydantic-style, hardened and smart unions, and the
overlap of two string alternatives in the binary-aware and hardened ones.
The `Unions` lemmas state the values each of those rejects.
