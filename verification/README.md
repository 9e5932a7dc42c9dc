# minyaml document construction, modelled in Dafny

`_minyaml` is the C loader behind a PyYAML-compatible `safe_load`. It pulls events from a
libyaml parser and builds Python values from them. A registry of builders turns each scalar
text into a value. Each builder has:

- a tag;
- an optional compiled regular expression (the str, bool and binary builders and the builders
  of Python resolvers have none);
- an optional C constructor;
- an optional Python resolver and Python constructor.

Collections become lists, pairs lists, dicts or sets. The `<<` merge key merges without
overriding. Anchors are bound in a per-document alias dictionary. `check_data`, `get_data` and
`get_single_data` walk the stream one document at a time.

The model follows the C file one component per module:

| module | holds |
|---|---|
| `Outcome` | the Python exceptions as error values, and a `Result` datatype |
| `Values` | the value tree; dict entries with Python key equality (`True == 1`); `PyDict_SetItem` as `Put`; `PyDict_Merge(…, 0)` as `Merge` |
| `Events` | the event stream as a sequence, and `_parse_next` as `Pull` |
| `Text` | the C string routines the constructors use: `strchr`, `atoi`, `PyLong_FromString` and the in-place `_remove_digit_separator`, kept as a method over an `array<char>` |
| `Patterns` | recognisers for the anchored regular expressions of the built-in builders, with the group spans `pcre_exec` reports |
| `Scalars` | `_to_bool`, `_to_str` and `_to_int`; `_to_int` is a method that edits its own copy of the buffer |
| `Calendar`, `Timestamps` | `_to_timestamp`, with the proleptic Gregorian calendar of `datetime` |
| `Registry` | the builder list as a class whose `seq` field the registration methods update |
| `Resolve` | `_match_tag`, `_match_builder` and `_build_scalar`, as functions and as the methods that loop over the list |
| `Construction` | the node builders as functions of the event list and a position; they specify the loader |
| `Facts` | what those functions promise about sequences, pairs, mappings, merges, sets, aliases and documents |
| `Loader` | the loader object as a class that advances through the events, its `do … while` builders as loops proved equal to the `Construction` functions, and the alias dictionary as a class |

The Python side is the `Python.Host` parameter. It holds resolvers' `match`, user constructors,
`float()` and `base64.decodebytes`.

A document whose root node is missing, that is, a document end where the root should be, is
handled by `_build_document` (`ext/_minyaml.c:988-1027`) as follows. It leaves the document
NULL and then awaits a second document end. When one follows, the value is None. When anything
else follows, the code releases the still-NULL document with `Py_DECREF` (`ext/_minyaml.c:1018`)
before it raises "awaited end of document". The model gives that error. `Facts.DocumentWithoutRoot`
states both cases. libyaml itself reports an empty document as one empty plain scalar, and
`Resolve.BuiltinNullTexts` shows that this resolves to None.

`_to_timestamp` applies the time zone in single borrow-or-carry steps. Local fields out of
range are carried once, as the code carries them: `10:99:00` is 11:39, and day 32 of December
at `01:00:00+05:00` is 20:00 on the 31st. The loader uses `Timestamps.ZoneApplied`. It keeps
these steps and puts right the two faults listed under "## Findings".

## Model

All source paths are in `ext/_minyaml.c`.

| member | source | states |
|---|---|---|
| Values.IndexOf | ext/_minyaml.c:955 | the index found holds a key Python-equal to the one sought and is the first such; None means no key is equal |
| Values.Put | ext/_minyaml.c:955 | `PyDict_SetItem`: the key now maps to the value; every other key reads as before; a new key is appended to the key order and an existing one keeps its place |
| Values.IndexOfAppend | ext/_minyaml.c:955 | appending an entry changes the lookup only for keys no earlier entry has |
| Values.Merge | ext/_minyaml.c:929-938 | `PyDict_Merge(…, 0)` adds at most one entry per source entry and never drops one |
| Values.MergeLookup | ext/_minyaml.c:929-938 | `PyDict_Merge(…, 0)` never overrides: a key the target has keeps its value, and any other key reads as in the source dict |
| Values.MergeExtends | ext/_minyaml.c:929-938 | the target is a prefix of the merge result, in order and with its values |
| Values.MergeKeepsKeysUnique | ext/_minyaml.c:929-938 | merging keeps the dict's keys unique |
| Values.PutKeepsKeysUnique | ext/_minyaml.c:955 | storing a pair keeps the dict's keys unique |
| Values.MergeEach | ext/_minyaml.c:926-935 | a list under `<<` merges only if every element is a dict; otherwise the error is the one for a non-dict element |
| Text.CStr | ext/_minyaml.c:254-272 | what C sees of a buffer: the longest NUL-free prefix, ended by a NUL when it is shorter than the buffer |
| Text.Subject | ext/_minyaml.c:165-200 | the subject an anchored pattern sees: the text, or the text without one final newline |
| Text.Scanned | ext/_minyaml.c:218-230 | the walk stops at `length`, at the buffer's end or at the first NUL, and at nothing earlier |
| Text.Kept | ext/_minyaml.c:218-230 | the characters that survive separator removal: no separator left, none invented |
| Text.SeparatorsRemoved | ext/_minyaml.c:218-230 | the buffer after removal has its original length |
| Text.SeparatorsRemovedParts | ext/_minyaml.c:218-230 | before the span nothing changes; the walked span becomes its kept characters followed by NUL fill; after the walk nothing changes |
| Text.StrChr | ext/_minyaml.c:299-313 | `strchr`: the first occurrence at or after the start, or none in the rest of the C string |
| Text.RemoveDigitSeparator | ext/_minyaml.c:218-230 | the in-place array algorithm leaves exactly `SeparatorsRemoved` of the old buffer |
| Text.ShiftKept | ext/_minyaml.c:220-226 | the first loop copies the kept characters to the front of the span, walks `Scanned` characters and touches nothing outside the walked span |
| Text.FillNul | ext/_minyaml.c:227-229 | the second loop NUL-fills exactly the cells between the kept characters and the end of the walk |
| Text.KeptCounts | ext/_minyaml.c:218-230 | removal deletes only separators: every other character occurs as often as before |
| Text.KeptIdempotent | ext/_minyaml.c:218-230 | a span without separators is left unchanged, so removal is idempotent |
| Text.CompactReadsAsKept | ext/_minyaml.c:293-315 | after removal a C reader of the span sees exactly the kept characters |
| Patterns.NullMatch | ext/_minyaml.c:249-252 | the null pattern has no groups, and accepts only texts of at most four characters |
| Patterns.TrueMatch | ext/_minyaml.c:274-277 | the true pattern's group 1 is the whole text, of two to four characters |
| Patterns.FalseMatch | ext/_minyaml.c:279-282 | the false pattern's group 1 is the whole text, of two to five characters |
| Patterns.FloatMatch | ext/_minyaml.c:465-528 | the float pattern accepts only non-empty texts and reports only groups inside them |
| Patterns.IntMatch | ext/_minyaml.c:465-528 | every group the int pattern reports lies inside the text and is not empty |
| Patterns.TimestampMatch | ext/_minyaml.c:465-528 | every group the timestamp pattern reports lies inside the text and is not empty |
| Patterns.Match | ext/_minyaml.c:165-200 | `pcre_exec` of a built-in pattern reports only groups inside the text |
| Patterns.Group | ext/_minyaml.c:232-239 | `_ovector_at`: a group beyond those the match reported is NULL, and a set group is the span the match reported for it |
| Patterns.Captured | ext/_minyaml.c:232-239 | a group is set exactly when its span is not empty, so an empty group reads as NULL |
| Events.Pull | ext/_minyaml.c:536-572 | `_parse_next`: the position advances unless the stream is exhausted; the status is an error exactly for a parser error and Done exactly for the awaited closing event |
| Registry.CBuilder | ext/_minyaml.c:80-117 | `_new_c_builder`: the tag and C constructor given, and no Python resolver or constructor |
| Registry.ImplicitBuilders | ext/_minyaml.c:465-528 | `_init_implicit_builders`: nine builders, each with a C constructor and no Python resolver or constructor |
| Registry.Registered | ext/_minyaml.c:1205-1246 | registering a known tag keeps the list's length; a new tag appends one builder with that tag after the old list |
| Registry.Tags | ext/_minyaml.c:574-584 | the tags of the list, in list order |
| Registry.FindTag | ext/_minyaml.c:574-584 | `_match_tag`: the first builder with the tag, or none has it |
| Registry.Updated | ext/_minyaml.c:1214-1225 | the builder keeps its tag and C fields; a supplied resolver or constructor replaces the old one, and an absent one leaves it |
| Registry.RegisteredKeepsOrder | ext/_minyaml.c:1205-1246 | registration never reorders or drops builders: only the first builder with the tag changes, and a new tag is appended |
| Registry.FindTagFirst | ext/_minyaml.c:574-584 | the first builder with the tag is the one found |
| Registry.RegisteredBuilder | ext/_minyaml.c:1205-1246 | after registration the builder for the tag carries the supplied resolver and constructor and keeps what was not supplied |
| Registry.RegisteredWellFormed | ext/_minyaml.c:1205-1246 | registration keeps tags unique and the C fields consistent |
| Registry.ImplicitBuildersWellFormed | ext/_minyaml.c:465-528 | the built-in list is well formed, in the order null, bool, true, false, int, float, timestamp, str, binary |
| Registry.ImplicitIntBuilder | ext/_minyaml.c:465-528 | the built-in int builder is the only one with the int tag, and it has the int pattern and `_to_int` |
| Registry.BuilderList.constructor | ext/_minyaml.c:465-528 | `_init_implicit_builders` sets up the built-in list, which is well formed |
| Registry.BuilderList.AddResolverConstructor | ext/_minyaml.c:1205-1246 | the loop over the list leaves exactly `Registered` of the old list, which stays well formed |
| Registry.BuilderList.AddConstructor | ext/_minyaml.c:1248-1263 | a non-callable constructor is refused and the list is unchanged; otherwise the constructor is registered for the tag |
| Registry.BuilderList.AddResolver | ext/_minyaml.c:1265-1280 | a resolver without `match` is refused and the list is unchanged; otherwise it is registered for the tag |
| Scalars.ToBool | ext/_minyaml.c:254-272 | `_to_bool`: succeeds exactly on the true and false words, and is true exactly on a true word; any other text is the bool-value error |
| Scalars.ToStr | ext/_minyaml.c:456-463 | `_to_str`: the C string of the text, which is the whole text when it has no NUL |
| Scalars.ResolvedBoolsAgree | ext/_minyaml.c:254-282 | every text the true or false resolver accepts is read by `_to_bool` with the same truth value |
| Scalars.WordsDisjoint | ext/_minyaml.c:254-272 | no word is both true and false |
| Scalars.ShortBoolsOnlyExplicit | ext/_minyaml.c:254-272 | `y` and `n` are bools only under an explicit bool tag; no implicit resolver accepts them |
| Scalars.IntValue | ext/_minyaml.c:284-316 | `_to_int`: the wrong-format error exactly when the int pattern refuses the text; otherwise an int or the invalid-literal error of `PyLong_FromString` |
| Scalars.IntFromCaptures | ext/_minyaml.c:294-315 | `_to_int` after the match: an int or the invalid-literal error of `PyLong_FromString`, never the wrong-format error; `Scalars.ReadInt` is the array body proved equal to it |
| Scalars.ReadInt | ext/_minyaml.c:284-316 | the body of `_to_int` gives `IntFromCaptures` of the text |
| Scalars.ReadOctal | ext/_minyaml.c:293-298 | the octal branch, separators removed in place, gives `OctalValue` of the buffer |
| Scalars.ReadSexagesimal | ext/_minyaml.c:299-313 | the sexagesimal branch gives `SexagesimalValue` of the buffer |
| Scalars.FoldSexagesimal | ext/_minyaml.c:305-312 | the colon loop computes Horner's rule in base 60 over the colon groups |
| Scalars.ReadPrefixed | ext/_minyaml.c:314-315 | the remaining branch, separators removed, gives `PrefixedValue` of the buffer |
| Scalars.SexagesimalExamples | ext/_minyaml.c:284-316 | `1:10` is the int 70 and `1:10:00` is 4200 |
| Scalars.SexagesimalMatches | ext/_minyaml.c:465-528 | the int pattern reads `1:10` and `1:10:00` as a sexagesimal head and colon groups |
| Scalars.Sexagesimal70 | ext/_minyaml.c:299-313 | the sexagesimal reading of `1:10` is 70 |
| Scalars.Sexagesimal4200 | ext/_minyaml.c:299-313 | the sexagesimal reading of `1:10:00` is 4200 |
| Scalars.SexagesimalGroups4200 | ext/_minyaml.c:305-312 | the colon loop over `:10:00` after the head 1 ends at 4200 |
| Calendar.NextDay | ext/_minyaml.c:438-442 | the following calendar day, one day number later |
| Calendar.PreviousDay | ext/_minyaml.c:433-437 | the preceding calendar day, one day number earlier |
| Calendar.ShiftDays | ext/_minyaml.c:432-442 | the calendar date exactly `n` days away |
| Calendar.DayNumberInjective | ext/_minyaml.c:444 | two calendar dates with the same day number are the same date |
| Timestamps.DateOf | ext/_minyaml.c:389 | `PyDate_FromDate`: a date exactly when the fields are a valid date, otherwise the ValueError |
| Timestamps.DateTimeOf | ext/_minyaml.c:444 | `PyDateTime_FromDateAndTime`: a datetime exactly when the fields are valid, otherwise the ValueError |
| Timestamps.ZoneAppliedAsWritten | ext/_minyaml.c:421-442 | the adjustment as written moves the day, hour and minute together by `tzh * 60 + tzm` minutes, without touching year, month, seconds or microseconds |
| Timestamps.ToUtc | ext/_minyaml.c:421-442 | the intended adjustment: a stamp on the calendar and the clock, exactly `offset` minutes earlier |
| Timestamps.MinuteNumberInjective | ext/_minyaml.c:421-442 | a minute number names one calendar minute |
| Timestamps.ToUtcUnique | ext/_minyaml.c:421-442 | `ToUtc` is the only stamp on the calendar and the clock `offset` minutes before the local one |
| Timestamps.AsWrittenRightWhenValid | ext/_minyaml.c:421-442 | whenever the as-written adjustment yields fields `datetime` accepts, they agree with the intended UTC time |
| Timestamps.ZoneFindings | ext/_minyaml.c:421-442 | the concrete inputs on which the adjustment as written gives a wrong time or a ValueError, beside the intended results, which the corrected steps give |
| Timestamps.ZoneApplied | ext/_minyaml.c:421-442 | the corrected steps keep seconds and microseconds; for a local stamp on the calendar and the clock and a zone under 24 hours they give exactly the UTC stamp `ToUtc` |
| Timestamps.ZoneAppliedAgrees | ext/_minyaml.c:421-442 | the corrected steps give what the source's steps give, unless the source leaves minute 60 or hour 24 or runs a calendar day off its month |
| Timestamps.CarriedLocalFields | ext/_minyaml.c:401-444 | minute 99, hour 25 and day 32 are carried once into a valid stamp, by the source and by the corrected steps alike |
| Timestamps.ZoneEquivalence | ext/_minyaml.c:407-442 | `2001-12-15T02:59:43.1Z` and `2001-12-14T21:59:43.10-05:00` name the same instant, as written and as intended |
| Timestamps.Micros | ext/_minyaml.c:407-415 | the fraction read to `n` places is below 10^n |
| Timestamps.ZoneOffset | ext/_minyaml.c:416-419 | no zone means offset 0 |
| Timestamps.ZoneReadAsWritten | ext/_minyaml.c:416-432 | for a positive zone the offset applied as written is the intended one; for a negative zone with minutes it is not |
| Timestamps.ZoneOffsetIsSigned | ext/_minyaml.c:416-419 | the zone's offset is the zone hour and the zone minutes, the minutes taking the sign of the hour |
| Timestamps.TimestampFromCaptures | ext/_minyaml.c:380-444 | a date-only text gives a date, a full text gives a datetime, and the only failure is the invalid-date error |
| Timestamps.NoGroupsIsInvalidDate | ext/_minyaml.c:392-444 | a full timestamp read with no group set has every field 0 and is the invalid-date error |
| Timestamps.TimestampIsUtc | ext/_minyaml.c:393-444 | for local fields on the calendar and the clock and a zone under 24 hours, a full timestamp is the local time moved to UTC by the zone's offset |
| Timestamps.TimestampAsWritten | ext/_minyaml.c:380-444 | the source's `_to_timestamp`: a date-only text is read as the corrected version reads it; a full text gives a datetime or the invalid-date error |
| Timestamps.ToTimestamp | ext/_minyaml.c:368-445 | a text the pattern refuses is the wrong-format error; otherwise it is read from the pattern's captures |
| Resolve.MatchBuilder | ext/_minyaml.c:165-200 | `_match_builder`: a hit hands the constructor either no groups or the groups of the builder's own pattern |
| Resolve.Scan | ext/_minyaml.c:586-619 | the first builder, from `from` on, that accepts the text; None exactly when every builder refuses; an error is one some builder's resolver raised |
| Resolve.Regrouped | ext/_minyaml.c:165-216 | the groups a C constructor reads: those it was handed, else the builder is matched again; an error or a refusal of that match comes back as such, and an acceptance by a Python resolver sets no group |
| Resolve.CConstruct | ext/_minyaml.c:605-612 | the C constructors: null gives None, true and false their bool, str a NUL-free str; bool, int and timestamp succeed only with a bool, an int, a date or datetime; handed no groups, int and timestamp match again through the builder, Python resolver first, and its refusal is their wrong-format error, while an acceptance by it makes int read the whole text by its prefix |
| Resolve.PatternOnlyConstructors | ext/_minyaml.c:284-445 | for a builder whose only matcher is the int or the timestamp pattern, the int and timestamp constructors give `Scalars.IntValue` and `Timestamps.ToTimestamp`, whether the groups were handed over or found again |
| Resolve.Construct | ext/_minyaml.c:605-619 | a builder with no constructor leaves the text a str; only a constructor can fail; the null, true, false and str constructors never fail |
| Resolve.BuildScalar | ext/_minyaml.c:586-619 | `_build_scalar`: an unknown explicit tag is the no-constructor error; an untagged text no builder accepts is a str |
| Resolve.ExplicitTagIgnoresResolvers | ext/_minyaml.c:589-612 | an explicitly tagged scalar is built by the first builder with that tag, handed no groups; registries that agree on that builder build it alike, and so do hosts that differ only in their resolvers when that builder has no Python resolver |
| Resolve.IntUnderTag | ext/_minyaml.c:586-619 | under `!!int`, a C int builder with a Python resolver gives the wrong-format error when the resolver refuses, its exception when it raises, and the whole text read by its prefix when it accepts; with only the int pattern it gives `Scalars.IntValue` |
| Resolve.ExplicitIntAsksPythonResolver | ext/_minyaml.c:284-316 | once a Python resolver is registered for the int tag of a C int builder (the built-in one, by `Registry.ImplicitIntBuilder`), an explicit `!!int` text is the wrong-format error whenever that resolver refuses it, whatever the int pattern says; its exception propagates; its acceptance reads the whole text by its prefix |
| Resolve.ScanSkipsExplicitOnly | ext/_minyaml.c:598-603 | a builder with neither a Python resolver nor a pattern is never chosen for an untagged scalar |
| Resolve.ScanAppend | ext/_minyaml.c:598-603 | a builder appended to the list is consulted only when every earlier one refuses |
| Resolve.NewTagNeverShadows | ext/_minyaml.c:1205-1246 | registering a new tag never changes what an untagged scalar that some builder accepts resolves to |
| Resolve.FirstAccepting | ext/_minyaml.c:598-603 | the loop over the builders finds what `Scan` specifies |
| Resolve.ResolveScalar | ext/_minyaml.c:586-619 | the step-by-step `_build_scalar` gives `BuildScalar` of its inputs |
| Resolve.BuiltinNullTexts | ext/_minyaml.c:249-252 | with the built-in list, an untagged `~`, `null`, `Null`, `NULL` or empty text is None |
| Resolve.BuiltinBoolTexts | ext/_minyaml.c:274-282 | with the built-in list, an untagged true or false word is that bool |
| Resolve.LeadingBuiltinMatches | ext/_minyaml.c:465-528 | the first four built-in builders decide by their own patterns, and the bool builder has none |
| Resolve.TrueBuilderReached | ext/_minyaml.c:274-277 | a text the null pattern refuses and the true pattern accepts is True |
| Resolve.FalseBuilderReached | ext/_minyaml.c:279-282 | a text only the false pattern accepts is False |
| Construction.SaveAlias | ext/_minyaml.c:621-632 | `_save_alias`: an anchor is then bound to the value, and every other anchor reads as before |
| Construction.LoadAlias | ext/_minyaml.c:634-646 | `_load_alias`: succeeds exactly for a bound anchor; otherwise the error names the anchor |
| Construction.RebindingWins | ext/_minyaml.c:621-646 | an alias sees the value its anchor was bound to last |
| Construction.IsKeyMerge | ext/_minyaml.c:876-884 | `_is_key_merge`: a key merges exactly when it is a str whose C string is `<<`: two angle brackets, then the end of the text or a NUL, so `"<<\0x"` merges as in C |
| Construction.KeyMergeExamples | ext/_minyaml.c:876-884 | `<<` and `<<` followed by a NUL and more text are merge keys; `<<<` and `<` are not |
| Construction.Insert | ext/_minyaml.c:922-961 | every branch of the pair step: an unhashable key, a stored key, a dict merged without override, a list merged only if all elements are dicts, anything else refused; a merge never changes a value already present |
| Construction.MergeEachKeeps | ext/_minyaml.c:926-935 | merging a list never changes a value the dict already held |
| Construction.MergeEachKeepsKeysUnique | ext/_minyaml.c:926-935 | merging a list keeps the keys unique |
| Construction.InsertKeepsKeysUnique | ext/_minyaml.c:922-961 | every pair step keeps the dict a dict |
| Construction.Promoted | ext/_minyaml.c:973-980 | when every value was None, the result is the set of exactly the keys; otherwise it is the dict |
| Construction.BuildValue | ext/_minyaml.c:661-702 | `_build_value`: a node consumes only events after it; an alias is its anchor's value or the unknown-alias error; an event that begins no node is an error |
| Construction.Saved | ext/_minyaml.c:670-695 | binding the anchor after a node changes neither its value nor where it ends |
| Construction.Custom | ext/_minyaml.c:704-716 | `_build_custom`: a tag without a Python constructor is the unknown-tag error, and a success ends where the collection ended |
| Construction.SeqLoop | ext/_minyaml.c:718-763 | `_build_seq`: the list built starts with the items so far and ends after the sequence end |
| Construction.PairsLoop | ext/_minyaml.c:765-874 | `_build_pairs`: the tuples built start with those so far |
| Construction.MapLoop | ext/_minyaml.c:886-986 | `_build_map`: the result is a dict with unique keys, or a set only while every value was None |
| Construction.BuildDocument | ext/_minyaml.c:988-1027 | `_build_document` succeeds only by consuming the document end |
| Construction.CheckData | ext/_minyaml.c:1117-1144 | `check_data`: skips a stream start; true after a document start, false after the stream end; an exhausted stream or any other event is the document-start error |
| Construction.SingleDataAsWritten | ext/_minyaml.c:1164-1198 | `get_single_data` as written: it succeeds only on a second `check_data` that finds the stream end, and a second document is the single-document error |
| Construction.SingleData | ext/_minyaml.c:1164-1198 | a stream with no document gives None |
| Facts.SeqOfScalars | ext/_minyaml.c:718-763 | a sequence of scalars is the list of their values in event order |
| Facts.PairsOfScalars | ext/_minyaml.c:765-874 | a pairs list keeps every (key, value) tuple in event order, duplicates included |
| Facts.PairsNeedOpening | ext/_minyaml.c:786-793 | an element of a pairs list that is not a mapping is the opening-pair error |
| Facts.PairsNeedClosing | ext/_minyaml.c:851-860 | a pairs element with a second key is the closing-pair error |
| Facts.PutAllSnoc | ext/_minyaml.c:955 | storing one more pair is one more `PyDict_SetItem` |
| Facts.PutAllHasKeys | ext/_minyaml.c:955 | every stored key is found in the dict |
| Facts.PutAllKeysFrom | ext/_minyaml.c:955 | every key of the dict was either there before or was stored |
| Facts.MapOfScalars | ext/_minyaml.c:886-986 | a mapping of scalar keys and values, none of them `<<`, is the dict of its pairs stored in order, or the set of its keys when every value is None |
| Facts.SetPromotion | ext/_minyaml.c:965-978 | a mapping whose values are all None is a set of exactly its keys; otherwise it is a dict |
| Facts.PromotedPairs | ext/_minyaml.c:965-978 | the same stated on the pairs alone: the set of keys, or the dict where the last pair's value is under its key |
| Facts.LastPairWins | ext/_minyaml.c:955 | in a dict built from pairs, a repeated key holds its last value |
| Facts.EmptyMappingIsEmptySet | ext/_minyaml.c:973-978 | `{}` builds the empty set, because no value was anything but None |
| Facts.CoreCollectionTags | ext/_minyaml.c:667-688 | the `map`, `set` and `seq` tags build exactly what no tag builds |
| Facts.MergeFirstWriterWins | ext/_minyaml.c:922-952 | in `{a: x, <<: {a: y, b: z}}` the key `a` keeps `x`, `b` is added, and `<<` is not stored |
| Facts.MergeOfAllNoneMappingFails | ext/_minyaml.c:936-951 | `<<` over a mapping whose values are all None is the dict-or-list error, because that mapping became a set |
| Facts.AnchorThenAlias | ext/_minyaml.c:621-646 | `[&a s, *a]` is the list of the scalar's value twice |
| Facts.AnchorBoundAfterNode | ext/_minyaml.c:661-702 | a collection's anchor is bound only once the collection is complete, so an alias inside it to that anchor is unknown |
| Facts.DocumentOfRoot | ext/_minyaml.c:988-1027 | a document is its root node followed by the document end; any other event there is an error, and aliases never reach across documents |
| Facts.DocumentWithoutRoot | ext/_minyaml.c:988-1027 | a document end where the root should be gives None only if a second document end follows; otherwise it is the end-of-document error, which the source raises only after releasing its NULL document (see "## Left out") |
| Facts.SingleDocument | ext/_minyaml.c:1164-1198 | a stream of one document is that document, and a second document start after it is the single-document error |
| Facts.SingleDataCorrectionScope | ext/_minyaml.c:1164-1198 | the corrected `get_single_data` differs from the code only on a stream with no document |
| Facts.EmptyStreamFinding | ext/_minyaml.c:1181-1197 | on an empty stream the code as written fails at the second `check_data` with the document-start error, after which the source releases its NULL document (see "## Left out"); the corrected version gives None |
| Loader.ScalarCtx | ext/_minyaml.c:586-619 | document construction resolves scalars by `_build_scalar` over the given registry |
| Loader.AliasTable.constructor | ext/_minyaml.c:1001 | a document starts with an empty alias dictionary |
| Loader.AliasTable.Save | ext/_minyaml.c:621-632 | the table becomes `SaveAlias` of the old table |
| Loader.AliasTable.Load | ext/_minyaml.c:634-646 | the answer is `LoadAlias` of the table |
| Loader.StorePair | ext/_minyaml.c:922-961 | the pair step, with its loop over a merged list, gives `Insert` |
| Loader.Loader.constructor | ext/_minyaml.c:1036-1109 | a new loader stands at the start of the stream |
| Loader.Loader.ParseNext | ext/_minyaml.c:536-572 | the event pulled and the parser's new position are those of `Pull` |
| Loader.Loader.BuildValue | ext/_minyaml.c:661-702 | the value, the parser's position and the alias dictionary afterwards are those of `Construction.BuildValue` |
| Loader.Loader.BuildMapping | ext/_minyaml.c:667-679 | the mapping case of `_build_value` follows `Construction.BuildValue` |
| Loader.Loader.BuildSequence | ext/_minyaml.c:680-692 | the sequence case of `_build_value` follows `Construction.BuildValue` |
| Loader.Loader.BuildCustom | ext/_minyaml.c:704-716 | hands on the result of `Construction.Custom` |
| Loader.Loader.BuildSeq | ext/_minyaml.c:718-763 | the `do … while` loop follows `SeqLoop` |
| Loader.Loader.BuildPairs | ext/_minyaml.c:765-874 | the `do … while` loop follows `PairsLoop` |
| Loader.Loader.BuildMap | ext/_minyaml.c:886-986 | the `do … while` loop follows `MapLoop`, keeping the dict's keys unique |
| Loader.Loader.BuildDocument | ext/_minyaml.c:988-1027 | delivers `Construction.BuildDocument`, with a fresh alias dictionary |
| Loader.Loader.CheckData | ext/_minyaml.c:1117-1144 | answers as `Construction.CheckData`, and the parser ends where it says |
| Loader.Loader.GetData | ext/_minyaml.c:1146-1162 | the next document, built with the shared registry |
| Loader.Loader.GetSingleData | ext/_minyaml.c:1164-1198 | delivers the corrected `Construction.SingleData` |

## Left out

- PCRE itself is not modelled. Each built-in pattern is a hand-written recogniser in
  `Patterns` that reports the groups `pcre_exec` would report. Backtracking and the other
  PCRE options are not captured.
- `_to_float` (`ext/_minyaml.c:318-366`) is modelled as an opaque function of the scalar text,
  `Host.floatOf`. Its branches are not: the sexagesimal reading it computes itself with `atoi`,
  `atof` and `PyFloat_FromDouble` (`ext/_minyaml.c:334-348`), the fixed strings `inf`, `-inf`
  and `nan` it hands to `float()` (`ext/_minyaml.c:351-355`), and the `float()` of the text
  without separators (`ext/_minyaml.c:323-332`, `356-359`). Floating-point arithmetic is out of
  scope. `_to_binary` (`ext/_minyaml.c:447-454`) is `Host.decodeBase64`, a function of the text.
- Timestamps.Micros reads the fraction exactly, to six decimal places. The source stores
  `atof` in a single-precision `float` and truncates `fraction * 1000000`
  (`ext/_minyaml.c:409-411`), so it can give one microsecond less, even for a two-digit
  fraction: `.13` gives 129999 there and 130000 here.
- Scalars.ReadSexagesimal does not model the `long` and `double` widths of the sexagesimal accumulator.
  The model's integers are unbounded, so an overflow on a huge sexagesimal text is not
  captured.
- Resolve.MatchBuilder passes the groups of the current match as a value. The source keeps
  `ncaptures`, `ovector` and the Python match object in the builder record. After a Python
  resolver accepts an untagged text, a C constructor reads whatever `ncaptures` and `ovector`
  that builder last held (`_new_c_builder` does not even initialise them). The model hands it
  no groups, so it matches again as it does under an explicit tag, where `_build_scalar` sets
  `ncaptures` to -1 (`ext/_minyaml.c:605`).
- Resolve.CConstruct: when a Python resolver accepts a text for the timestamp builder, no group
  is set, and the source calls `atoi` on the NULL group (`ext/_minyaml.c:393-394`), a NULL
  dereference. The model reads the unset groups as 0 and gives the invalid-date error
  (`Timestamps.NoGroupsIsInvalidDate`).
- Aliases are modelled as value copies. Python would share one object between the anchor and
  each alias, so object identity and later mutation are not captured.
- Reference counting, `_free_builders`, the Python 2 code paths, module initialisation and the
  text of error messages are not modelled. Errors are values of `Outcome.Error`.
- Input handling is not modelled: `_input_handler`, the stream and file reading of
  `_min_yaml_init`, UTF-8 decoding errors and the libyaml scanner and parser. The loader receives
  the event sequence libyaml would produce. A parser failure is the `Malformed` event, and an
  exhausted parser hands out the empty `NoEvent`.
- Values.SameKey compares `Float` keys structurally, not by Python float equality. So a float
  key never equals an int or bool key, although `1.0 == 1` in Python. Two floats that Python
  merges as keys, such as `0.0` and `-0.0`, stay apart when their `Float` values differ. Two NaN
  keys, which Python never merges, are merged when their `Float` values are equal.
- Construction is parametrised by the scalar function in `Construction.Ctx`. The `Facts` lemmas
  hold for any scalar resolver, and the `Loader` instantiates that function with
  `Resolve.BuildScalar`.
- `_new_py_builder` and `_new_c_builder` link records into a C list. The model appends to a
  `seq`, so the pointer links are not captured.
- `_to_timestamp` is a straight-line sequence of updates to local variables. It is modelled
  as functions of the captures, with no method.
- Construction.BuildDocument: after a missing root, when the second document end does not follow,
  the source calls `Py_DECREF` on its still-NULL document (`ext/_minyaml.c:1018`), a NULL
  dereference. The model gives the end-of-document error the code raises next.
- Construction.SingleDataAsWritten: when the second `check_data` fails on a stream with no
  document, the source calls `Py_DECREF` on its NULL document (`ext/_minyaml.c:1184`), a NULL
  dereference. The model gives the error `check_data` raised.
- Resolve.BuildScalar: under an explicit tag, the model passes no match object to a Python
  constructor. The source passes `builder->py_match` (`ext/_minyaml.c:607-609`). That is the
  object left by the builder's last Python resolver call (`ext/_minyaml.c:180`), reset only when
  the builder is matched again (`ext/_minyaml.c:171-176`), so it may come from an earlier
  scalar. This per-builder state is not modelled.
- `dispose` and `_min_yaml_dealloc` only free memory and are not modelled.
- The dead branch of `_add_resolver_constructor` (`ext/_minyaml.c:1229-1238`) rebuilds a C
  builder for a tag that already has one. It cannot run: the loop before it ends either by
  returning or with `builder` NULL. It is not modelled.

## Findings

| source | as written | input that shows it | evidently intended | confidence | as-written member | corrected member |
|---|---|---|---|---|---|---|
| ext/_minyaml.c:416-432 | the zone minutes are always subtracted, even when the zone hour is negative, so `-05:30` shifts the time by 4h30 | `2001-12-14 10:30:00 -05:30` becomes 15:00 instead of 16:00 | the sign of the zone applies to its minutes too, giving a shift of 5h30 | not executed | Timestamps.ZoneReadAsWritten | Timestamps.TimestampIsUtc |
| ext/_minyaml.c:427-442 | a carry happens only when minute > 60 or hour > 24, and the day is moved without rolling over the month or year | `2001-12-14 20:00:00 -04:00` gives hour 24, and `2001-12-31 23:00:00 -05:00` gives 1 January as day 32 of December; both raise a ValueError | the minute and hour carry at 60 and 24, and the day rolls over to the next month and year | not executed | Timestamps.ZoneFindings | Timestamps.ZoneApplied |
| ext/_minyaml.c:1181-1197 | `get_single_data` calls `check_data` a second time even when the first call found the stream end; libyaml then hands out an empty event, which is not the stream end | an empty stream (stream start, stream end) fails at the second `check_data`, which raises "awaited document start", and the code then calls `Py_DECREF` on its NULL document (`ext/_minyaml.c:1184`) | an empty stream gives None, as the final `Py_RETURN_NONE` branch intends | not executed | Facts.EmptyStreamFinding | Construction.SingleData |
