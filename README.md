# LeUtils in Dafny

A model of the sequential core of LeUtils, a utility library for RPG Maker MV plugins, with proofs of what that core promises.

**The notetag engine** (`src/Core/TagsManaging.ts`):
- the model adaptation that adds `Plus` and `Rate` sibling fields;
- the note rewriting of `x+:` and `x%:` markers;
- the priority-ordered lookup over a battler's states, equips, class and own data;
- the type defaults;
- the per-type aggregation of the getter: numbers, comma lists and the three-map merge;
- collecting;
- walking a dotted path of getters;
- the watcher registry and its change detection;
- the `tags` cache.

**The array helpers** (`src/Extends/Array.ts`): in-place sorting (`min`, `max`, `minBy`, `maxBy`), `remove`, `shuffle`, the partitions `divideIn` and `chunks`, `makeUnique`, `sum`, `flatten` and `last`.

**The integer and text helpers of `src/Core/Core.ts`**:
- the Manhattan cell distance and the in-place sort by it;
- the direction codes;
- Bresenham's line;
- `stringToArray`, `hexToRgb` and `kebabToCamelCase`;
- greedy word wrapping;
- event comment extraction.

**The number handler** (`src/Extends/Number.ts`) and **the side relation of battlers** (`src/Extends/Game_Battler.ts`).

**The frame animation of sprites**: `SpriteFrame`, `SpriteFrame4D`, `SpriteSheetAnim` and `SpriteSheetAnim4D`.

**The scroll bookkeeping** of `WindowScrollable`.

## Layout

| file | module | models |
|---|---|---|
| `wrappers.dfy`, `seqs.dfy`, `strings.dfy` | `Wrappers`, `Seqs`, `Strings` | `Option`/`Result`, sequence filters, the JavaScript string operations used (`split`, `join`, `trim`, `\s`, `\w`) |
| `js_values.dfy` | `JsValues` | JavaScript values, truthiness, `Number(...)`, `String(...)`, `+` and `===` |
| `tags_schema.dfy` | `TagSchema` | model fields and `_adaptModel` |
| `tags_note.dfy` | `TagNotes` | `noteToValidUrdText` |
| `game_battler.dfy` | `GameBattler` | battlers, their inventory, `isFriendWith` and `isEnemyWith` |
| `tags_lookup.dfy` | `TagLookup` | `rawFromPath`, `_getInventory`, `_getMainValue`, `_getAllValues` and the defaults |
| `tags_aggregate.dfy` | `TagAggregation` | the number, text and map rules of the getter |
| `tags_resolve.dfy` | `TagResolution` | the getter and collector of one segment, and `getFromPath` |
| `tags_watch.dfy` | `TagWatchers` | `WatcherHandler`, `TagResult`'s watcher registry, `tags` and `makeTagResult` |
| `array_methods.dfy` | `ArrayMethods` | `ArrayMethods` of `src/Extends/Array.ts` |
| `core_geometry.dfy` | `CoreGeometry` | cell distance, its sorts, directions and `getPixelsOfLine` |
| `core_text.dfy` | `CoreText` | `stringToArray`, `hexToRgb`, `kebabToCamelCase`, `getWrappedLines` and `getComments` |
| `number_methods.dfy` | `NumberMethods` | the number handler |
| `sprite_frame.dfy` | `SpriteFrames` | `SpriteFrame` and `SpriteFrame4D` as one class with a layout |
| `sprite_sheet.dfy` | `SpriteSheets` | `SpriteSheetAnim` and `SpriteSheetAnim4D` |
| `window_scrollable.dfy` | `WindowScrolling` | `WindowScrollable` |

## How the model is built

**External inputs.** The Urd repository that interprets notes is an abstract function from an object, a path and options to a value. The model's patterns are an input list. Async steps run one after the other, in source order.

**Arithmetic.** Floating-point numbers are modelled as a `real`, one of the two infinities, or NaN. Finite arithmetic is exact: no rounding, no overflow to an infinity and no negative zero. `AddNumbers` and `MulNumbers` return an operand itself when the other is the identity (or, for a product, when one side is 0); `AddNumbersValue` and `MulNumbersValue` show this is the plain real sum and product, with the IEEE rules for NaN and the infinities.

**State.** Objects whose fields the source updates in place are classes: the array handler, the number handler, the watcher handler and the tag result, the sprites and the window. Their methods state their whole new state. Loops are methods with invariants, proved equal to a function that the lemmas then reason about.

**Class hierarchy.** There are no traits, so inheritance is modelled differently.
- `SpriteFrame4D` is the same class as `SpriteFrame`, with a `Rows` layout.
- A sheet owns its frame sprite.
- The override of `onAnimationEnd` is modelled by `UpdateFrameIndex` reporting that the order wrapped. The sheet then records its callback as called, once the frame tick is over; in the source the callback runs inside that tick, before the new frame index is read.

**Callbacks.** Callbacks are numbered, and a sheet records the calls it makes.

## Model

| member | source | states |
|---|---|---|
| TagSchema.LookupKeys | src/Core/TagsManaging.ts:275-278 | reading `obj[key]` finds a field exactly when the key is one of the object's keys |
| TagSchema.PutLookup | src/Core/TagsManaging.ts:277-278 | after `obj[key] = f` the key reads `f`, and every other key reads what it read before |
| TagSchema.PutKeys | src/Core/TagsManaging.ts:277-280 | writing a key adds exactly that key to the object's keys |
| TagSchema.PutUnique | src/Core/TagsManaging.ts:277-280 | writing a key never makes a key appear twice |
| TagSchema.SiblingOf | src/Core/TagsManaging.ts:276-280 | a name is found as a `Plus`/`Rate` sibling exactly when some original key produces it |
| TagSchema.StepLookup | src/Core/TagsManaging.ts:275-284 | one iteration writes the `Plus`/`Rate` siblings of a number or map field, the `Plus` sibling of a string, list or text field, the adapted fields of a structure, and nothing else |
| TagSchema.StepKeys | src/Core/TagsManaging.ts:275-284 | one iteration adds exactly the sibling names of its entry to the keys |
| TagSchema.AdaptModel | src/Core/TagsManaging.ts:273-287 | the loop over a snapshot of the entries, recursing into structures and setting the marker, yields the adapted model |
| TagSchema.RunStep | src/Core/TagsManaging.ts:275-284 | the description of the object after `n` iterations holds again after `n + 1` |
| TagSchema.RunAll | src/Core/TagsManaging.ts:275-284 | after any number of iterations the object is as the closed-form description says |
| TagSchema.RunKeys | src/Core/TagsManaging.ts:275-284 | after `n` iterations the keys are the original ones plus the siblings of the first `n` entries |
| TagSchema.AdaptLookup | src/Core/TagsManaging.ts:273-287 | after adaptation a sibling name holds the descriptor it was made for, an original structure holds its adapted descriptor, and every other key is unchanged |
| TagSchema.AdaptKeys | src/Core/TagsManaging.ts:273-287 | adaptation adds exactly the sibling names of the original keys and sets the marker |
| TagSchema.AdaptSiblings | src/Core/TagsManaging.ts:276-280 | a number or map field's `Plus` and `Rate` siblings, and a string, list or text field's `Plus` sibling, hold its descriptor |
| TagSchema.Adapt | src/Core/TagsManaging.ts:273-287 | the adapted model always carries the mark, and a model already marked is returned as it is |
| TagSchema.AdaptIdempotent | src/Core/TagsManaging.ts:274-286 | the marker makes a second adaptation change nothing |
| TagSchema.SiblingOwner | src/Core/TagsManaging.ts:277-280 | a sibling name belongs to exactly one original key |
| TagSchema.SiblingOfKind | src/Core/TagsManaging.ts:276-281 | no sibling is made for a structure field |
| TagSchema.SiblingOfIs | src/Core/TagsManaging.ts:277-280 | the sibling found for a name is the descriptor of the entry that produced it |
| TagSchema.LookupUnique | src/Core/TagsManaging.ts:275 | in an object with distinct keys, each entry is what its key reads |
| GameBattler.IsFriendWith | src/Extends/Game_Battler.ts:7-12 | two battlers are friends exactly when both or neither are actors |
| GameBattler.IsEnemyWith | src/Extends/Game_Battler.ts:13-15 | two battlers are enemies exactly when they are not friends |
| GameBattler.FriendshipIsEquivalence | src/Extends/Game_Battler.ts:7-12 | friendship is reflexive, symmetric and transitive |
| GameBattler.EnmityProperties | src/Extends/Game_Battler.ts:13-15 | enmity is irreflexive and symmetric, and the enemy of an enemy is a friend |
| TagNotes.NonSpace | src/Core/TagsManaging.ts:194 | `\S+` takes exactly the run of non-whitespace characters |
| TagNotes.LastOperator | src/Core/TagsManaging.ts:194 | the greedy `\S+` backs off to the last `+:` or `%:` marker of the run |
| TagNotes.MatchAt | src/Core/TagsManaging.ts:194 | a match of `^\s*\b(\S+)([\+\%])\:` ends just after a `+:` or `%:` marker and captures its operator |
| TagNotes.LastBefore | src/Core/TagsManaging.ts:195 | the last occurrence of a character before a position, or none |
| TagNotes.Parens | src/Core/TagsManaging.ts:195 | the groups of `(.+)\((.+)\)` are a non-empty name, then a non-empty key inside the last parenthesis pair |
| TagNotes.NoteToValidUrdText | src/Core/TagsManaging.ts:193-200 | the rewrite of a whole note, scanned from a line start; a note with no `+:` or `%:` marker comes back unchanged |
| TagNotes.NoOperatorUnchanged | src/Core/TagsManaging.ts:193-200 | a note with no `+:` or `%:` is returned unchanged |
| TagNotes.ScanStep | src/Core/TagsManaging.ts:194 | away from a line start, the scan copies one character and notes whether a new line starts |
| TagNotes.ScanWithinLine | src/Core/TagsManaging.ts:194 | the `^` anchor with the `m` flag: nothing is rewritten before the next line terminator |
| TagNotes.NextLine | src/Core/TagsManaging.ts:194 | after a line terminator the pattern is tried again at the start of the next line |
| TagNotes.MatchOnLine | src/Core/TagsManaging.ts:194 | on a line `ws word op ':' rest` the match covers the whitespace, the word and the marker |
| TagNotes.RewriteLine | src/Core/TagsManaging.ts:194-199 | such a line loses its leading whitespace and has the marker replaced, the rest of the line is kept |
| TagNotes.ReplacementPlain | src/Core/TagsManaging.ts:198 | `name+:` becomes `namePlus:` and `name%:` becomes `nameRate:` |
| TagNotes.ReplacementParens | src/Core/TagsManaging.ts:195-196 | `name(key)+:` becomes `namePlus(key):`, and `%` gives `Rate` |
| TagNotes.RewriteOneLineNote | src/Core/TagsManaging.ts:193-200 | a whole one-line note with a marker loses its leading whitespace and has the marker replaced |
| TagNotes.ExamplePlus | src/Core/TagsManaging.ts:193-200 | `  nbr+: 65` becomes `nbrPlus: 65` |
| TagNotes.ExampleRate | src/Core/TagsManaging.ts:193-200 | `nbr%: 200` becomes `nbrRate: 200` |
| TagNotes.ExampleParens | src/Core/TagsManaging.ts:193-200 | `obj(a)+: 100` becomes `objPlus(a): 100` |
| TagLookup.RawFromPath | src/Core/TagsManaging.ts:540-549 | the loop over the path returns the walk's result: null as soon as the current value is falsy, unknown to the repository, lacks the member or the member is not a getter |
| TagLookup.WalkAppend | src/Core/TagsManaging.ts:542-547 | walking `p + q` is walking `q` from where the walk along `p` ended |
| TagLookup.WalkFromNull | src/Core/TagsManaging.ts:543 | nothing is reached from null |
| TagLookup.PathValueOfChild | src/Core/TagsManaging.ts:540-549 | a field's value is looked up from its parent's value, and a null parent gives null |
| TagLookup.Inventory | src/Core/TagsManaging.ts:606-615 | the states come first, and the inventory holds exactly the states plus, for an actor, its equips and its current class |
| TagLookup.SourcesOrder | src/Core/TagsManaging.ts:572-576 | the objects consulted are the states, then the equips and class of an actor, then the battler's own data, falsy ones dropped (also `_getInventory` at lines 606-615) |
| TagLookup.FirstFoundIsFirst | src/Core/TagsManaging.ts:577-582 | the result is the value of the first source whose lookup is not null, or none when every lookup is null |
| TagLookup.AllFound | src/Core/TagsManaging.ts:595-600 | every value kept is non-null, at most one per source |
| TagLookup.FirstOfAll | src/Core/TagsManaging.ts:577-582 | the main value is the first of all the values, when there is one (also the collecting loop at lines 595-600) |
| TagLookup.AllFoundConcat | src/Core/TagsManaging.ts:595-599 | the values found in two runs of sources are those of the first run, then those of the second |
| TagLookup.DefaultValue | src/Core/TagsManaging.ts:625-645 | a truthy default is kept; otherwise number and structure give `'0'` (the structure case falls through), string, list and code give `''`, map gives `{}`, and text keeps its falsy default |
| TagLookup.StructureDefault | src/Core/TagsManaging.ts:617-623 | the default object has one key per field of the structure, including the adaptation marker of an adapted model |
| TagLookup.StructureDefaultAt | src/Core/TagsManaging.ts:617-623 | each field's key holds that field's own default |
| TagLookup.MainValue | src/Core/TagsManaging.ts:570-582 | the value is the field's default or the lookup along the path in one of the sources, and the default whenever every source gives null or undefined |
| TagLookup.GetMainValue | src/Core/TagsManaging.ts:570-583 | for a battler, the first non-null value along the path over the sources, else the field's default |
| TagLookup.GetAllValues | src/Core/TagsManaging.ts:588-600 | for a battler, every non-null value along the path over the sources, in order |
| TagAggregation.SumOfNumbers | src/Core/TagsManaging.ts:332-333 | over finite numbers the `+=` reduce from a number yields that number plus the arithmetic sum |
| TagAggregation.SumOfText | src/Core/TagsManaging.ts:332-333 | once the accumulator is a string, the reduce concatenates the string forms of the remaining values |
| TagAggregation.SumIsPrimitive | src/Core/TagsManaging.ts:332-333 | a reduce started from a number or a string yields a number or a string |
| TagAggregation.NumberFormula | src/Core/TagsManaging.ts:319-334 | with numeric contributions a number field is `(main + Σplus) * (1 + Σrate / 100)` |
| TagAggregation.NumberWithoutContributions | src/Core/TagsManaging.ts:319-334 | without bonus or rate values a number field is `Number` of its main value |
| TagAggregation.NumberOfNaN | src/Core/TagsManaging.ts:319-334 | a main value that does not convert to a number makes the result NaN whatever the contributions |
| TagAggregation.NumberOracle | test/tags/tags.test.ts:56-59 | main 600 with bonus 65 and rate 200 gives 1995 |
| TagAggregation.OvershadowedNumberOracle | test/tags/tags.test.ts:70-83 | a higher-priority main value 10 with the same contributions gives 225 |
| TagAggregation.IncreasedNumberOracle | test/tags/tags.test.ts:106-110 | a further bonus of 500 gives 3495 |
| TagAggregation.Spread | src/Core/TagsManaging.ts:345-346 | an array main value contributes its elements, any other value itself |
| TagAggregation.TextResult | src/Core/TagsManaging.ts:345-348 | the comma-joined truthy pieces of the main value and the `Plus` values; the empty text when no piece is truthy |
| TagAggregation.TextWithoutMain | src/Core/TagsManaging.ts:345-348 | a falsy main value is dropped and only the truthy contributions are joined |
| TagAggregation.TextPieces | src/Core/TagsManaging.ts:345-348 | the text is the comma join of the truthy main value(s) followed by the truthy contributions, in order |
| TagAggregation.TextSplits | src/Core/TagsManaging.ts:345-348 | when no piece holds a comma, splitting the text on commas gives back exactly the pieces |
| TagAggregation.PlainTexts | src/Core/TagsManaging.ts:347-348 | non-empty strings all survive the truthiness filter and join as themselves |
| TagAggregation.PlainTextResult | src/Core/TagsManaging.ts:345-348 | when every piece is a non-empty string, the text is their comma-joined list |
| TagAggregation.TextOracle | test/tags/tags.test.ts:61-64 | main `hello` with two `world` contributions gives `hello,world,world` |
| TagAggregation.DefaultTextOracle | test/tags/tags.test.ts:66-69 | an empty main value with the contribution `10` gives `10` |
| TagAggregation.ValuesAt | src/Core/TagsManaging.ts:363-368 | a key has values in the found maps exactly when some found map holds it |
| TagAggregation.Pick | src/Core/TagsManaging.ts:365 | the kept value is one of the key's values: truthy iff one is, then the first truthy one, otherwise the last one |
| TagAggregation.BaseMap | src/Core/TagsManaging.ts:363-368 | the reduce of `allMaps` holds exactly the keys of the maps found |
| TagAggregation.BaseMapAt | src/Core/TagsManaging.ts:363-368 | the base map holds exactly the keys of the found maps, each with its first truthy value, else its last |
| TagAggregation.ComputeBaseMap | src/Core/TagsManaging.ts:363-368 | the nested loops build exactly the base map |
| TagAggregation.BaseCallback | src/Core/TagsManaging.ts:364-367 | one callback call sets every key of the current map the accumulator does not yet hold truthily |
| TagAggregation.Accumulate | src/Core/TagsManaging.ts:369-384 | the only way the reduce fails is `split` on an accumulated number |
| TagAggregation.AccumulateAt | src/Core/TagsManaging.ts:369-384 | when the reduce succeeds it holds exactly the keys of the maps, each with the accumulation of that key's own values |
| TagAggregation.AccumulateFails | src/Core/TagsManaging.ts:369-384 | the reduce fails exactly when the accumulation of some key's own values fails |
| TagAggregation.FailingKey | src/Core/TagsManaging.ts:369-384 | a failing reduce names a key whose own accumulation fails |
| TagAggregation.AccumulateFailsFrom | src/Core/TagsManaging.ts:369-384 | once the maps up to some point fail, the whole reduce fails |
| TagAggregation.AccumulateNumbers | src/Core/TagsManaging.ts:372-374 | a key whose values are all numeric accumulates to their sum |
| TagAggregation.AccumulateTexts | src/Core/TagsManaging.ts:375-380 | a key whose values are all comma-free non-numeric words accumulates to their comma-joined list |
| TagAggregation.NumberThenText | src/Core/TagsManaging.ts:373-378 | after a truthy number, a non-numeric value makes the reduce throw, since a number has no `split` |
| TagAggregation.AccumulateCallback | src/Core/TagsManaging.ts:370-383 | one callback call over the current map gives the single-step accumulation, or its failure |
| TagAggregation.AccumulateMaps | src/Core/TagsManaging.ts:369-400 | the reduce over the bonus (or rate) maps equals the accumulation, a throwing step aborting it |
| TagAggregation.MergeNumbers | src/Core/TagsManaging.ts:412-414 | numeric parts combine as `(base + plus) * (1 + rate / 100)` |
| TagAggregation.MergeBaseOnly | src/Core/TagsManaging.ts:412-414 | a key only the base map holds keeps its number |
| TagAggregation.MergePlusOnly | src/Core/TagsManaging.ts:412-414 | a key only the bonus maps hold gets its accumulated bonus |
| TagAggregation.MergeIgnoresRate | src/Core/TagsManaging.ts:415-420 | between non-numeric parts the rate plays no role |
| TagAggregation.MergeLists | src/Core/TagsManaging.ts:415-420 | two comma lists of plain words merge into one list, the base pieces first |
| TagAggregation.MergeNoSplit | src/Core/TagsManaging.ts:415-417 | a truthy non-string, non-numeric base makes the merge throw |
| TagAggregation.Merge | src/Core/TagsManaging.ts:402-421 | a successful merge holds exactly the union of the three maps' keys |
| TagAggregation.MergeMaps | src/Core/TagsManaging.ts:402-422 | the loop over all keys builds the merge, or fails like it |
| TagAggregation.MapResult | src/Core/TagsManaging.ts:363-422 | a successful map field is a plain object |
| TagAggregation.MapResultAt | src/Core/TagsManaging.ts:363-422 | a key is in the map value iff a found, bonus or rate map holds it, and its value is the merge of its base, its accumulated bonus and its accumulated rate |
| TagAggregation.MapValue | src/Core/TagsManaging.ts:349-422 | base map, bonus map, rate map, each over `Object.entries` of every found value, then the merge; any failure aborts the whole getter |
| TagAggregation.StringEntries | src/Core/TagsManaging.ts:364-365 | `Object.entries` of a found string lists each character under its decimal index (also lines 370 and 386) |
| TagAggregation.ArrayEntries | src/Core/TagsManaging.ts:364-365 | `Object.entries` of a found array lists each element under its decimal index (also lines 370 and 386) |
| TagAggregation.MapOracle | test/tags/tags.test.ts:85-91 | base `b` 5 overshadowing 20, and bonus `a` 100, give `{a: 100, b: 5}` |
| TagResolution.PathStringSplit | src/Core/TagsManaging.ts:308 | for dot-free segments, splitting the path string on dots gives back `__root__` and the segments |
| TagResolution.FindPattern | src/Core/TagsManaging.ts:309 | the pattern found is the first whose id and path match; none means no pattern matches |
| TagResolution.Segment | src/Core/TagsManaging.ts:307-429 | the getter rejects with the missing-pattern error exactly when no pattern matches, and a structure scopes the next proxy one segment further down |
| TagResolution.MainIsFirstFound | src/Core/TagsManaging.ts:570-582 | the main value is the first value found along the path, else the field's default |
| TagResolution.SegmentCode | src/Core/TagsManaging.ts:423-424 | a code field resolves to its first value found, else to its default (also the dispatch at line 314) |
| TagResolution.SegmentNumber | src/Core/TagsManaging.ts:318-335 | a number field over numeric values is `(main + Σplus) * (1 + Σrate / 100)` over the `Plus` and `Rate` values of every source |
| TagResolution.SegmentNumberAlone | src/Core/TagsManaging.ts:318-335 | without `Plus` or `Rate` values anywhere a number field is its main value as a number |
| TagResolution.SegmentText | src/Core/TagsManaging.ts:336-348 | a string, list or text field joins its truthy main value(s) and then its truthy `Plus` values with commas |
| TagResolution.SegmentMap | src/Core/TagsManaging.ts:349-422 | a map field that resolves is a plain object holding exactly the keys of its found, `Plus` and `Rate` maps, each merged from its own parts |
| TagResolution.SegmentStructure | src/Core/TagsManaging.ts:316-317 | a structure field scopes the next getters under its path over an object main value; over anything else no proxy can be built |
| TagResolution.SegmentStructureMissing | src/Core/TagsManaging.ts:629-633 | a structure found nowhere and without a truthy default falls back to `'0'`, over which no proxy can be built (also the dispatch at lines 316-317) |
| TagResolution.SegmentUnhandled | src/Core/TagsManaging.ts:425-426 | a field of an unknown type rejects with `Unhandled type` |
| TagResolution.NumberGetterOracle | test/tags/tags.test.ts:56-83 | at the getter, main 600 with `+65` and `%200` gives 1995, and a higher-priority 10 gives 225 |
| TagResolution.ResolveSegment | src/Core/TagsManaging.ts:313-428 | the awaited steps of the getter compute the segment's value, or its rejection |
| TagResolution.ResolveMap | src/Core/TagsManaging.ts:349-422 | the awaited map case computes the segment's value, or its rejection |
| TagResolution.CollectSegment | src/Core/TagsManaging.ts:449-473 | a name arrays have is read through; any other name must match a pattern; a match yields all the values found, or a proxy over them for a structure, or the unhandled-type rejection |
| TagResolution.CollectHeadIsGet | src/Core/TagsManaging.ts:468-469 | the first collected value of a code field is what getting the field gives (also lines 314 and 459) |
| TagResolution.CollectOracle | test/tags/tags.test.ts:93-105 | a state holding 10 ahead of the actor's 600 collects `[10, 600]` |
| TagResolution.CollectField | src/Core/TagsManaging.ts:449-473 | the awaited collecting getter computes the collected segment |
| TagResolution.GetFromPath | src/Core/TagsManaging.ts:551-561 | the loop from the root getter computes the walk along the segments |
| TagResolution.FromPathSnoc | src/Core/TagsManaging.ts:554-559 | walking one more segment continues from where the shorter walk stopped, and a null stays null |
| TagResolution.FromPathScope | src/Core/TagsManaging.ts:554-559 | a walk that ends on a proxy ends on the proxy scoped at the whole path walked |
| TagResolution.FromPathChain | src/Core/TagsManaging.ts:554-559 | once a walk reaches a known structure, one more segment is that structure's getter called with the options of its position |
| TagResolution.FromPathFirst | src/Core/TagsManaging.ts:552-558 | the first segment of a walk is the getter of the root proxy |
| TagWatchers.DiffersProperties | src/Core/TagsManaging.ts:224 | `!==` is symmetric; a primitive other than NaN read twice does not differ, while proxies, NaN and the arrays and maps that the list, text and map getters build afresh always differ |
| TagWatchers.WatchPath | src/Core/TagsManaging.ts:505 | the dotted path a handler stores splits back into its dot-free segments (also the split at line 223) |
| TagWatchers.WatcherHandler.constructor | src/Core/TagsManaging.ts:215-220 | a handler holds its callback, path and contexts, and no value seen yet |
| TagWatchers.WatcherHandler.Check | src/Core/TagsManaging.ts:222-228 | the call made is the handler's `Outcome`: the callback with the old and new values exactly when the re-read succeeds and differs from the stored value; the new value is stored exactly when that call is made, and a rejected re-read changes nothing |
| TagWatchers.TagResult.constructor | src/Core/TagsManaging.ts:259-271 | the patterns are those of the model as given, the model is then adapted, and no watcher is registered |
| TagWatchers.TagResult.RegisterWatcher | src/Core/TagsManaging.ts:526-532 | no callback removes the handler under the id; a callback puts a fresh handler there; every other id keeps its handler |
| TagWatchers.TagResult.Watch | src/Core/TagsManaging.ts:498-519 | a missing pattern rejects and changes nothing; otherwise the watcher of the dotted path is registered with the contexts so far, and a structure returns the proxy one segment down, other known types null |
| TagWatchers.TagResult.CheckWatchers | src/Core/TagsManaging.ts:534-538 | every handler is checked once against the current state: it stores the re-read value and the callback is called with the old and new values exactly when the re-read succeeds and differs, and only such handlers appear in the calls |
| TagWatchers.WatchedNumberOracle | test/tags/tags.test.ts:106-121 | re-reading the number once a state adds `+500` gives 3495, which differs from the unset value, so the callback runs |
| TagWatchers.Host.constructor | src/Core/TagsManaging.ts:175-180 | a host starts with no cached tags |
| TagWatchers.Tags | src/Core/TagsManaging.ts:175-180 | the result cached on the object is returned, else a new one is built and cached |
| TagWatchers.MakeTagResult | src/Core/TagsManaging.ts:182-191 | a fresh result over the rewritten note of the object, for a battler or not, with the adapted model and its patterns |
| TagWatchers.TagsTwice | src/Core/TagsManaging.ts:175-180 | asking twice for an object's tags gives the same result |
| ArrayMethods.ArrayHandler.constructor | src/Extends/Array.ts:16-18 | the handler wraps the given array |
| ArrayMethods.IndexFrom | src/Extends/Array.ts:22 | the first position at or after the start holding the value, or -1 when none does (also line 75) |
| ArrayMethods.IndexOf | src/Extends/Array.ts:22 | `indexOf` gives the first position holding the value, or -1 exactly when the value is absent (also line 75) |
| ArrayMethods.UniqueUpTo | src/Extends/Array.ts:20-25 | the filter over a prefix keeps at most as many values as the prefix has |
| ArrayMethods.UniqueUpToKeepsFirsts | src/Extends/Array.ts:20-25 | the filter keeps exactly one copy of each value of the array, ordered by first occurrence |
| ArrayMethods.UniqueHasNoDuplicates | src/Extends/Array.ts:20-25 | no value is kept twice |
| ArrayMethods.ArrayHandler.MakeUnique | src/Extends/Array.ts:20-25 | every kept value is in the array and every value of the array is kept, in the order of first occurrence, each being its own first occurrence; the array is left alone |
| ArrayMethods.InsertPermutes | src/Extends/Array.ts:28-48 | inserting a value into the sorted part adds exactly that value |
| ArrayMethods.InsertSorted | src/Extends/Array.ts:28-48 | inserting into a sorted run keeps it sorted, and the new head is the smaller of the value and the old head |
| ArrayMethods.SortByIsSorted | src/Extends/Array.ts:28-48 | the sort by a key gives a permutation of the array, ordered by key |
| ArrayMethods.SortedHead | src/Extends/Array.ts:28-48 | the first element after sorting is the earliest element with the smallest key |
| ArrayMethods.OppositeSorted | src/Extends/Array.ts:34-48 | sorting by `b - a` orders descending |
| ArrayMethods.ArrayHandler.Last | src/Extends/Array.ts:51-53 | the last element, undefined exactly for an empty array |
| ArrayMethods.ArrayHandler.MinBy | src/Extends/Array.ts:39-43 | the array is sorted in place ascending by the key, stably, as a permutation, and the first element, of smallest key, is returned; an empty array gives undefined |
| ArrayMethods.ArrayHandler.MaxBy | src/Extends/Array.ts:45-49 | the array is sorted in place descending by the key, stably, as a permutation, and the first element, of largest key, is returned |
| ArrayMethods.Minimum | src/Extends/Array.ts:27-31 | the array is left sorted ascending as a permutation of itself and its first element, a lower bound of all, is returned |
| ArrayMethods.Maximum | src/Extends/Array.ts:33-37 | the array is left sorted descending as a permutation of itself and its first element, an upper bound of all, is returned |
| ArrayMethods.SumFromTotal | src/Extends/Array.ts:55-57 | the `+=` reduce from an accumulator adds the arithmetic sum of the elements to it |
| ArrayMethods.TotalConcat | src/Extends/Array.ts:55-57 | the sum of two runs is the sum of their sums |
| ArrayMethods.SumIsTotal | src/Extends/Array.ts:55-57 | `sum` is the arithmetic sum of the elements, 0 for an empty array |
| ArrayMethods.ArrayHandler.Remove | src/Extends/Array.ts:74-81 | true exactly when the item occurs; then only its first occurrence is spliced out and the rest shift left; otherwise the array is unchanged |
| ArrayMethods.SwapPermutes | src/Extends/Array.ts:87-89 | swapping two positions permutes the array |
| ArrayMethods.ArrayHandler.Shuffle | src/Extends/Array.ts:83-92 | the array becomes `Shuffled` of the old one under the given draws, a permutation of it, unchanged when every draw is its own position; the array itself is returned |
| ArrayMethods.ShuffledPermutes | src/Extends/Array.ts:85-90 | swapping each position from `i` down to 1 with its draw in `[0, i]` keeps the length and the elements |
| ArrayMethods.ShuffledIdentity | src/Extends/Array.ts:85-90 | when every draw is its own position, no swap moves anything |
| ArrayMethods.ShuffleTwo | src/Extends/Array.ts:85-90 | on `[a, b]` the draw 0 at position 1 gives `[b, a]` |
| ArrayMethods.DivisionLayout | src/Extends/Array.ts:95-97 | `n` parts of `len / n` elements, the first `len % n` one longer, span exactly the whole length |
| ArrayMethods.DivisionCount | src/Extends/Array.ts:99-111 | the loop stops after `min(n, len)` parts |
| ArrayMethods.ArrayHandler.DivideIn | src/Extends/Array.ts:94-113 | the parts concatenate to the array; for positive `n` there are `min(n, len)` of them, the first `len % n` holding one element more than `len / n` |
| ArrayMethods.ArrayHandler.DivideEvenly | src/Extends/Array.ts:99-111 | for positive `n` the loop lays out `min(n, len)` parts of the sizes above, concatenating to the array |
| ArrayMethods.ArrayHandler.Chunks | src/Extends/Array.ts:115-121 | the parts concatenate to the array; every part but the last has `size` elements and the last is non-empty and no longer |
| ArrayMethods.FlatFromLeaves | src/Extends/Array.ts:124-129 | the reduce appends the leaves of the nested array to what it started with |
| ArrayMethods.FlattenIsLeaves | src/Extends/Array.ts:123-131 | `flatDeep` gives the leaves in left-to-right order |
| ArrayMethods.FlattenIdempotent | src/Extends/Array.ts:123-131 | a flattened array flattens to itself, none of its elements being arrays |
| ArrayMethods.FlatDeep | src/Extends/Array.ts:124-129 | every element of the array that is not itself an array appears in the flattening |
| ArrayMethods.Flatten | src/Extends/Array.ts:123-131 | `flatten` is the leaves of the array, left to right |
| CoreGeometry.CellDistance | src/Core/Core.ts:145-149 | the distance is zero exactly for the same cell, and bounds both coordinate differences |
| CoreGeometry.CellDistanceMetric | src/Core/Core.ts:145-149 | the distance is symmetric, zero from a cell to itself, and obeys the triangle inequality |
| CoreGeometry.SortByCellDistance | src/Core/Core.ts:159-165 | the array is reordered in place into the stable sort by distance to `obj`: a permutation, nearest first |
| CoreGeometry.ClosestByCellDistance | src/Core/Core.ts:175-177 | leaves the array sorted by distance to `obj` (stably) and returns its first point, no farther than any other; undefined exactly for an empty array |
| CoreGeometry.FarthestByCellDistance | src/Core/Core.ts:179-181 | leaves the array sorted by distance to `obj` (stably) and returns its last point, no nearer than any other; undefined exactly for an empty array |
| CoreGeometry.ClosestIsEarliestNearest | src/Core/Core.ts:175-177 | the closest point is the earliest of the nearest points of the original array (also the sort at lines 159-165) |
| CoreGeometry.DirectionCodeToText | src/Core/Core.ts:329-341 | a text exactly for the codes 2, 4, 6 and 8, null otherwise |
| CoreGeometry.DirectionTextToCode | src/Core/Core.ts:343-355 | a code exactly for `down`, `left`, `right` and `up`, null otherwise |
| CoreGeometry.DirectionRoundTrips | src/Core/Core.ts:329-355 | the two conversions undo each other on the four directions |
| CoreGeometry.ErrorAtEdges | src/Core/Core.ts:228-236 | at the end column the error term forbids another x step, at the end row another y step |
| CoreGeometry.GetPixelsOfLine | src/Core/Core.ts:215-239 | the cells run from the first point to the second, each touching the next, as many as the longer axis plus one |
| CoreText.DropTrailingComma | src/Core/Core.ts:373 | exactly one trailing comma is removed, anything else is kept |
| CoreText.PieceValue | src/Core/Core.ts:377-380 | a piece becomes a number or a string |
| CoreText.StringToArray | src/Core/Core.ts:371-381 | an empty text gives no elements; any other gives one element per comma-separated piece of its space-free text, one more than its commas |
| CoreText.StringToArrayPieces | src/Core/Core.ts:376-380 | each element is its piece, trimmed and read by `Number`, or kept as the trimmed text when that is NaN |
| CoreText.HexPieceIsNumber | src/Core/Core.ts:378-379 | the piece `0x10` becomes the number 16 |
| CoreText.InfinityPieceIsNumber | src/Core/Core.ts:378-379 | the piece `Infinity` becomes the positive infinity, not text |
| CoreText.EmptyPieceIsZero | src/Core/Core.ts:378-379 | an empty piece reads as the number 0 |
| CoreText.WordPieceIsText | src/Core/Core.ts:378 | a piece that cannot begin a numeric literal, and is not `Infinity`, stays its trimmed text |
| CoreText.StringToArrayOfInts | src/Core/Core.ts:371-381 | integers written as a comma-separated list come back as the same numbers |
| CoreText.TrailingCommaIgnored | src/Core/Core.ts:373 | one trailing comma makes no difference to the result |
| CoreText.HexToRgb | src/Core/Core.ts:383-392 | a colour exactly for six hex digits after an optional `#`, each component at most 255; null otherwise |
| CoreText.HexRoundTrip | src/Core/Core.ts:383-392 | a colour written as six hex digits, with or without `#`, reads back as the same colour |
| CoreText.HexIgnoresCase | src/Core/Core.ts:384 | upper-case hex digits read as the lower-case ones |
| CoreText.UpperAfterUnderscores | src/Core/Core.ts:206-208 | removing underscores never lengthens the text |
| CoreText.FirstBoundaryChar | src/Core/Core.ts:209 | the position found is the first word boundary, from the given position on, before a character that is not a line terminator |
| CoreText.UpperFirstWord | src/Core/Core.ts:209-212 | the length is kept, and with `lower` the text is unchanged |
| CoreText.UpperAfterJoin | src/Core/Core.ts:206-208 | in `snake_case` words each underscore goes and upper-cases the first letter of the word after it |
| CoreText.UpperFirstAtStart | src/Core/Core.ts:209-212 | a text starting with a word character gets it upper-cased, unless `lower` |
| CoreText.KebabToCamelCase | src/Core/Core.ts:204-213 | the conversion never lengthens the text, and with `lower` only the underscores are rewritten |
| CoreText.KebabOfWords | src/Core/Core.ts:204-213 | `snake_case` words become `camelCase`, the first word capitalised too unless `lower` |
| CoreText.PiecesJoin | src/Core/Core.ts:184-189 | the measured pieces, a space after every word but the last, concatenate to the text |
| CoreText.GetWrappedLines | src/Core/Core.ts:183-202 | when every piece fits, the lines concatenate to the text and each is a non-empty run of pieces that fits and, unless it ends the text, would overflow with the next piece |
| CoreText.GetComments | src/Core/Core.ts:595-608 | the comment is each page's comment commands, in order, each as its parameters joined by line breaks plus a final line break; a map event is read through its data |
| CoreText.AppendListComment | src/Core/Core.ts:601-605 | the inner loop appends exactly one page's comment text to what came before |
| CoreText.ListCommentShape | src/Core/Core.ts:601-605 | a list's comment is empty exactly when it holds no comment command, and otherwise ends with a line break |
| CoreText.PagesCommentShape | src/Core/Core.ts:600-606 | an event's comment is empty exactly when no page holds a comment command, and otherwise ends with a line break |
| CoreText.CommentLines | src/Core/Core.ts:603 | splitting a command's comment at line breaks gives back its lines and an empty last piece |
| NumberMethods.Incremented | src/Extends/Number.ts:16-21 | with `min <= max` the result is in range; the stepped value when in range, `min` when it overshoots, `max` when it undershoots |
| NumberMethods.Clamped | src/Extends/Number.ts:11-15 | with `min <= max` the result is in range and a value inside is kept; otherwise it is `min` |
| NumberMethods.NumberHandler.constructor | src/Extends/Number.ts:3-4 | the handler captures the number |
| NumberMethods.NumberHandler.AtLeast | src/Extends/Number.ts:5-7 | the larger of the number and `val` |
| NumberMethods.NumberHandler.AtMost | src/Extends/Number.ts:8-10 | the smaller of the number and `val` |
| NumberMethods.NumberHandler.Between | src/Extends/Number.ts:11-15 | the clamped number, which is also written back |
| NumberMethods.NumberHandler.Increment | src/Extends/Number.ts:16-21 | the stepped and wrapped number, which is also written back |
| NumberMethods.NumberHandler.IncrementByOne | src/Extends/Number.ts:16 | the step defaults to 1 |
| NumberMethods.StepsAdd | src/Extends/Number.ts:17 | because the number is written back, `k + l` increments are `k` increments and then `l` more |
| NumberMethods.StepsCountUp | src/Extends/Number.ts:16-21 | below `max`, unit increments count up one by one |
| NumberMethods.WrapAtMax | src/Extends/Number.ts:18 | from `max`, one increment wraps to `min` |
| NumberMethods.FullCycle | src/Extends/Number.ts:16-21 | `max - min + 1` unit increments bring every value of the range back to itself |
| SpriteFrames.Range | src/Sprites/SpriteFrame.ts:20 | the default frame order is `0, 1, ..., n - 1` |
| SpriteFrames.FixedAt | src/Sprites/SpriteFrame.ts:52-56 | the animation is stopped with its counter at 0 and the frame fixed at the index, `'last'` meaning the sheet's last frame; order, position and delay are kept |
| SpriteFrames.Ticked | src/Sprites/SpriteFrame.ts:70-82 | one tick keeps the counter in `[0, delay]` and the order index inside the order, and leaves order, delay and frame count alone |
| SpriteFrames.Ticks | src/Sprites/SpriteFrame.ts:70-82 | any number of ticks keeps the same bounds |
| SpriteFrames.SpriteFrame.constructor | src/Sprites/SpriteFrame.ts:14-24 | frame 0 of the order `[0..nbrFrames-1]`, delay 8, counter 0, no fixed frame and no animation type |
| SpriteFrames.SpriteFrame.FourDirections | src/Sprites/SpriteFrame4D.ts:7-11 | no bitmap, one frame, facing down, not static |
| SpriteFrames.SpriteFrame.SetAnimDelay | src/Sprites/SpriteFrame.ts:32-35 | the new delay with the counter back at 0, nothing else changed |
| SpriteFrames.SpriteFrame.SetFrameOrder | src/Sprites/SpriteFrame.ts:37-40 | the new order from its start, nothing else changed |
| SpriteFrames.SpriteFrame.StartFrameAnimation | src/Sprites/SpriteFrame.ts:42-45 | the animation type is set and no frame is fixed any more |
| SpriteFrames.SpriteFrame.StopFrameAnimation | src/Sprites/SpriteFrame.ts:47-50 | no animation type and the counter at 0 |
| SpriteFrames.SpriteFrame.UpdateFrameAnimation | src/Sprites/SpriteFrame.ts:84-92 | the rectangle of the fixed frame, else of the current one, is shown; the animation state is unchanged (also `src/Sprites/SpriteFrame4D.ts` lines 25-33) |
| SpriteFrames.SpriteFrame.SetFrameIndex | src/Sprites/SpriteFrame.ts:52-56 | the animation is stopped, the frame fixed as `FixedAt` says, and that frame shown |
| SpriteFrames.SpriteFrame.ResetFrameIndex | src/Sprites/SpriteFrame.ts:58-60 | the current frame goes back to 0 |
| SpriteFrames.SpriteFrame.OnAnimationEnd | src/Sprites/SpriteFrame.ts:94-103 | once stops on the last frame and run on the first, showing it; inf changes nothing |
| SpriteFrames.SpriteFrame.UpdateFrameIndex | src/Sprites/SpriteFrame.ts:70-82 | one tick of the state; `ended` says the order wrapped, where the end handling ran |
| SpriteFrames.SpriteFrame.Update | src/Sprites/SpriteFrame.ts:62-68 | the animation ticks and the frame is shown only when the bitmap is loaded and an animation type is set; otherwise nothing changes |
| SpriteFrames.SpriteFrame.SetDirection | src/Sprites/SpriteFrame4D.ts:13-15 | the direction is stored, nothing else changes |
| SpriteFrames.SpriteFrame.SetStatic | src/Sprites/SpriteFrame4D.ts:17-19 | the static flag is stored, nothing else changes |
| SpriteFrames.SpriteFrame.IsStatic | src/Sprites/SpriteFrame4D.ts:21-23 | the stored static flag |
| SpriteFrames.TicksAdd | src/Sprites/SpriteFrame.ts:70-82 | `k + l` ticks are `k` ticks and then `l` more |
| SpriteFrames.TicksWait | src/Sprites/SpriteFrame.ts:79-81 | below the delay a tick only counts up |
| SpriteFrames.AdvanceEvery | src/Sprites/SpriteFrame.ts:70-82 | from a fresh counter the order moves on by exactly one frame every `delay + 1` ticks |
| SpriteFrames.RunThrough | src/Sprites/SpriteFrame.ts:70-82 | `k` frames of the order take `k * (delay + 1)` ticks, with no end handling on the way |
| SpriteFrames.EndOfOrder | src/Sprites/SpriteFrame.ts:73-78 | at the end of the order the index wraps to its start and the end handling decides how to go on |
| SpriteFrames.ToLastFrame | src/Sprites/SpriteFrame.ts:70-82 | `(length of order - 1) * (delay + 1)` ticks from the top reach the last frame of the order at the start of its delay |
| SpriteFrames.LastFrameEnds | src/Sprites/SpriteFrame.ts:73-103 | the last frame's delay running out triggers the end of the pass |
| SpriteFrames.FullPass | src/Sprites/SpriteFrame.ts:70-103 | a full pass of `(length of order) * (delay + 1)` ticks from the top leaves once stopped on the last frame, run stopped on frame 0, and inf back at the top of the order still running |
| SpriteFrames.DivideTicks | src/Sprites/SpriteFrame.ts:70-82 | every tick before the last of a pass is some tick of some frame of the order |
| SpriteFrames.WithinPass | src/Sprites/SpriteFrame.ts:70-82 | inside a pass from the top the ticks only move through the order, frame after frame |
| SpriteFrames.NoEarlyEnd | src/Sprites/SpriteFrame.ts:73-77 | a pass from the top reaches the end handling only at its last tick, so the animation ends once per pass |
| SpriteFrames.FrameInsideBitmap | src/Sprites/SpriteFrame.ts:84-92 | a frame of the sheet lies inside the bitmap, a frame-count-th of its width (also `src/Sprites/SpriteFrame4D.ts` lines 25-33) |
| SpriteFrames.FramesSideBySide | src/Sprites/SpriteFrame.ts:87-88 | consecutive frames sit side by side |
| SpriteFrames.RowOfDirection | src/Sprites/SpriteFrame4D.ts:30-31 | a static sprite shows the whole height from the top; otherwise the bitmap has four rows and directions 2, 4, 6, 8 pick rows 0 to 3 |
| SpriteSheets.NewStance | src/Sprites/SpriteSheetAnim.ts:32-37 | the stance keeps its name, bitmap and frame count, and the given order or else `[0..nbrFrames-1]` (also `src/Sprites/SpriteSheetAnim4D.ts` lines 32-38) |
| SpriteSheets.SpriteSheetAnim.constructor | src/Sprites/SpriteSheetAnim.ts:16-22 | a one-frame sprite without bitmap, no stances, no default stance and no callback |
| SpriteSheets.SpriteSheetAnim.SetStance | src/Sprites/SpriteSheetAnim.ts:45-57 | an unknown name changes nothing; a known one takes the stance's bitmap, frame count and order, restarts from frame 0 with counter 0, no fixed frame and the given type, shows the frame and arms the callback |
| SpriteSheets.SpriteSheetAnim.DefineStance | src/Sprites/SpriteSheetAnim.ts:31-42 | the stance is recorded under its name; a default one becomes the default stance and starts as inf without a callback |
| SpriteSheets.SpriteSheetAnim.OnAnimationEnd | src/Sprites/SpriteSheetAnim.ts:59-65 | the frame sprite's end handling, then the armed callback is called once and disarmed |
| SpriteSheets.SpriteSheetAnim.Update | src/Sprites/SpriteSheetAnim.ts:59-65 | a tick of the frame sprite; when the order wraps the armed callback is called once and disarmed, otherwise it stays armed (also the frame tick of `src/Sprites/SpriteFrame.ts` lines 62-82) |
| SpriteSheets.SpriteSheetAnim4D.constructor | src/Sprites/SpriteSheetAnim4D.ts:15-21 | a four-direction sprite facing down, without bitmap, stances or callback |
| SpriteSheets.SpriteSheetAnim4D.SetStance | src/Sprites/SpriteSheetAnim4D.ts:46-59 | as for the strip sheet, and the sprite also takes the stance's static flag |
| SpriteSheets.SpriteSheetAnim4D.DefineStance | src/Sprites/SpriteSheetAnim4D.ts:31-43 | the stance is recorded with its static flag; a default one becomes the default stance and starts as inf |
| SpriteSheets.SpriteSheetAnim4D.OnAnimationEnd | src/Sprites/SpriteSheetAnim4D.ts:61-67 | the end handling, then the armed callback is called at most once and disarmed |
| SpriteSheets.SpriteSheetAnim4D.Update | src/Sprites/SpriteSheetAnim4D.ts:61-67 | a tick of the sprite; the callback runs once when the order wraps (also the frame tick of `src/Sprites/SpriteFrame.ts` lines 62-82) |
| WindowScrolling.WindowScrollable.constructor | src/Windows/Scrollable.ts:3 | the class declares no constructor; the model starts with no line count, nothing hidden and the contents at the top, standing for the fields left undefined until the first refresh |
| WindowScrolling.WindowScrollable.ContentsHeight | src/Windows/Scrollable.ts:4-6 | the height is the lines' total height plus the padding above and below |
| WindowScrolling.WindowScrollable.MakeLineNumbers | src/Windows/Scrollable.ts:19-22 | an unset or zero line count becomes 1, any other is kept; all lines but the visible one are hidden |
| WindowScrolling.WindowScrollable.NeedScroll | src/Windows/Scrollable.ts:30-32 | true exactly when lines are hidden |
| WindowScrolling.WindowScrollable.ScrollDown | src/Windows/Scrollable.ts:44-47 | the origin moves down one line and one line fewer is hidden, keeping the last line's position (also `scrollSpeed` at lines 54-56) |
| WindowScrolling.WindowScrollable.ScrollUp | src/Windows/Scrollable.ts:49-52 | the origin moves up one line and one line more is hidden, keeping the last line's position (also `scrollSpeed` at lines 54-56) |
| WindowScrolling.WindowScrollable.ProcessWheel | src/Windows/Scrollable.ts:34-42 | a turn of at least 20 down scrolls down while lines are hidden, one of at least 20 up scrolls up while the contents are below the top, anything else changes nothing; the wheel keeps the contents at whole lines, never above the top, with no negative hidden count |
| Seqs.Filter | src/Core/TagsManaging.ts:347 | `filter` keeps no more elements than the array has (also lines 576 and 594) |
| Strings.Join | src/Core/TagsManaging.ts:348 | `join` of no pieces is empty; otherwise it starts with the first piece, followed by the separator when there are more, and its length is at least the number of pieces less one |
| Strings.Split | src/Core/TagsManaging.ts:378 | `split` gives at least one piece and no piece holds the separator (also line 417) |
| Strings.JoinSplit | src/Core/TagsManaging.ts:378 | joining what was split gives back the string (also line 417) |
| Strings.SplitJoin | src/Core/TagsManaging.ts:345-348 | splitting what was joined gives back the pieces when none holds the separator |
| Strings.SplitCount | src/Core/Core.ts:376 | `split` yields one more piece than there are separators |
| Strings.Trim | src/Core/Core.ts:378 | the trimmed text is a slice of the original without whitespace at either end |
| Strings.TrimBounds | src/Core/Core.ts:378 | the trimmed text is the original less a whitespace prefix and a whitespace suffix |
| Strings.TrimKeepsNonSpace | src/Core/Core.ts:378 | every non-whitespace character of the original is kept |
| JsValues.Truthy | src/Core/TagsManaging.ts:347 | `!!v`: null and undefined are falsy and every array or object is truthy (also line 365) |
| JsValues.ToText | src/Core/TagsManaging.ts:348 | `String(v)`: only the empty string and arrays give the empty text, and the empty array does |
| JsValues.ToNumber | src/Core/TagsManaging.ts:372 | `Number(v)`: undefined gives NaN, and null, false, the empty string and the empty array give 0 (also line 412) |
| JsValues.Or | src/Core/TagsManaging.ts:414 | the JavaScript `or` of two values is the first when truthy, else the second (also line 417) |
| JsValues.JsAdd | src/Core/TagsManaging.ts:332 | `+` concatenates as soon as one side is a string, and adds two numbers |
| JsValues.AddNumbersValue | src/Core/TagsManaging.ts:332-334 | `+` on two finite numbers is their sum; NaN on either side, or infinities of opposite signs, give NaN; an infinity plus a finite number or the same infinity stays that infinity; the sum is commutative |
| JsValues.MulNumbersValue | src/Core/TagsManaging.ts:333-334 | `*` on two finite numbers is their product; NaN on either side, or an infinity times 0, give NaN; an infinity times any other non-NaN number is the infinity of the product's sign |
| JsValues.OrZeroIsOr | src/Core/TagsManaging.ts:414 | the default to 0 keeps a finite number and is otherwise the JavaScript `or` of the value and 0 |
| JsValues.StrictEqualsProperties | src/Core/TagsManaging.ts:224 | `===` is symmetric, implies equal values, and holds of equal primitives other than NaN |
| JsValues.NumberOfIntText | src/Core/Core.ts:378-379 | `Number` reads back the decimal text of an integer |
| JsValues.WordIsNaN | src/Core/Core.ts:378 | a text that cannot begin a numeric literal, and is not `Infinity`, reads as NaN |
| JsValues.InfinityText | src/Core/Core.ts:378 | `Number` reads `Infinity`, `+Infinity` and `-Infinity` as the infinity of that sign |
| JsValues.LowerInfinityIsNaN | src/Core/Core.ts:378 | `infinity` in lower case is not a number |
| JsValues.RadixLiteral | src/Core/Core.ts:378 | a `0x`, `0o` or `0b` literal, in either case, reads as its value in radix 16, 8 or 2 |
| JsValues.SignedRadixIsNaN | src/Core/Core.ts:378 | a sign in front of a `0x`, `0o` or `0b` literal makes it NaN |
| JsValues.HexExample | src/Core/Core.ts:378 | `Number("0x10")` is 16 |

## Left out

- The `Proxy` machinery (`symbol` and `then` interception, `UrdUtils.proxymise`) is modelled only through what a getter resolves to. Values of proxies are `Got` and `Collected` values.
- The `@urd/core` parser and `Urd.makePatterns` are foreign code. Interpreted values and patterns are inputs, and `makePatterns` is a function parameter of `Tags`.
- `exists` is modelled as the repository's own membership test on the object reached.
- The non-battler branches of `_getMainValue` and `_getAllValues` (src/Core/TagsManaging.ts:584, 602-603) test an un-awaited promise, so no default is ever applied there. Only the battler branch is modelled.
- The `Game_Battler.prototype.refresh` hook (src/Core/TagsManaging.ts:230-240) belongs to the host engine's life cycle and is not modelled.
- `TagWatchers.TagResult.CheckWatchers`: the `check()` calls are not awaited in the source. They are modelled as sequential, in no particular order over the handlers.
- Watcher callbacks are numbered. Their effects and return values are not modelled. Disposal on a `true` return is documented but is not done by `check`, so it is not modelled.
- JavaScript object key order is not modelled: object entries are maps, and loops over them go in an unspecified order. No result depends on that order except through failures, and those are stated order-free.
- `TagSchema.AdaptModel` works on a value rather than on the shared object. Aliasing of one structure's `fields` between two models is not modelled.
- `TagWatchers.Tags` and `TagWatchers.MakeTagResult` take `model` as a value and never adapt it. In the source, `_adaptModel` marks and extends the caller's model object in place (src/Core/TagsManaging.ts:273-287). A later `tags(obj, model)` with the same object therefore builds its repository and patterns (src/Core/TagsManaging.ts:175-191) from the adapted model, with its `Plus` and `Rate` siblings. The model passes the model as given each time.
- `TagAggregation.Get`, `TagAggregation.BaseStepOn`, `TagAggregation.BaseMap`, `TagAggregation.AccumulateStep`, `TagAggregation.AccumulateOn`, `TagAggregation.MergeKey`, `SpriteSheets.SpriteSheetAnim.SetStance` and `SpriteSheets.SpriteSheetAnim4D.SetStance` treat a JavaScript object as its own keys only. Keys inherited from `Object.prototype` (`constructor`, `toString`, `hasOwnProperty`, …) are not modelled. In the source such a name reads as a truthy function in `acc[key]` and `baseMap[key]` (src/Core/TagsManaging.ts:365, 373-378, 389-394, 409-411) and in `this._stances[name]` (src/Sprites/SpriteSheetAnim.ts:46, src/Sprites/SpriteSheetAnim4D.ts:47). A map key named `constructor` would therefore not take its first truthy value in the source, and `setStance('toString', …)` would not be the no-op the model makes it.
- `JsValues.StrictEquals` and `TagWatchers.Differs` count every array or object value as freshly built, so it is never `===` to anything. That holds for what the list, text and map getters return, which they build on each read. A `code` field, though, returns the repository's main value itself (src/Core/TagsManaging.ts:423-424). When the repository hands back the same object twice, `value !== this.oldValue` (src/Core/TagsManaging.ts:224) is false in the source and no callback fires, whereas the model calls the callback.
- `TagResolution.CollectSegment`: which names an array answers is a parameter set, since the set is a property of the JavaScript runtime.
- `NumberMethods.NumberHandler`: works over `real`, so float rounding, `Infinity` and NaN are not modelled.
- `JsValues.NumberToText` writes every finite number in positional digits: an integer in full, a fraction with its exact decimal digits, cut off after 20. `String(n)` in JavaScript switches to exponent form for magnitudes of at least 1e21 (`"1e+21"`) and below 1e-6 (`"1e-7"`), and writes the shortest digits that read back as the same double. Neither form is modelled, so the text `+` gives when it concatenates such a number differs.
- `JsValues.StringToNumber`: the decimal and radix literals are read exactly, so a literal too large for a double does not become `Infinity` and a long fraction is not rounded. Numeric separators are not part of `Number`'s grammar and are not modelled either.
- `TagAggregation.MapValue` and `TagAggregation.EntriesOf`: the own keys of a found object that is neither a plain object, a string nor an array (a class instance, a function) are not modelled, so such a value contributes no entries.
- `ArrayMethods.SumIsTotal`, `ArrayMethods.SumFrom`, `ArrayMethods.Total` and `ArrayMethods.Sum` are over integer arrays. JavaScript's `+=` on doubles rounds, and on a string element it concatenates; neither is modelled.
- `ArrayMethods.ArrayHandler.DivideIn` takes a `nat`. With a negative `n` the source loop never ends. With `n = 0` the part length is infinite, so the model, like the source, gives the whole array as one part, or no part for an empty array.
- `ArrayMethods.ArrayHandler.Chunks` requires `size > 0`. With `size = 0` the source loop never ends.
- `ArrayMethods.SortBy`: `Array.prototype.sort` is modelled as a stable insertion sort, which is what the engine guarantees about the order. Keys are integers: the sort keys of the source are numbers, and cell distances are integers.
- `ArrayMethods.ArrayHandler.Shuffle`: `Math.random` becomes the `picks` parameter: `picks[i]` is the position `Math.floor(Math.random() * (i + 1))` drawn at `i`.
- `getRandom`, `getRandomValues` and `average` are not modelled: they depend on randomness or on float division.
- `CoreText.GetWrappedLines` requires every word to fit in the contents width. Otherwise the source loop never ends. Text widths are a function parameter.
- `Strings.ToUpperAscii`: `toUpperCase` is modelled on ASCII letters only.
- `CoreGeometry.Point`: the `{x, y}` and `[x, y]` point forms are one datatype, and coordinates are integers.
- The floating-point geometry, randomness, `eval`, reflection and engine-state helpers of `src/Core/Core.ts` are not part of this model, and neither are `src/Core/Easing.ts`, `src/Extends/Sprite.ts`, `src/Extends/String.ts`, `src/Extends/Window_Base.ts`, `src/Windows/Confirmation.ts`, `src/Sprites/SpriteGauge.ts` and `src/Sprites/SpriteNumber.ts`. These are floats, timers, rendering or thin regex wrappers.
- Sprite drawing is left out: bitmap loading, `startAnimation`, `updatePositionForAnimation` and `setFrame`'s rendering. `CoreGeometry.GetPixelsOfLine` drops the optional `sprite` argument and the black `fillRect` it draws on each cell (src/Core/Core.ts:225); the cells returned are the same. The frame shown is the `frame` field, `None` until the first `setFrame`.
- `SpriteFrames.SpriteFrame.constructor` requires at least one frame. With zero frames the width of a frame divides by zero.
- `SpriteSheets.SpriteSheetAnim.DefineStance`, `SpriteSheets.SpriteSheetAnim4D.DefineStance` and `SpriteFrames.SpriteFrame.SetFrameOrder` require a non-empty frame order, and the two `DefineStance` a positive frame count. The source accepts an empty order, but the next tick then reads `_frameOrder[0]` as `undefined` and the frame index becomes `undefined`, which the model's `nat` frame index cannot hold.
- The listener of `defineStance` runs at bitmap load. The model runs it directly.
- `SpriteSheets.SpriteSheetAnim.Update`, `SpriteSheets.SpriteSheetAnim.OnAnimationEnd`, `SpriteSheets.SpriteSheetAnim4D.Update` and `SpriteSheets.SpriteSheetAnim4D.OnAnimationEnd` record a sheet's callback as a number. In the source the callback runs inside `updateFrameIndex` (src/Sprites/SpriteFrame.ts:76), before `_frameIndex` is read from the order (line 78) and before `updateFrameAnimation`. A callback that calls `setStance` would change the frame shown in that same tick, and a callback it arms would be cleared at once (src/Sprites/SpriteSheetAnim.ts:63). Such re-entrant callbacks are not modelled: callbacks have no effect on the sheet.
- `SpriteFrames.SpriteFrame.Update`: `bitmap.isReady()` is the `ready` parameter.
- `SpriteFrames.FrameRect`: the frame rectangle is real arithmetic.
- The `_stance` field of the sheets is never assigned by the source, so it is not modelled.
- `WindowScrolling.WindowScrollable`: the fields are undefined until the first refresh, and the model starts them at 0. `lineHeight` and `standardPadding` are constants of the window. `TouchInput.wheelY` is the `wheelY` parameter.
- `refresh`, the drawing, `update`'s arrow flag and mouse test, and `visibleLines` beyond its constant are not modelled.
