# FluidNC GUI configuration core, modelled in Dafny

This project models the core of the FluidNC GUI, a desktop tool for creating,
importing, checking and exporting FluidNC CNC controller configurations. It
covers two parts.

- **The Tauri backend's connection registry** (`lib.rs`). This is a map from
  connection ids to open serial or TCP links. It covers the connect,
  disconnect, write and status commands, the legacy serial wrappers and the
  background reader loops that turn lines into connection messages. The
  registry is a class whose `conns` field is updated in place. The operating
  system (opening ports, writes, flushes, reads) enters as oracle parameters.
- **The TypeScript configuration logic.** Configurations are JSON trees. This
  part covers:
  - the YAML structural diff with its formatting;
  - the board descriptors and machine presets;
  - the pin utilities and the pin manager, which finds conflicts and
    suggests free pins;
  - the comment templates used in the YAML export;
  - the legacy (pre-3.x, Grbl_ESP32 style) configuration mapper;
  - the expert editor's form logic;
  - the wizard's state machine;
  - each step component's validation and edit handlers (mechanics, motors,
    homing, spindle, I/O, UART, SD card, macros and review);
  - the device validation panel's parser for `MSG:ERR:`/`MSG:WARN:` device
    messages.

  JSON values are the datatype `JsonTree.Json`. An object is an ordered list
  of fields, so property order is kept. A missing property stands for
  JavaScript's `undefined`. The JavaScript notions of truthiness, `Number(…)`
  and comparison are written out in `JsonTree`. `Number(…)` of a string
  follows the StringNumericLiteral grammar of section 7.1.4.1 of ECMA-262
  (white space, sign, `Infinity`, fraction, exponent, `0x`/`0o`/`0b`), and an
  array reads as its string form; finite results are exact reals.

The main properties proved are:

- every validator reports exactly the errors of its reference definition, and
  is valid exactly when the stated conditions hold;
- every edit handler's update is stated in full: the field it names is set
  or cleared and its siblings are kept. Where a handler does more or less,
  a lemma says so. The IO handler also drops every other falsy IO value.
  Clearing the last field of a UART, SD or other section sends an empty
  update, which the wizard's shallow merge ignores. Switching the spindle
  off leaves the old section in place;
- the diff of a tree with itself or with a key-reordered copy is empty, and
  a key or index present on one side only gives exactly one added or removed
  entry;
- the legacy mapper's paths and globals behave as their tables say;
- the pin manager's available pins pass the board check, and its unassigned
  pins are used by no field;
- the wizard's navigation keeps its step index in range;
- the registry's commands keep the map. When every emit succeeds, a reader
  loop delivers exactly the lines read before the first end of stream or read
  error, in order, followed by one error message if that end was an error.
  The bytes a read had taken before it timed out are dropped, so a line that
  straddles a timeout arrives without its head.

Each file is one module. Files follow the source's structure: one file per
source module, and one per wizard step.

## Model

| member | source | states |
|---|---|---|
| Connections.Frame | apps/gui/src-tauri/src/lib.rs:60-62 | the bytes written are the data followed by exactly one newline |
| Connections.FrameDoublesTrailingNewline | apps/gui/src-tauri/src/lib.rs:91-93 | data that already ends in a newline is sent with two newlines at its end |
| Connections.WriteData | apps/gui/src-tauri/src/lib.rs:59-67 | a write adds the framed data to what the link has received exactly when the write succeeds; the result is Ok exactly when both the write and the flush succeed; a failed write or flush gives an error carrying the link's write or flush prefix, and a failed write skips the flush |
| Connections.SerialReadData | apps/gui/src-tauri/src/lib.rs:69-72 | a serial link's polled read always gives Ok(None) |
| Connections.TcpReadData | apps/gui/src-tauri/src/lib.rs:100-109 | end of stream or a timeout gives Ok(None); a line gives Ok(Some) of the line with trailing white space removed; any other error gives "TCP read error: " plus the message |
| Connections.OpenTcp | apps/gui/src-tauri/src/lib.rs:80-88 | a TCP link opens exactly when both the connect and the read timeout succeed, with nothing written yet; a failed connect is reported with the address |
| Connections.Connect | apps/gui/src-tauri/src/lib.rs:159-338 | an id already open gives Ok and changes nothing, echoing the caller's arguments; a WebSocket request is an error; every failure leaves the map and the reader threads unchanged; a success stores the address and starts exactly one reader; a serial link uses 115200 baud when none is given |
| Connections.SerialStatus | apps/gui/src-tauri/src/lib.rs:426-444 | the legacy status keeps only serial entries, so it is never longer than the list it filters |
| Connections.SerialStatusOfDefaults | apps/gui/src-tauri/src/lib.rs:433-441 | on the list the registry reports, every entry is kept, with its id as port name, 115200 baud and connected |
| Connections.Ids | apps/gui/src-tauri/src/lib.rs:372-381 | the ids of a status list, one per entry and in order |
| Connections.Registry.constructor | apps/gui/src-tauri/src/lib.rs:447-452 | the registry starts with no connections and no reader threads |
| Connections.Registry.ConnectDevice | apps/gui/src-tauri/src/lib.rs:158-338 | the new map, the threads and the result are those of `Connect` on the old state |
| Connections.Registry.DisconnectDevice | apps/gui/src-tauri/src/lib.rs:340-348 | the id is removed from the map, an unknown id included, and the result is always Ok |
| Connections.Registry.WriteDeviceData | apps/gui/src-tauri/src/lib.rs:350-363 | an unknown id gives "Connection … not found" and changes nothing; a known id's link is replaced by the link after `WriteData`, whose result is returned |
| Connections.Registry.GetDeviceConnections | apps/gui/src-tauri/src/lib.rs:365-384 | one entry per open id, no id twice, each entry a connected serial link at 115200 baud named by its id |
| Connections.Registry.ConnectSerialPort | apps/gui/src-tauri/src/lib.rs:387-407 | it connects as `Connect` does for a serial link at the given baud; success reports the port, the given baud and connected, and a failure passes the error on |
| Connections.Registry.DisconnectSerialPort | apps/gui/src-tauri/src/lib.rs:409-415 | as `DisconnectDevice` for the port name |
| Connections.Registry.WriteSerialData | apps/gui/src-tauri/src/lib.rs:417-424 | as `WriteDeviceData` for the port name |
| Connections.Registry.GetConnectionStatus | apps/gui/src-tauri/src/lib.rs:426-444 | one entry per open connection, each a port that is open, at 115200 baud and connected, and every open port listed |
| Connections.ReadLoop | apps/gui/src-tauri/src/lib.rs:202-241 | the messages the loop emits are those of the reference definition `ReaderFrom` over the read outcomes, in which a timeout, and the partial line it had read, is passed over |
| Connections.SerialReader | apps/gui/src-tauri/src/lib.rs:198-242 | the serial reader thread emits `ReaderFrom` with the prefix "Read error: " |
| Connections.TcpReader | apps/gui/src-tauri/src/lib.rs:253-315 | a failed connect emits the single error message "Failed to connect: …" and stops; otherwise the thread emits `ReaderFrom` with the prefix "TCP read error: " |
| Connections.ReaderDeliversLines | apps/gui/src-tauri/src/lib.rs:202-241 | when every emit succeeds, the messages (without timestamps) are exactly the texts of the completed reads before the first end of stream or read error, in order, trimmed, with the connection id and not marked as errors; they are followed by exactly one error message, the prefix plus the OS error, when that first end is a read error, and by nothing otherwise |
| Connections.PartialLineLost | apps/gui/src-tauri/src/lib.rs:275-298 | a line whose first part was read before a timeout is delivered as its second part only, which differs from the whole line whenever that ends in a non-white-space character |
| Connections.ReaderErrorIsLast | apps/gui/src-tauri/src/lib.rs:295-312 | an error message can only be the last one emitted, and it carries the read error prefix |
| Connections.ReaderBounded | apps/gui/src-tauri/src/lib.rs:275-314 | at most one message is emitted per read outcome; timeouts emit nothing |
| Connections.ReaderStopsAtError | apps/gui/src-tauri/src/lib.rs:216-239 | the first end of stream or read error, wherever it comes, ends the thread: whatever would be read after it changes nothing, whether or not the emits succeed |
| ConfigDiff.UnionKeysSpec | packages/core/src/diff.ts:98-101 | the keys compared are those of either object, each once |
| ConfigDiff.At | packages/core/src/diff.ts:76-93 | reading index i of an array gives a value exactly when i is below its length, otherwise `undefined` |
| ConfigDiff.CompareInto | packages/core/src/diff.ts:23-123 | the recursive `compareObjects` appends to the accumulated diffs exactly the diffs of the reference definition `Compare` |
| ConfigDiff.ArraysInto | packages/core/src/diff.ts:75-95 | the array loop appends, index by index up to the longer length, an added, removed or recursive diff as `Compare` defines |
| ConfigDiff.ObjectsInto | packages/core/src/diff.ts:97-122 | the key loop appends, key by key over the union of keys, an added, removed or recursive diff as `Compare` defines |
| ConfigDiff.ValueInto | packages/core/src/diff.ts:103-121 | one key's step appends exactly that key's diffs |
| ConfigDiff.DiffConfigurationsMethod | packages/core/src/diff.ts:17-127 | `diffConfigurations` returns exactly the diffs `Compare` gives for the two roots at the empty path |
| ConfigDiff.FlattenKeyDiffs | packages/core/src/diff.ts:103-122 | pushing each key's diffs in turn gives the same list as the per-key definition |
| ConfigDiff.FlattenItemDiffs | packages/core/src/diff.ts:77-93 | pushing each index's diffs in turn gives the same list as the per-index definition |
| DiffProperties.CompareUnder | packages/core/src/diff.ts:23-123 | every diff's path starts with the path of the comparison that produced it |
| DiffProperties.ValueDiffUnder | packages/core/src/diff.ts:103-121 | a key's diffs all lie under that key's path |
| DiffProperties.ItemDiffUnder | packages/core/src/diff.ts:78-92 | an index's diffs all lie under that index's path |
| DiffProperties.KeyDiffUnder | packages/core/src/diff.ts:107-121 | an object key's diffs all lie under the path extended by the key |
| DiffProperties.ArrayDiffsUnder | packages/core/src/diff.ts:77-93 | all diffs of an array comparison lie under the array's path |
| DiffProperties.ObjectDiffsUnder | packages/core/src/diff.ts:103-122 | all diffs of an object comparison lie under the object's path |
| DiffProperties.ObjectDiffsIsolate | packages/core/src/diff.ts:98-122 | the diffs under one key are exactly that key's diffs, and none for a key in neither object |
| DiffProperties.ArrayDiffsIsolate | packages/core/src/diff.ts:76-93 | the diffs under one index are exactly that index's diffs, and none past the longer array |
| DiffProperties.KeyIsolated | packages/core/src/diff.ts:97-122 | comparing two objects, the diffs under a key are the comparison of that key's two values, and none for a key neither has |
| DiffProperties.AddedKey | packages/core/src/diff.ts:107-112 | a key only in the new object gives exactly one "added" diff carrying the new value |
| DiffProperties.RemovedKey | packages/core/src/diff.ts:113-118 | a key only in the old object gives exactly one "removed" diff carrying the old value |
| DiffProperties.SharedKey | packages/core/src/diff.ts:119-121 | a key in both objects is compared recursively under its path |
| DiffProperties.IndexIsolated | packages/core/src/diff.ts:76-93 | comparing two arrays, the diffs under an index come from that index's two values, and none past the longer length |
| DiffProperties.AppendedIndex | packages/core/src/diff.ts:78-83 | an index present only in the new array gives exactly one "added" diff |
| DiffProperties.TruncatedIndex | packages/core/src/diff.ts:84-89 | an index present only in the old array gives exactly one "removed" diff |
| DiffProperties.LeafCases | packages/core/src/diff.ts:28-72 | null or undefined against a value gives "added", and a value against null or undefined gives "removed"; null against undefined counts as added with no value; values of different types give one "changed"; primitives differ exactly when unequal |
| DiffProperties.CompareEquivalent | packages/core/src/diff.ts:23-123 | trees with the same values under the same keys, in whatever key order, give no diffs |
| DiffProperties.CompareSelf | packages/core/src/diff.ts:17-127 | a configuration compared with itself gives no diffs |
| DiffProperties.ReorderedKeys | packages/core/src/diff.ts:98-122 | reordering an object's keys gives no diffs |
| DiffFormat.FormatJson | packages/core/src/diff.ts:132-143 | a string is shown in double quotes around its text, an array in brackets with the empty array as "[]", null as "null", a boolean as "true" or "false", a number that prints as an integer as its decimal digits, and an object as `JSON.stringify` gives it |
| DiffFormat.FormatArrayRoundTrip | packages/core/src/diff.ts:137-138 | a non-empty array is rendered item by item: the text between its brackets, split at ", ", gives back each item's own rendering, in order, provided no item's rendering contains ", " |
| DiffFormat.FormatValue | packages/core/src/diff.ts:132-143 | `undefined` is shown as "undefined"; any other value as `FormatJson` shows it |
| DiffFormat.QuotedStringsDistinct | packages/core/src/diff.ts:133-135 | different strings are shown differently, and no string is shown as "undefined" or "null" |
| DiffFormat.FormatPrimitiveExamples | packages/core/src/diff.ts:132-143 | the values from the source's tests: a string in quotes, 42, true and undefined |
| DiffFormat.FormatNumberArrayExample | packages/core/src/diff.ts:137-139 | an array of numbers is shown as "[1, 2, 3]" |
| DiffFormat.FormatStringArrayExample | packages/core/src/diff.ts:137-139 | an array of strings is shown with each string quoted |
| DiffFormat.FormatPath | packages/core/src/diff.ts:148-151 | the empty path is "(root)" and a one-segment path is that segment |
| DiffFormat.FormatPathRoundTrip | packages/core/src/diff.ts:148-151 | a non-empty path whose segments have no dots is read back by splitting its text at the dots |
| DiffFormat.FormatPathExamples | packages/core/src/diff.ts:148-151 | "(root)", "axes.x.steps_per_mm" and "homing.cycle.0" |
| JsonPaths.GetPathAppend | packages/core/src/legacy-mapper.ts:333-335 | reading a dotted path one key further reads that key of what the shorter path reaches, with optional chaining |
| JsonPaths.GetPathCons | packages/core/src/legacy-mapper.ts:333-335 | reading a path from an object starts with the object's first key |
| JsonPaths.AtSetAt | packages/core/src/legacy-mapper.ts:353-358 | after an assignment through the walking cursor, the cursor reads the value assigned |
| JsonPaths.SetAtSame | packages/core/src/legacy-mapper.ts:343-358 | assigning through the cursor what it already holds changes nothing |
| JsonPaths.SetAtTwice | packages/core/src/legacy-mapper.ts:343-358 | a second assignment through the same cursor overrides the first |
| JsonPaths.SetAtExtend | packages/core/src/legacy-mapper.ts:353-358 | assigning one key below the cursor replaces the object it points to by that object with the key set |
| JsonPaths.AtExtend | packages/core/src/legacy-mapper.ts:348-353 | following one more key from an object gives that key's value, or nothing when it is missing |
| JsonPaths.CursorStep | packages/core/src/legacy-mapper.ts:348-353 | one step of the walk (`current[key] = copy; current = current[key]`) points at the copy, and assigning through the new cursor is assigning the key below the old one |
| JsonPaths.SetPathReadBack | packages/core/src/legacy-mapper.ts:340-361 | after setting a value at a path with no empty keys, reading the path back gives that value |
| JsonPaths.SetPathOtherKeys | packages/core/src/legacy-mapper.ts:340-361 | setting a nested value leaves every top-level key other than the path's first one as it was |
| JsonPaths.GetPathObjectAt | packages/core/src/legacy-mapper.ts:333-335 | when every prefix key leads to an object, reading parent plus key reads the key of the object the parent leads to |
| JsonPaths.SetPathSiblings | apps/gui/src/components/ExpertEditor/ConfigForm.tsx:33-56 | below intermediates that were objects, setting a value at a path leaves every sibling along the path as it was |
| JsonPaths.RemoveAlong | packages/core/src/legacy-mapper.ts:368-382 | the cursor walk down fresh copies, which gives up at an empty or missing key, builds exactly the reference deletion `RemovePath` |
| JsonPaths.RemovePathMissing | packages/core/src/legacy-mapper.ts:366-383 | deleting a path whose intermediate key is missing changes nothing, because the walk gives up |
| JsonPaths.RemovePathRemovesLast | packages/core/src/legacy-mapper.ts:366-383 | when every intermediate is an object, deleting a path removes its last key and keeps the other keys of its object |
| LegacyMapper.SectionRows | packages/core/src/legacy-mapper.ts:32-107 | the table has six mappings into `motor0.` and two into `homing.`, each moving its old field to the section field of the same name or the renamed one |
| LegacyMapper.WithPrefixMeaning | packages/core/src/legacy-mapper.ts:173 | the `filter` keeps exactly the mappings whose new path starts with the prefix, in order |
| LegacyMapper.MotorSelection | packages/core/src/legacy-mapper.ts:173 | the motor mappings are the table's first six rows |
| LegacyMapper.HomingSelection | packages/core/src/legacy-mapper.ts:199 | the homing mappings are the table's two homing rows |
| LegacyMapper.GlobalTargets | packages/core/src/legacy-mapper.ts:130-134 | none of the global mappings targets `motor0.` or `homing.`, so the skip in the global loop leaves them all to run |
| LegacyMapper.MotorTable | packages/core/src/legacy-mapper.ts:34-65 | the motor mappings move distinct old fields to distinct fields of `motor0` |
| LegacyMapper.HomingTable | packages/core/src/legacy-mapper.ts:68-77 | the homing mappings move distinct old fields to distinct fields of `homing` |
| LegacyMapper.SectionsApart | packages/core/src/legacy-mapper.ts:34-77 | no old field is a section name, and no field is both a motor and a homing field |
| LegacyMapper.SectionTargets | packages/core/src/legacy-mapper.ts:186-212 | removing the section prefix from each new path gives the field written inside the section |
| LegacyMapper.SetNestedValue | packages/core/src/legacy-mapper.ts:340-361 | the cursor walk over copied objects builds exactly the reference update `SetPath` at the dot-split path |
| LegacyMapper.RemoveNestedValue | packages/core/src/legacy-mapper.ts:366-383 | `removeNestedValue` gives exactly the reference deletion `RemovePath` at the dot-split path |
| LegacyMapper.AssignUnder | packages/core/src/legacy-mapper.ts:183-187 | writing a field into a section that is an object, or missing, stores it in that section, keeping the section's other fields |
| LegacyMapper.MoveAllThrowsIff | packages/core/src/legacy-mapper.ts:175-193 | a section loop reaches an assignment into a section that cannot take a property exactly when that section is truthy but neither an object nor an array and one of the loop's old fields is present |
| LegacyMapper.ApplyAxisThrowsIff | packages/core/src/legacy-mapper.ts:169-222 | `applyAxisLegacyMappings` throws on an axis exactly when it has a legacy motor field and a truthy `motor0` that is not an object or array, or a legacy homing field and such a `homing` |
| LegacyMapper.AssignUnderOther | packages/core/src/legacy-mapper.ts:183-187 | writing into a section leaves every other top-level key as it was |
| LegacyMapper.OldPaths | packages/core/src/legacy-mapper.ts:176 | the old field names of a list of mappings, in order |
| LegacyMapper.Notes | packages/core/src/legacy-mapper.ts:190-194 | one info suggestion per applied mapping, carrying its description and the section path |
| LegacyMapper.MoveAllFrame | packages/core/src/legacy-mapper.ts:175-196 | a section's loop deletes exactly the old fields it maps; other keys outside the section are kept |
| LegacyMapper.MoveAllJournal | packages/core/src/legacy-mapper.ts:175-196 | a section's loop logs, in table order, the mappings whose old field was defined, with one suggestion each |
| LegacyMapper.MoveAllSection | packages/core/src/legacy-mapper.ts:175-196 | after a section's loop, the section is still an object, and each field in it is the moved value when one was moved, else what it held before |
| LegacyMapper.MoveAllDelivers | packages/core/src/legacy-mapper.ts:175-196 | each mapping's section field holds the old field's value when that was defined, and otherwise keeps what the section held |
| LegacyMapper.MoveSection | packages/core/src/legacy-mapper.ts:175-196 | the loop that deletes fields and writes them into the section changes the axis, the mappings and the suggestions exactly as the reference `MoveAll` |
| LegacyMapper.ApplyAxisLegacyMappings | packages/core/src/legacy-mapper.ts:169-248 | the axis after both section loops and the TMC handling, together with the logs, is exactly the reference `ApplyAxis` on a copy of the axis |
| LegacyMapper.TmcBranchesAreDead | packages/core/src/legacy-mapper.ts:224-245 | the motor loop has already removed `tmc2130` and `tmc2209`, so the TMC branches never run |
| LegacyMapper.ApplyAxisJournal | packages/core/src/legacy-mapper.ts:169-248 | an axis logs its defined motor mappings and then its defined homing mappings, in table order, with one suggestion each |
| LegacyMapper.ApplyAxisFields | packages/core/src/legacy-mapper.ts:169-248 | every legacy field is gone from the axis, and every key that is neither a legacy field nor a section is kept |
| LegacyMapper.ApplyAxisMotor | packages/core/src/legacy-mapper.ts:175-196 | each motor field holds the legacy value when one was present, and otherwise what `motor0` held |
| LegacyMapper.ApplyAxisHoming | packages/core/src/legacy-mapper.ts:201-222 | each homing field holds the legacy value when one was present, and otherwise what `homing` held |
| LegacyMapper.MotorLoopFrame | packages/core/src/legacy-mapper.ts:175-196 | the motor loop does not touch `homing` or the homing fields |
| LegacyMapper.SecondLoopDelivers | packages/core/src/legacy-mapper.ts:201-222 | the second section's loop delivers its fields whatever the first loop did, since the two do not share fields |
| LegacyMapper.SectionLoopsHoming | packages/core/src/legacy-mapper.ts:198-222 | after both loops, each homing field holds the moved value or what `homing` held |
| LegacyMapper.FlattenAllLookup | packages/core/src/legacy-mapper.ts:305-311 | the loop moves exactly the axis names whose value is a truthy object out of the configuration, into the flat axes |
| LegacyMapper.FlattenAllDistinct | packages/core/src/legacy-mapper.ts:305-311 | no axis is collected twice |
| LegacyMapper.FlattenAllMoved | packages/core/src/legacy-mapper.ts:302-311 | `hasAxes` is set exactly when some axis name holds a truthy object, and otherwise nothing was removed |
| LegacyMapper.NestUnchanged | packages/core/src/legacy-mapper.ts:313-325 | with no flat axes, the configuration and the suggestions come back unchanged |
| LegacyMapper.NestKeys | packages/core/src/legacy-mapper.ts:297-328 | apart from `axes`, the result has every key of the configuration except the flat axes moved |
| LegacyMapper.NestAxes | packages/core/src/legacy-mapper.ts:313-325 | with flat axes, `axes` holds the old axes with the flat ones laid over them, and one conversion note is added |
| LegacyMapper.EnsureAxesMeaning | packages/core/src/legacy-mapper.ts:297-328 | `ensureAxesStructure` changes nothing without flat axes; with them it adds the conversion note and nests the axis objects under `axes`, overriding the same names there |
| LegacyMapper.EnsureAxesDistinct | packages/core/src/legacy-mapper.ts:313-318 | the merged `axes` object has no key twice |
| LegacyMapper.EnsureAxesStructure | packages/core/src/legacy-mapper.ts:297-328 | the loop's result and suggestions are exactly those of the reference `EnsureAxes` |
| LegacyTable.OldPathsHaveNoDot | packages/core/src/legacy-mapper.ts:80-106 | every global mapping's old path is a single non-empty key |
| LegacyTable.NewPathsSingle | packages/core/src/legacy-mapper.ts:80-89 | the two renames target a single top-level key |
| LegacyTable.NewPathsPair | packages/core/src/legacy-mapper.ts:92-106 | the spindle mappings target `spindle.` plus a field, two keys joined by one dot |
| LegacyTable.GlobalRowSplits | packages/core/src/legacy-mapper.ts:130-152 | splitting each global mapping's paths at the dots gives its one old key and its one or two new keys |
| LegacyTable.GlobalAvoids | packages/core/src/legacy-mapper.ts:130-152 | no global mapping reads or writes `axes` or an axis name, so the global loop leaves the axes as the axis pass made them |
| LegacyGlobals.GlobalSplits | packages/core/src/legacy-mapper.ts:130-152 | each global mapping moves one key to a one- or two-key path |
| LegacyGlobals.GlobalApart | packages/core/src/legacy-mapper.ts:130-152 | a later global mapping never deletes or overwrites what an earlier one wrote |
| LegacyGlobals.StepSets | packages/core/src/legacy-mapper.ts:136-151 | a global mapping whose old value is defined leaves that value at its new path, with the old key deleted |
| LegacyGlobals.StepIsWrite | packages/core/src/legacy-mapper.ts:136-151 | the step is a removal of the old key followed by a set at the new path, and the mapping is logged |
| LegacyGlobals.WriteKeeps | packages/core/src/legacy-mapper.ts:139-143 | a step that spares a written path keeps the value there |
| LegacyGlobals.StepKeeps | packages/core/src/legacy-mapper.ts:130-152 | a later step that spares a path keeps what an earlier step wrote there |
| LegacyGlobals.GlobalAllConcat | packages/core/src/legacy-mapper.ts:130-152 | running the global loop over two lists in turn is running it over their concatenation |
| LegacyGlobals.GlobalAllSkips | packages/core/src/legacy-mapper.ts:132-134 | mappings that target `motor0.` or `homing.` are skipped by the global loop |
| LegacyGlobals.OnlyGlobalsAct | packages/core/src/legacy-mapper.ts:130-152 | the global loop over the whole table does exactly what it does over the global rows |
| LegacyGlobals.GlobalReadBack | packages/core/src/legacy-mapper.ts:130-152 | after the global loop, each global mapping whose old value is defined has that value at its new path and its old key gone |
| LegacyGlobals.SeenOldValue | packages/core/src/legacy-mapper.ts:136 | the global loop reads the old value from the original configuration, not from the transformed copy |
| LegacyGlobals.TransformGlobals | packages/core/src/legacy-mapper.ts:112-164 | a global legacy field present in the input is, in the result, at its new path, gone from its old one and logged as applied |
| LegacyGlobals.GlobalsKeep | packages/core/src/legacy-mapper.ts:130-152 | the global loop leaves `axes` and every axis name as they were |
| LegacyGlobals.ApplyAxesExtends | packages/core/src/legacy-mapper.ts:121-127 | the axis pass only appends suggestions |
| LegacyGlobals.GlobalAllExtends | packages/core/src/legacy-mapper.ts:130-152 | the global loop only appends suggestions |
| LegacyGlobals.EnsuredAxes | packages/core/src/legacy-mapper.ts:297-328 | after nesting, `axes` is an object without repeated keys, and each axis is the flat one when there was one, else the nested one |
| LegacyGlobals.AxesStageAxes | packages/core/src/legacy-mapper.ts:115-127 | after nesting and the axis pass, each axis under `axes` is its converted form, and a flat axis is gone from the top level |
| LegacyGlobals.AxesStageNote | packages/core/src/legacy-mapper.ts:313-325 | with flat axes the first suggestion is the conversion note |
| LegacyGlobals.TransformData | packages/core/src/legacy-mapper.ts:112-164 | the transformed data is the axis stage followed by the global loop |
| LegacyGlobals.TransformAxes | packages/core/src/legacy-mapper.ts:112-164 | in the result each axis sits under `axes` in converted form, and no flat axis object is left at the top level |
| LegacyGlobals.TransformNote | packages/core/src/legacy-mapper.ts:112-164 | a flat configuration's result opens with the conversion note |
| LegacyGlobals.FlatAxisMoved | packages/core/src/legacy-mapper.ts:112-164 | a flat axis without legacy fields and without an existing `axes` ends up unchanged under `axes`, and is gone from the top level |
| LegacyTransform.DetectDrivers | packages/core/src/legacy-mapper.ts:264-273 | the driver loop appends one note per old driver name found in the serialised configuration, in the list's order |
| LegacyTransform.AddLegacyPatternSuggestions | packages/core/src/legacy-mapper.ts:253-292 | appends the flat-axes warning, the driver notes, the missing-board warning and the missing-name note as their conditions say; a null configuration fails, as reading a property of null throws |
| LegacyTransform.Transform | packages/core/src/legacy-mapper.ts:112-164 | the transform fails only for a null configuration; otherwise it reports success with no errors; the global reads and the pattern check see the input as the axis pass left it |
| LegacyTransform.RewriteEntry | packages/core/src/legacy-mapper.ts:122-126 | one entry of the axis pass replaces an axis object by its converted form and skips anything else |
| LegacyTransform.RewriteAxes | packages/core/src/legacy-mapper.ts:121-127 | the axis pass's loop gives exactly the reference `ApplyAxes` |
| LegacyTransform.ApplyGlobalMappings | packages/core/src/legacy-mapper.ts:130-152 | the global loop's result and logs are exactly the reference `GlobalAll` |
| LegacyTransform.TransformLegacyConfig | packages/core/src/legacy-mapper.ts:112-164 | `transformLegacyConfig` returns exactly the reference `Transform`, including the input it reads after the axis pass has written into the objects it shares with the copy |
| LegacyTransform.MoveAllAbsent | packages/core/src/legacy-mapper.ts:175-196 | a section loop over an axis with none of its old fields changes nothing |
| LegacyTransform.AxisWithoutLegacyFields | packages/core/src/legacy-mapper.ts:169-248 | an axis with no legacy field comes back as it was |
| LegacyTransform.ApplyAxesEntries | packages/core/src/legacy-mapper.ts:121-127 | after the axis pass every key under `axes` holds its converted form |
| LegacyTransform.TransformJournal | packages/core/src/legacy-mapper.ts:112-164 | the suggestions logged by the axis pass and the global loop are all journal notes of applied mappings |
| LegacyTransform.DriverNotesMeaning | packages/core/src/legacy-mapper.ts:264-273 | a driver note is reported exactly for the old driver names contained in the text |
| LegacyTransform.DriverNoteInjective | packages/core/src/legacy-mapper.ts:268-270 | different drivers give different notes |
| LegacyTransform.DriverNotesShape | packages/core/src/legacy-mapper.ts:267-271 | every driver note is an info suggestion with the upgrade hint and no path |
| LegacyTransform.DriverNoteMember | packages/core/src/legacy-mapper.ts:264-273 | a driver's note is present exactly when it is one of the four old drivers and appears in the text |
| LegacyTransform.PatternSuggestionsMeaning | packages/core/src/legacy-mapper.ts:253-292 | each pattern suggestion is present exactly when its condition holds, and none of them is a mapping note |
| LegacyTransform.SeenProp | packages/core/src/legacy-mapper.ts:136 | the input as the axis pass leaves it has every top-level property but `axes` exactly as truthy as before, and every one outside the axis names unchanged |
| LegacyTransform.SeenFlat | packages/core/src/legacy-mapper.ts:121-127 | with flat axes, the input after the axis pass is the input with each flat axis, and each `axes` entry no flat axis overrides, given the writes of its conversion |
| LegacyTransform.SeenNoFlat | packages/core/src/legacy-mapper.ts:121-127 | without flat axes the axis pass changes no top-level property of the input but `axes` |
| LegacyTransform.SharedSectionOf | packages/core/src/legacy-mapper.ts:170-213 | an axis's `motor0` or `homing` object is, after the pass, the converted axis's section, because the shallow copy shares it |
| LegacyTransform.LookupSharedFlat | packages/core/src/legacy-mapper.ts:304-318 | the writes replace exactly the flat axis objects and keep the input's keys |
| LegacyTransform.SharedInputKeeps | packages/core/src/legacy-mapper.ts:304-318 | the writes keep each top-level property's truthiness and change none outside the axis names |
| LegacyTransform.SharedInputAxis | packages/core/src/legacy-mapper.ts:304-318 | a flat axis of the input becomes that axis with its own conversion's writes |
| LegacyTransform.SeenPresence | packages/core/src/legacy-mapper.ts:155 | `board`, `name`, `x`, `y` and `z` are as truthy in the input the pattern check reads as in the input |
| LegacyGlobals.SeenFlatAxis | packages/core/src/legacy-mapper.ts:121-127 | with flat axes, a flat axis of the input after the pass is the axis with the writes of its own conversion |
| LegacyGlobals.SeenFlatMotor | packages/core/src/legacy-mapper.ts:183-187 | with flat axes, a flat axis whose `motor0` is an object holds each moved motor field under its new name in that `motor0` after the pass |
| LegacyGlobals.SeenFlatHoming | packages/core/src/legacy-mapper.ts:209-213 | the same for the moved homing fields in the axis's own `homing` object |
| LegacyTransform.TransformPatterns | packages/core/src/legacy-mapper.ts:155 | the result carries the missing-board warning, the missing-name note and the flat-axes warning exactly when their conditions hold on the input, and each driver note exactly when the driver's name occurs in the serialised input as the axis pass left it |
| LegacyErrors.FriendlyHint | packages/core/src/legacy-mapper.ts:393-408 | the hint chosen for each issue code and path, in the source's order of tests; no other code gets a hint |
| LegacyErrors.FriendlyError | packages/core/src/legacy-mapper.ts:410-415 | an error suggestion whose message is the dotted path, ": " and the issue's message, with the issue's path and its hint |
| LegacyErrors.GenerateUserFriendlyErrors | packages/core/src/legacy-mapper.ts:388-419 | one suggestion per issue, in order |
| LegacyErrors.MessageThree | packages/core/src/legacy-mapper.ts:392-412 | a three-key path is shown as the keys joined by dots |
| LegacyErrors.StepsExample | packages/core/src/legacy-mapper.ts:396-398 | a wrong type under `steps_per_mm` gets the steps hint |
| LegacyErrors.RateExample | packages/core/src/legacy-mapper.ts:404-406 | a too-small rate gets the positive-value hint |
| LegacyErrors.OtherCodesNoHint | packages/core/src/legacy-mapper.ts:396-408 | issue codes other than `invalid_type` and `too_small` get no hint |
| Boards.FindKey | packages/core/src/boards/index.ts:262-264 | the record lookup finds a board exactly when its id is a key of the table, and gives that key's board |
| Boards.GetBoardDescriptor | packages/core/src/boards/index.ts:262-264 | a board is found exactly for the four known ids, and it is the board with that id |
| Boards.GetAllBoardDescriptors | packages/core/src/boards/index.ts:266-268 | the descriptors of the table, in its order |
| Boards.GetBoardIds | packages/core/src/boards/index.ts:270-272 | the ids of the table, in its order |
| Boards.BoardTableShape | packages/core/src/boards/index.ts:254-260 | the ids are esp32, esp32-s2, esp32-s3 and esp32-c3, and each board's id is its own key |
| Boards.FindByName | packages/core/src/boards/index.ts:274-278 | `find` gives the first board whose name matches ignoring case, and none exactly when no name matches |
| Boards.FindBoardByName | packages/core/src/boards/index.ts:274-278 | the board found has the requested name ignoring case, and none is found exactly when no board has it |
| Boards.LowerNames | packages/core/src/boards/index.ts:248-251 | the four boards' names in lower case are their ids |
| Boards.FindBoardByOwnName | packages/core/src/boards/index.ts:274-278 | every board is found by its own name in any case |
| Boards.BoardIdExamples | packages/core/src/boards/index.ts:262-264 | "esp32" gives the ESP32 board and "nonexistent" gives none |
| Boards.BoardNameExamples | packages/core/src/boards/index.ts:274-278 | "esp32" and "ESP32-S3" find their boards |
| Boards.UnknownBoardName | packages/core/src/boards/index.ts:274-278 | an unknown name finds no board |
| Presets.FindById | packages/presets/src/index.ts:107-109 | a preset is found exactly when one has the id, and it is one with that id |
| Presets.GetPresetById | packages/presets/src/index.ts:107-109 | as `FindById` over the default presets |
| Presets.OfCategory | packages/presets/src/index.ts:111-113 | the filter keeps exactly the presets of the category |
| Presets.GetPresetsByCategory | packages/presets/src/index.ts:111-113 | exactly the default presets of the category |
| Presets.OfCategoryConcat | packages/presets/src/index.ts:111-113 | filtering two lists in turn is filtering their concatenation, so the order is kept |
| Presets.PresetTable | packages/presets/src/index.ts:19-105 | the two presets have distinct ids and are found by them; the router category holds the basic router, mill holds the CNC with outputs, and laser holds none |
| PinUtils.PinNumberOf | packages/core/src/pin-utils.ts:22-25 | a prefix in any case, a dot and a non-empty run of digits gives the digits' value |
| PinUtils.GpioNumberForm | packages/core/src/pin-utils.ts:22-25 | a GPIO number is extracted only from "gpio", in any case, followed by a dot and digits, and it is the digits' value |
| PinUtils.GpioRoundTrip | packages/core/src/pin-utils.ts:22-25 | "gpio." followed by a number's decimal digits gives that number back |
| PinUtils.FieldCandidates | packages/core/src/pin-utils.ts:44-62 | one candidate per listed field, with the field's value and its source path |
| PinUtils.AddSource | packages/core/src/pin-utils.ts:34-41 | recording a source appends it to the pin's list and leaves every other pin's list as it was |
| PinUtils.AddPinWellformed | packages/core/src/pin-utils.ts:34-41 | `addPin` keeps the record well formed: each pin listed once in key order, with a non-empty list of sources |
| PinUtils.AddAllWellformed | packages/core/src/pin-utils.ts:30-127 | a run of `addPin` calls keeps the record well formed |
| PinUtils.SourcesOfAddPin | packages/core/src/pin-utils.ts:34-41 | `addPin` appends the source to the pin's list exactly when the value is a non-blank string equal to the pin |
| PinUtils.SourcesOfAddAll | packages/core/src/pin-utils.ts:30-127 | a run of `addPin` calls appends, for each pin, the sources of the candidates naming it, in order |
| PinUtils.AddAllConcat | packages/core/src/pin-utils.ts:30-127 | adding two runs of candidates in turn is adding their concatenation |
| PinUtils.AssignmentsMeaning | packages/core/src/pin-utils.ts:30-127 | each pin's list is exactly the sources of the candidates naming it, a pin is a key exactly when some candidate names it, and the record is well formed |
| PinUtils.SourcesInVisitingOrder | packages/core/src/pin-utils.ts:44-124 | each pin's sources come in the order io, axes, spindle, control, uart |
| PinUtils.UnrecordableIgnored | packages/core/src/pin-utils.ts:35 | a blank pin is never recorded |
| PinUtils.AddAxes | packages/core/src/pin-utils.ts:65-89 | the `forEach` over the axes adds exactly the candidates of each axis's motor, in order |
| PinUtils.AddUarts | packages/core/src/pin-utils.ts:109-124 | the `forEach` over the UART channels adds exactly the string pins of each object channel, in order |
| PinUtils.ExtractAllPinAssignments | packages/core/src/pin-utils.ts:30-127 | the method's record is exactly the reference `AssignmentsOf` |
| PinUtils.ConflictsIn | packages/core/src/pin-utils.ts:189-193 | the conflicts keep only pins from the keys visited, in visiting order |
| PinUtils.ConflictsInMeaning | packages/core/src/pin-utils.ts:189-193 | a visited pin is a conflict exactly when more than one source uses it, and it keeps all its sources |
| PinUtils.ConflictsMeaning | packages/core/src/pin-utils.ts:185-196 | a pin is a conflict exactly when more than one field uses it, with all of those fields |
| PinUtils.GetPinConflicts | packages/core/src/pin-utils.ts:185-196 | the method's conflicts are exactly the reference `ConflictsOf` |
| PinUtils.KeepConflicts | packages/core/src/pin-utils.ts:189-193 | the `forEach` keeps exactly the pins with more than one user |
| PinUtils.FindPin | packages/core/src/pin-utils.ts:156 | a board pin is found exactly when the board has that GPIO number, and it is one with that number |
| PinUtils.UsageStatus | packages/core/src/pin-utils.ts:165-179 | a pin is used exactly when some field uses it, and valid exactly when at most one does; otherwise the one error names all users |
| PinUtils.PinStatusOf | packages/core/src/pin-utils.ts:132-180 | a malformed pin gets only the format error; a GPIO the board lacks gets only the not-available error; valid means no error, used means some user |
| PinUtils.PinStatusUsage | packages/core/src/pin-utils.ts:155-179 | a well-formed pin the board accepts has the usage of the configuration, and the board pin found has its GPIO number |
| PinUtils.GetPinStatus | packages/core/src/pin-utils.ts:132-180 | the method's status is exactly the reference `PinStatusOf` |
| PinUtils.Without | packages/core/src/pin-utils.ts:219 | the filter removes exactly the source field from the users |
| PinUtils.ValidationOf | packages/core/src/pin-utils.ts:219-230 | the pin status's errors come first; the assignment is valid exactly when the status has no error and no field but the source uses the pin |
| PinUtils.IsValidPinAssignment | packages/core/src/pin-utils.ts:201-231 | a blank pin is always valid; any other pin is valid exactly when its status has no error and it has no user but the source field |
| PinManager.BoardFor | apps/gui/src/hooks/usePinManager.ts:16-18 | the board found is the one whose id the configuration names, and a known id always finds one |
| PinManager.UpperCaseBoardNameFindsNoBoard | apps/gui/src/hooks/usePinManager.ts:16-18 | `board: "ESP32"` finds no board, since the lookup is by id and ids are lower case |
| PinManager.GetPinStatusFor | apps/gui/src/hooks/usePinManager.ts:38-50 | a blank pin gets the blank valid status; any other pin gets its status on the configuration's board |
| PinManager.ValidatePinAssignment | apps/gui/src/hooks/usePinManager.ts:55-75 | a blank pin is valid; valid exactly when there is no error |
| PinManager.ValidateAgreesWithCore | apps/gui/src/hooks/usePinManager.ts:55-75 | the hook's check agrees with the core's `isValidPinAssignment` on the configuration's board |
| PinManager.ValidateNamesOtherUsers | apps/gui/src/hooks/usePinManager.ts:63-69 | when another field uses the pin, the errors after the status's own end with a conflict naming exactly those other fields |
| PinManager.StatusClassCases | apps/gui/src/hooks/usePinManager.ts:80-101 | "empty" exactly for a blank pin, "invalid" exactly when pin validation fails, "used" exactly when it passes and the pin is used; "conflict" is never returned, since passing validation leaves no other user |
| PinManager.GetAvailablePins | apps/gui/src/hooks/usePinManager.ts:145-155 | no board gives no choices; otherwise one "gpio.N" choice per board pin, in order, titled "GPIO N" |
| PinManager.AvailablePinsPassBoardCheck | apps/gui/src/hooks/usePinManager.ts:145-155 | every offered choice is well formed and is found on the board |
| PinManager.Unassigned | apps/gui/src/hooks/usePinManager.ts:160-165 | the choices kept are exactly those whose pin nobody uses, in order |
| PinManager.UnassignedPinsAreUnused | apps/gui/src/hooks/usePinManager.ts:160-165 | no field of the configuration uses an offered unassigned pin |
| PinManager.NothingAssigned | apps/gui/src/hooks/usePinManager.ts:160-165 | with nothing assigned, every choice is offered |
| PinManager.HasPinConflictsMeaning | apps/gui/src/hooks/usePinManager.ts:31-33 | there are conflicts exactly when some pin has more than one user |
| CommentTemplates.FindPath | packages/core/src/comment-templates.ts:432 | the entry found has the path asked for and is in the table |
| CommentTemplates.FindPathMeaning | packages/core/src/comment-templates.ts:432 | `find` gives nothing exactly when no entry has the path, and otherwise the first entry that has it |
| CommentTemplates.LastSegment | packages/core/src/comment-templates.ts:438-439 | the last part of a dotted path has no dot |
| CommentTemplates.LastSegmentIsSuffix | packages/core/src/comment-templates.ts:438-439 | the last part is a suffix of the path, preceded by a dot unless it is the whole path |
| CommentTemplates.CommentFor | packages/core/src/comment-templates.ts:430-441 | the exact match comes first, then the first entry for the path's last part; nothing is found exactly when no entry has either |
| CommentTemplates.FindPathConcat | packages/core/src/comment-templates.ts:15-425 | searching the table section by section finds what searching it whole finds |
| CommentTemplates.AxisCommentsMatchSection | packages/core/src/comment-templates.ts:446-463 | for each of x, y, z, a, b and c, in any case, the axis comment is the table's comment for that axis |
| CommentTemplates.AxisEntry | packages/core/src/comment-templates.ts:38-68 | the axes section's entry for each letter is the first with its path `axes.<letter>`, and the root section has none |
| CommentTemplates.AxisLetterComment | packages/core/src/comment-templates.ts:446-459 | each letter, in either case, gets the comment of its `axes.<letter>` entry |
| CommentTemplates.AxisCommentsMatchTable | packages/core/src/comment-templates.ts:38-68 | the table has an entry for each axis path, and `getAxisComment` gives its text |
| CommentTemplates.BoardComment | packages/core/src/comment-templates.ts:22-26 | the path "board" gets the board comment |
| CommentTemplates.OtherAxisComment | packages/core/src/comment-templates.ts:460-461 | any other axis name gets its upper-case form followed by "-axis configuration" |
| ConfigForm.GetPathNone | apps/gui/src/components/ExpertEditor/ConfigForm.tsx:26-29 | once the walk has reached undefined it stays undefined |
| ConfigForm.GetValueAtPath | apps/gui/src/components/ExpertEditor/ConfigForm.tsx:22-31 | the loop reads exactly what following the path through the tree reaches, the object itself for the empty path and undefined after a null or missing step |
| ConfigForm.GetAtNull | apps/gui/src/components/ExpertEditor/ConfigForm.tsx:27 | a null value read with any non-empty path gives undefined |
| ConfigForm.StepPinExample | apps/gui/src/components/ExpertEditor/ConfigForm.tsx:22-31 | reading `axes.x.motor0.step_pin` from a nested configuration gives the pin |
| ConfigForm.SetValueAtPath | apps/gui/src/components/ExpertEditor/ConfigForm.tsx:33-56 | the cursor walk gives exactly the reference `ValueSet`: the value itself at the empty path, otherwise the copy with the value set along the path |
| ConfigForm.DeleteValueAtPath | apps/gui/src/components/ExpertEditor/ConfigForm.tsx:58-77 | the same cursor walk gives exactly the reference `ValueDeleted`: an empty object at the empty path, otherwise the copy with the last key deleted |
| ConfigForm.SetValueReadBack | apps/gui/src/components/ExpertEditor/ConfigForm.tsx:33-56 | after setting a value at a path of non-empty keys, reading the path back gives that value |
| ConfigForm.SetPathMakesObjects | apps/gui/src/components/ExpertEditor/ConfigForm.tsx:42-47 | every intermediate along the path is an object afterwards, missing and null ones becoming `{}` |
| ConfigForm.SetValueSiblings | apps/gui/src/components/ExpertEditor/ConfigForm.tsx:36-53 | the other keys of the object the path ends in are kept |
| ConfigForm.DeleteRemovesLast | apps/gui/src/components/ExpertEditor/ConfigForm.tsx:58-77 | deleting removes the last key and keeps the other keys of its object |
| ConfigForm.DeleteMissing | apps/gui/src/components/ExpertEditor/ConfigForm.tsx:64-69 | a missing intermediate returns the copy unchanged |
| ConfigForm.HandleValueChange | apps/gui/src/components/ExpertEditor/ConfigForm.tsx:82-85 | the new configuration is the value set at the selected path |
| ConfigForm.HandleDeleteKey | apps/gui/src/components/ExpertEditor/ConfigForm.tsx:87-92 | nothing happens at the root; otherwise the new configuration is the selected path deleted |
| ConfigForm.AddedValue | apps/gui/src/components/ExpertEditor/ConfigForm.tsx:97-107 | a blank text, or one that does not parse as JSON, is kept as the string typed; otherwise the parsed value is used |
| ConfigForm.HandleAddKey | apps/gui/src/components/ExpertEditor/ConfigForm.tsx:94-115 | nothing happens for a blank key name; otherwise the added value is set at the selected path plus the key |
| ConfigForm.AddKeyReadBack | apps/gui/src/components/ExpertEditor/ConfigForm.tsx:94-111 | the added key reads back as the value given |
| Wizard.NextIndex | apps/gui/src/components/Wizard/index.tsx:51-65 | Next moves one step forward exactly when the current step's entry is `true` and the step is not the last, and otherwise stays |
| Wizard.BackIndex | apps/gui/src/components/Wizard/index.tsx:57-71 | Back moves one step back from any step but the first, and stays on the first |
| Wizard.StepsView | apps/gui/src/components/Wizard/index.tsx:79-83 | one entry per wizard step, in order, valid exactly when its entry is `true`, completed exactly when it comes before the current step or is valid |
| Wizard.Completed | apps/gui/src/components/Wizard/index.tsx:73-77 | the configuration is handed on exactly when the review step is validated |
| Wizard.IndexInRange | apps/gui/src/components/Wizard/index.tsx:25-71 | Next and Back keep the index within the seven steps |
| Wizard.BackUndoesNext | apps/gui/src/components/Wizard/index.tsx:61-71 | Back after a Next that moved returns to the step the wizard was on |
| Wizard.NextBlocked | apps/gui/src/components/Wizard/index.tsx:51-65 | Next does not move from the last step or from a step that is not validated, an unset entry included |
| Wizard.OtherEntryKeepsAdvance | apps/gui/src/components/Wizard/index.tsx:43-55 | setting another step's entry does not change whether the current step can advance |
| Wizard.CompletedBefore | apps/gui/src/components/Wizard/index.tsx:79-83 | every step before the current one shows as completed; from the current one on, completed means valid |
| Wizard.UpdateKeepsOthers | apps/gui/src/components/Wizard/index.tsx:47-49 | the shallow merge keeps every key the update leaves out |
| Wizard.UpdateReplaces | apps/gui/src/components/Wizard/index.tsx:47-49 | the shallow merge takes every key the update carries from the update |
| Wizard.WizardState.constructor | apps/gui/src/components/Wizard/index.tsx:36-41 | the wizard starts on the first step, with no validation entries and the default name and an empty board |
| Wizard.WizardState.UpdateStepValidation | apps/gui/src/components/Wizard/index.tsx:43-45 | only the given step's entry changes |
| Wizard.WizardState.UpdateConfig | apps/gui/src/components/Wizard/index.tsx:47-49 | the configuration becomes the shallow merge of the update into it, and nothing else changes |
| Wizard.WizardState.HandleNext | apps/gui/src/components/Wizard/index.tsx:61-65 | the index becomes `NextIndex` of the old index, and nothing else changes |
| Wizard.WizardState.HandleBack | apps/gui/src/components/Wizard/index.tsx:67-71 | the index becomes `BackIndex` of the old index, and nothing else changes |
| Wizard.WizardState.HandleComplete | apps/gui/src/components/Wizard/index.tsx:73-77 | the configuration handed on, if any, is `Completed` of the state |
| Wizard.WizardState.Steps | apps/gui/src/components/Wizard/index.tsx:79-83 | the steps shown are `StepsView` of the state |
| DeviceValidation.ContentAfterTag | apps/gui/src/components/DeviceValidation.tsx:90 | the content is the text after the "MSG:ERR:" or "MSG:WARN:" tag, trimmed |
| DeviceValidation.TagsExclusive | apps/gui/src/components/DeviceValidation.tsx:88-89 | no message is both an error and a warning |
| DeviceValidation.StripTag | apps/gui/src/components/DeviceValidation.tsx:90 | the replacement removes exactly the leading tag, and leaves any other message whole |
| DeviceValidation.Parse | apps/gui/src/components/DeviceValidation.tsx:87-108 | an error appends its content to the errors and sets "fail"; a warning appends to the warnings and moves "pending" to "warn" only; anything else changes nothing |
| DeviceValidation.FailIsFinal | apps/gui/src/components/DeviceValidation.tsx:92-107 | parsing never leaves "fail" |
| DeviceValidation.ParseAppendsOne | apps/gui/src/components/DeviceValidation.tsx:92-107 | each tagged message adds exactly one entry, and the old lists are kept as prefixes |
| DeviceValidation.ParseConsistent | apps/gui/src/components/DeviceValidation.tsx:92-107 | parsing keeps the status consistent with the lists: "fail" exactly when there is an error, "warn" only with a warning |
| DeviceValidation.ParseFails | apps/gui/src/components/DeviceValidation.tsx:95-97 | after a parse the status is "fail" exactly when it was "fail" or the message is an error |
| DeviceValidation.ParseAllConsistent | apps/gui/src/components/DeviceValidation.tsx:87-108 | from the reset result, a run of messages ends in "fail" exactly when one of them is an error, and the result stays consistent |
| DeviceValidation.ValidationPanel.constructor | apps/gui/src/components/DeviceValidation.tsx:43-51 | the panel starts pending, with no messages, no error and not validating |
| DeviceValidation.ValidationPanel.ParseValidationMessage | apps/gui/src/components/DeviceValidation.tsx:87-108 | the result becomes `Parse` of the old result, and nothing else changes |
| DeviceValidation.ValidationPanel.OnConnectionData | apps/gui/src/components/DeviceValidation.tsx:72-80 | only tagged messages are recorded and parsed; any other data changes nothing |
| DeviceValidation.ValidationPanel.StartUpload | apps/gui/src/components/DeviceValidation.tsx:152-166 | without a connection the panel shows "Not connected to device" and changes nothing else; otherwise it clears the error and the messages, resets the result to pending and starts validating |
| DeviceValidation.ValidationPanel.UploadFailed | apps/gui/src/components/DeviceValidation.tsx:209-218 | a failed upload appends "Upload error: …", sets "fail", shows "Validation failed: …" and stops validating |
| StepCommon.FlatMapEmpty | apps/gui/src/components/Wizard/steps/MechanicsStep.tsx:27-42 | a per-entry error loop reports nothing exactly when no entry has an error |
| StepCommon.FlatMapHas | apps/gui/src/components/Wizard/steps/MechanicsStep.tsx:27-42 | a message is reported exactly when some entry reports it |
| StepCommon.ForEachPush | apps/gui/src/components/Wizard/steps/MechanicsStep.tsx:27-42 | a `forEach` that pushes each entry's errors appends exactly their concatenation, in order |
| StepCommon.Prefixed | apps/gui/src/components/Wizard/steps/MechanicsStep.tsx:30-32 | each schema message is reported with the axis prefix, one for one |
| StepCommon.PushPrefixed | apps/gui/src/components/Wizard/steps/MechanicsStep.tsx:30-32 | the inner `forEach` appends the prefixed messages in order |
| StepCommon.NumberTests | apps/gui/src/components/Wizard/steps/MechanicsStep.tsx:36-41 | for a number, `!x \|\| x <= 0` holds exactly when it is not positive, and `x && x <= 0` exactly when it is negative; a missing value fails the first test and passes the second |
| StepCommon.TextTests | apps/gui/src/components/Wizard/steps/MechanicsStep.tsx:36-41 | a non-empty text fails `!x \|\| x <= 0` exactly when the number it reads as is positive, and passes `x && x <= 0` exactly when it is not |
| StepCommon.ArrayTests | apps/gui/src/components/Wizard/steps/MechanicsStep.tsx:36-41 | a number in a one-item array is truthy even when zero, so both tests hold exactly when it is not positive |
| JsonTree.ComparesAs | apps/gui/src/components/Wizard/steps/HomingStep.tsx:38-46 | a value that reads as a finite number compares with `<=`, `<` and `>` as that number |
| JsonTree.DecimalForm | apps/gui/src/components/Wizard/steps/HomingStep.tsx:38 | a decimal digit text reads as its value, and digits, `e` and digits read as the first value times ten to the second |
| JsonTree.MinusNegates | apps/gui/src/components/Wizard/steps/HomingStep.tsx:42-46 | a minus sign before an unsigned decimal text negates what it reads as |
| JsonTree.RadixForm | apps/gui/src/components/Wizard/steps/HomingStep.tsx:38 | `0x`, `0o` or `0b` (either case) followed by digits of that base reads as their value in that base |
| JsonTree.InfinityText | apps/gui/src/components/Wizard/steps/UARTStep.tsx:62 | `Infinity` and `-Infinity`, after trimming, read as the infinities |
| JsonTree.NumberRoundTrip | apps/gui/src/components/Wizard/steps/UARTStep.tsx:62 | every natural number's decimal text, bare or in a one-item array, reads back as that number |
| JsonTree.SingleItem | apps/gui/src/components/Wizard/steps/HomingStep.tsx:38 | a number, string or array reads the same inside a one-item array, and any two-item array is NaN |
| JsonTree.ScaledSign | apps/gui/src/components/Wizard/steps/HomingStep.tsx:38 | scaling by a power of ten keeps a value's sign and commutes with negation |
| StepCommon.Or | apps/gui/src/components/Wizard/steps/UARTStep.tsx:77-78 | `a \|\| b` gives a when it is truthy and b otherwise |
| StepCommon.SpreadSetLookup | apps/gui/src/components/Wizard/steps/HomingStep.tsx:76-79 | `{...o, [k]: v}` holds v at k and o's value at every other key |
| StepCommon.SetInLookup | apps/gui/src/components/Wizard/steps/MechanicsStep.tsx:83-89 | `{...o, [k]: {...o[k], [f]: v}}` sets f inside k and keeps everything else |
| StepCommon.Toggle | apps/gui/src/components/Wizard/steps/MechanicsStep.tsx:57-59 | a selected name is removed from the list, and any other name is appended |
| StepCommon.ToggleFlips | apps/gui/src/components/Wizard/steps/HomingStep.tsx:84-86 | toggling flips whether the name is selected and leaves every other name as it was |
| StepCommon.ToggleTwice | apps/gui/src/components/Wizard/steps/MechanicsStep.tsx:57-59 | toggling an unselected name twice restores the list |
| StepCommon.SetOrDeleteLookup | apps/gui/src/components/Wizard/steps/SDStep.tsx:58-64 | the edited field holds the value, or is deleted when the value is the empty string; other fields are kept |
| StepCommon.UpdateIfAny | apps/gui/src/components/Wizard/steps/SDStep.tsx:66-68 | the update carries the section only when something is left in it, and is empty otherwise |
| StepCommon.FieldEditEffect | apps/gui/src/components/Wizard/steps/SDStep.tsx:55-69 | a section field edit sets or clears the field in a copy of the section, keeps its other fields, and sends the section only when it is not empty |
| StepCommon.ClearingLastFieldKept | apps/gui/src/components/Wizard/steps/SDStep.tsx:55-69 | clearing a section's only field sends the empty update, so under a shallow merge the old section is kept |
| StepCommon.MessagesOf | apps/gui/src/components/Wizard/steps/UARTStep.tsx:24-28 | one conflict message per conflicting pin, in order, naming its users |
| StepCommon.PushConflicts | apps/gui/src/components/Wizard/steps/UARTStep.tsx:24-28 | the conflict messages are reported exactly when the configuration has pin conflicts |
| StepCommon.PushMessages | apps/gui/src/components/Wizard/steps/UARTStep.tsx:24-28 | the `forEach` over the conflicts pushes exactly their messages |
| StepCommon.ConflictMessagesMeaning | apps/gui/src/components/Wizard/steps/UARTStep.tsx:24-28 | each conflict message names a pin with more than one user and lists all of them |
| MechanicsStep.ValidateStep | apps/gui/src/components/Wizard/steps/MechanicsStep.tsx:18-49 | the errors are those of the reference `MechanicsErrors`; the step is valid exactly when there are none and an axis is selected |
| MechanicsStep.ErrorsEmptyIff | apps/gui/src/components/Wizard/steps/MechanicsStep.tsx:18-49 | there are no errors exactly when an axis is selected and every axis passes the schema with positive steps and rate |
| MechanicsStep.EmptySelectionFirst | apps/gui/src/components/Wizard/steps/MechanicsStep.tsx:21-23 | with no axis selected, the first error is "At least one axis must be configured" |
| MechanicsStep.BadAxisReported | apps/gui/src/components/Wizard/steps/MechanicsStep.tsx:36-41 | an axis with missing or non-positive steps or rate has that error reported |
| MechanicsStep.DefaultAxisIsComplete | apps/gui/src/components/Wizard/steps/MechanicsStep.tsx:67-73 | the default axis has 80 steps/mm and 5000 mm/min, so it passes the step's own checks |
| MechanicsStep.HandleAxisToggle | apps/gui/src/components/Wizard/steps/MechanicsStep.tsx:56-80 | the selection is toggled and the update carries the axes after the toggle |
| MechanicsStep.AxisToggleEffect | apps/gui/src/components/Wizard/steps/MechanicsStep.tsx:56-80 | selecting an axis keeps its configuration or adds the default one; deselecting deletes it; other axes are copied |
| MechanicsStep.HandleAxisConfigChange | apps/gui/src/components/Wizard/steps/MechanicsStep.tsx:82-91 | the update carries the axes with the field set inside the named axis |
| MechanicsStep.AxisConfigChangeOnly | apps/gui/src/components/Wizard/steps/MechanicsStep.tsx:82-91 | the edited axis holds the value at the field and keeps its other fields, and the other axes are unchanged |
| MotorsStep.ValidateStep | apps/gui/src/components/Wizard/steps/MotorsStep.tsx:17-68 | the errors are those of the reference `MotorsErrors`; valid exactly when there are none |
| MotorsStep.MotorErrorsEmptyIff | apps/gui/src/components/Wizard/steps/MotorsStep.tsx:28-61 | an axis reports nothing exactly when its motor has step and direction pins, a driver section, a TMC2130 cs pin and positive run currents |
| MotorsStep.ValidIff | apps/gui/src/components/Wizard/steps/MotorsStep.tsx:17-68 | no axes gives only the "No axes configured" error; otherwise the step is valid exactly when every axis's motor is complete |
| MotorsStep.MissingMotorAlone | apps/gui/src/components/Wizard/steps/MotorsStep.tsx:29-30 | an axis without a motor reports only the missing motor |
| MotorsStep.DriverDefaultFields | apps/gui/src/components/Wizard/steps/MotorsStep.tsx:125-129 | a new driver section has 1.0 A and 16 microsteps, and a cs pin exactly for the TMC2130 |
| MotorsStep.SwitchedMotorEffect | apps/gui/src/components/Wizard/steps/MotorsStep.tsx:116-130 | switching the driver sets the chosen section to its default, removes the other one and keeps every other motor field |
| MotorsStep.WithMotorEffect | apps/gui/src/components/Wizard/steps/MotorsStep.tsx:131-138 | the new motor replaces `motor0` in the axis, other axis fields and other axes are kept |
| MotorsStep.MotorConfigChangeOnly | apps/gui/src/components/Wizard/steps/MotorsStep.tsx:75-91 | the motor field holds the value and the other motor fields are kept |
| MotorsStep.TMCConfigChangeOnly | apps/gui/src/components/Wizard/steps/MotorsStep.tsx:93-114 | the driver field holds the value, the driver's other fields and the motor's other fields are kept |
| HomingStep.ValidateStep | apps/gui/src/components/Wizard/steps/HomingStep.tsx:18-68 | the errors are those of the reference `HomingErrors`; valid exactly when there are none |
| HomingStep.UncheckedAxes | apps/gui/src/components/Wizard/steps/HomingStep.tsx:29-61 | when no enabled axis has a homing section, the only possible error is the empty-cycle one |
| HomingStep.BadCycleReported | apps/gui/src/components/Wizard/steps/HomingStep.tsx:38-40 | an enabled axis whose cycle is missing or outside 0..10 has the cycle error reported |
| HomingStep.CycleText | apps/gui/src/components/Wizard/steps/HomingStep.tsx:38-40 | a cycle given as text (such as `"1e2"` or `"0x10"`) is out of range exactly when the number it reads as is outside 0..10 |
| HomingStep.CycleArray | apps/gui/src/components/Wizard/steps/HomingStep.tsx:38-40 | a cycle in a one-item array (such as `[50]`) is out of range exactly when the number inside is outside 0..10 |
| HomingStep.GlobalHomingChangeOnly | apps/gui/src/components/Wizard/steps/HomingStep.tsx:75-81 | the update carries only `homing`, with the field set and the other homing fields kept |
| HomingStep.DefaultCycleInRange | apps/gui/src/components/Wizard/steps/HomingStep.tsx:94-103 | the default homing cycle is 1, inside the accepted range |
| HomingStep.DefaultFeedField | apps/gui/src/components/Wizard/steps/HomingStep.tsx:94-103 | the default homing section holds the feed rate 100 |
| HomingStep.DefaultFeedPositive | apps/gui/src/components/Wizard/steps/HomingStep.tsx:94-103 | the default feed rate is 100, which passes the feed check |
| HomingStep.DefaultSeekField | apps/gui/src/components/Wizard/steps/HomingStep.tsx:94-103 | the default homing section holds the seek rate 1000 |
| HomingStep.DefaultSeekPositive | apps/gui/src/components/Wizard/steps/HomingStep.tsx:94-103 | the default seek rate is 1000, which passes the seek check |
| HomingStep.HandleAxisHomingToggle | apps/gui/src/components/Wizard/steps/HomingStep.tsx:83-112 | the enabled list is toggled and the update carries the axes after the toggle |
| HomingStep.AxisHomingToggleEffect | apps/gui/src/components/Wizard/steps/HomingStep.tsx:83-112 | enabling gives the axis the default homing and keeps its other fields; disabling removes its homing; other axes are copied |
| HomingStep.AxisHomingChangeOnly | apps/gui/src/components/Wizard/steps/HomingStep.tsx:114-130 | the homing field holds the value, other homing fields, other axis fields and other axes are kept |
| SpindleStep.ValidateStep | apps/gui/src/components/Wizard/steps/SpindleStep.tsx:19-57 | the errors are those of the reference `SpindleErrors`; the step is valid when the spindle is disabled, and otherwise exactly when nothing was reported |
| SpindleStep.SectionIff | apps/gui/src/components/Wizard/steps/SpindleStep.tsx:26-48 | a spindle section reports nothing exactly when the schema accepts it, a set PWM frequency is positive, an output pin is given and a given speed map parses |
| SpindleStep.MissingSectionAlone | apps/gui/src/components/Wizard/steps/SpindleStep.tsx:22-24 | without a spindle section, an enabled spindle reports only that the section is required, and a disabled one reports nothing |
| SpindleStep.DefaultOutputPinField | apps/gui/src/components/Wizard/steps/SpindleStep.tsx:69-80 | the default spindle's output pin is the empty string |
| SpindleStep.DefaultNeedsOutputPin | apps/gui/src/components/Wizard/steps/SpindleStep.tsx:38-40 | that empty output pin counts as missing |
| SpindleStep.MissingOutputPinReported | apps/gui/src/components/Wizard/steps/SpindleStep.tsx:38-40 | a section without an output pin has "Output pin is required" reported |
| SpindleStep.HandleSpindleToggleAsWritten | apps/gui/src/components/Wizard/steps/SpindleStep.tsx:64-88 | enabling sends the default spindle; disabling sends a copy of the configuration with no `spindle` key |
| SpindleStep.SwitchOffKeepsSection | apps/gui/src/components/Wizard/steps/SpindleStep.tsx:82-87 | under the wizard's shallow merge, disabling leaves the old spindle section in the configuration |
| SpindleStep.SwitchOffCounterexample | apps/gui/src/components/Wizard/steps/SpindleStep.tsx:82-87 | a configuration holding the default spindle still holds it after the spindle is disabled |
| SpindleStep.HandleSpindleToggle | apps/gui/src/components/Wizard/steps/SpindleStep.tsx:64-88 | the corrected toggle records the new enabled state |
| SpindleStep.SwitchEffect | apps/gui/src/components/Wizard/steps/SpindleStep.tsx:64-88 | after the merge, enabling gives the default spindle, disabling leaves no spindle, and every other key is kept |
| SpindleStep.SpindleConfigChangeOnly | apps/gui/src/components/Wizard/steps/SpindleStep.tsx:90-96 | the spindle field holds the value and the other spindle fields are copied |
| IoStep.ValidateStep | apps/gui/src/components/Wizard/steps/IOStep.tsx:17-44 | the errors are those of the reference `IoErrors`; valid exactly when there are none |
| IoStep.ValidIff | apps/gui/src/components/Wizard/steps/IOStep.tsx:22-37 | the step is valid exactly when every given IO pin has the `gpio.N`, `i2so.N` or `i2si.N` form |
| IoStep.BlankPinSkipped | apps/gui/src/components/Wizard/steps/IOStep.tsx:30 | a pin of only white space is not checked |
| IoStep.LookupKeepOutside | apps/gui/src/components/Wizard/steps/IOStep.tsx:58-62 | the clean-up loop leaves the keys it has not visited as they were |
| IoStep.RemoveFalsy | apps/gui/src/components/Wizard/steps/IOStep.tsx:59-61 | deleting a falsy key is the same as visiting it in the clean-up |
| IoStep.KeepTruthyKey | apps/gui/src/components/Wizard/steps/IOStep.tsx:59-61 | visiting a truthy key deletes nothing |
| IoStep.KeepNone | apps/gui/src/components/Wizard/steps/IOStep.tsx:58-62 | before the loop has visited any key, nothing is deleted |
| IoStep.DropFalsy | apps/gui/src/components/Wizard/steps/IOStep.tsx:58-62 | the clean-up loop yields exactly the clean-up with every key visited |
| IoStep.KeepAllLookup | apps/gui/src/components/Wizard/steps/IOStep.tsx:58-62 | after the clean-up, a key holds its value when truthy and is absent otherwise |
| IoStep.HandleIOConfigChange | apps/gui/src/components/Wizard/steps/IOStep.tsx:51-65 | the update carries only `io`; the edited field holds the value, or is absent when the value is empty; every other key keeps a truthy value and loses a falsy one |
| UartStep.ValidateStep | apps/gui/src/components/Wizard/steps/UARTStep.tsx:20-72 | the errors are those of the reference `UartErrors`; valid exactly when there are none |
| UartStep.ChannelErrorsEmptyIff | apps/gui/src/components/Wizard/steps/UARTStep.tsx:32-66 | a channel reports nothing exactly when its given pins are accepted and its baud rate is in range |
| UartStep.ValidIff | apps/gui/src/components/Wizard/steps/UARTStep.tsx:20-72 | the step is valid exactly when no pin is used twice and every channel is accepted |
| UartStep.BaudRange | apps/gui/src/components/Wizard/steps/UARTStep.tsx:32-66 | a numeric baud rate is accepted exactly when it is 0 (falsy, so unchecked) or in (0, 921600] |
| UartStep.BaudText | apps/gui/src/components/Wizard/steps/UARTStep.tsx:62-63 | a baud rate given as non-empty text (such as `"1e7"`) is accepted exactly when the number it reads as is in (0, 921600] |
| UartStep.UartEditEffect | apps/gui/src/components/Wizard/steps/UARTStep.tsx:76-98 | the channel field is set, or cleared by an empty string; the channel is kept exactly when something is left in it; other channels are copied |
| UartStep.ClearingLastChannelKept | apps/gui/src/components/Wizard/steps/UARTStep.tsx:76-98 | clearing the only field of the only channel sends the empty update, and the shallow merge keeps the old channel |
| SdStep.LabelOf | apps/gui/src/components/Wizard/steps/SDStep.tsx:20-51 | a field's label replaces its first underscore, and only that one, by a space |
| SdStep.CardDetectLabel | apps/gui/src/components/Wizard/steps/SDStep.tsx:20-51 | the card-detect pin's errors are labelled "card detect_pin" |
| SdStep.ValidateStep | apps/gui/src/components/Wizard/steps/SDStep.tsx:20-51 | the errors are those of the reference `SdErrors`; valid exactly when there are none |
| SdStep.ValidIff | apps/gui/src/components/Wizard/steps/SDStep.tsx:20-51 | the step is valid exactly when no pin is used twice and every given SD pin is accepted |
| SdStep.ClearingLastPinKept | apps/gui/src/components/Wizard/steps/SDStep.tsx:55-69 | clearing the only SD pin sends the empty update, and the shallow merge keeps the pin |
| MacrosStep.ValidateStep | apps/gui/src/components/Wizard/steps/MacrosStep.tsx:17-32 | the errors are those of the reference `MacrosErrors`; valid exactly when there are none |
| MacrosStep.ValidIff | apps/gui/src/components/Wizard/steps/MacrosStep.tsx:17-32 | the step is valid exactly when every macro is a string, and each non-string macro is named |
| MacrosStep.MacroShown | apps/gui/src/components/Wizard/steps/MacrosStep.tsx:53-54 | the editor shows a string macro's text and a blank otherwise |
| MacrosStep.MacroEditSets | apps/gui/src/components/Wizard/steps/MacrosStep.tsx:36-50 | a non-empty value is stored under its key, the other macros are copied and the update carries them |
| MacrosStep.EditThenShown | apps/gui/src/components/Wizard/steps/MacrosStep.tsx:36-54 | after the wizard merges the edit, the editor shows the typed macro and the other macros read as before |
| ReviewStep.ValidateStep | apps/gui/src/components/Wizard/steps/ReviewStep.tsx:17-82 | the errors and warnings are those of the reference `ReviewErrors` and `ReviewWarnings`; valid exactly when there are no errors |
| ReviewStep.ErrorsEmptyIff | apps/gui/src/components/Wizard/steps/ReviewStep.tsx:21-74 | no errors exactly when the schema accepts the configuration, the name and board are not blank, an axis is configured and the YAML could be generated |
| ReviewStep.AxisWarningsEmptyIff | apps/gui/src/components/Wizard/steps/ReviewStep.tsx:44-56 | an axis has no warning exactly when it has a motor with a TMC driver and a homing section |
| ReviewStep.AxisWarningsNotGlobal | apps/gui/src/components/Wizard/steps/ReviewStep.tsx:44-65 | the per-axis warnings never include the spindle and IO warnings |
| ReviewStep.AnyHomingMeaning | apps/gui/src/components/Wizard/steps/ReviewStep.tsx:116 | some axis has homing exactly when one of the entries has a truthy homing section |
| ReviewStep.SummaryAgrees | apps/gui/src/components/Wizard/steps/ReviewStep.tsx:109-120 | the summary shows no axes exactly when the axes error is given, no spindle or IO exactly when their warnings are given, and homing exactly when some axis has a homing section |
| ReviewStep.CollapseWhitespace | apps/gui/src/components/Wizard/steps/ReviewStep.tsx:102 | `replace(/\s+/g, '_')` leaves no white space in the name |
| ReviewStep.CollapseKeeps | apps/gui/src/components/Wizard/steps/ReviewStep.tsx:102 | a name without white space is left as it is |
| ReviewStep.CollapseNonEmpty | apps/gui/src/components/Wizard/steps/ReviewStep.tsx:102 | a non-empty name stays non-empty |
| ReviewStep.CollapseWord | apps/gui/src/components/Wizard/steps/ReviewStep.tsx:102 | a leading word without white space is kept as it is |
| ReviewStep.CollapseSpace | apps/gui/src/components/Wizard/steps/ReviewStep.tsx:102 | one space before a word becomes one underscore |
| ReviewStep.DownloadName | apps/gui/src/components/Wizard/steps/ReviewStep.tsx:102 | the download is named after a non-empty string name with white space runs collapsed to `_`, or `fluidnc` when the name is missing, null or empty, followed by `_config.yaml`; any other name has no `replace`, and the call fails exactly then |
| ReviewStep.DownloadNamePlain | apps/gui/src/components/Wizard/steps/ReviewStep.tsx:102 | a one-word name gives `<name>_config.yaml` |
| ReviewStep.DownloadNameTwoWords | apps/gui/src/components/Wizard/steps/ReviewStep.tsx:102 | a two-word name gives `<a>_<b>_config.yaml` |

## Findings

| source | as written | input that shows it | evidently intended | confidence | as-written member | corrected member |
|---|---|---|---|---|---|---|
| apps/gui/src/components/Wizard/steps/SpindleStep.tsx:82-87 | disabling the spindle sends a copy of the configuration without the `spindle` key; the wizard's `updateConfig` (apps/gui/src/components/Wizard/index.tsx:47-49) is a shallow merge over the previous configuration, so the old `spindle` survives | the configuration `{spindle: <default spindle>}`, then disabling the spindle: the merged configuration still holds the default spindle | disabling removes the spindle section from the wizard's configuration | not executed | SpindleStep.HandleSpindleToggleAsWritten, SpindleStep.SwitchOffKeepsSection, SpindleStep.SwitchOffCounterexample | SpindleStep.HandleSpindleToggle, SpindleStep.SwitchEffect |

## Left out

- Threads, the registry's mutex, the Tauri event sink and operating-system I/O (opening serial ports and sockets, writes, flushes, reads, timeouts): they are oracle parameters. The model runs each reader loop as a sequential function over the oracle's answers.
- The registry's lock is taken separately for the "already connected" check and for the insert, so two concurrent connects are not atomic. Commands are modelled one at a time, so this is not captured.
- `greet` and `list_serial_ports` (apps/gui/src-tauri/src/lib.rs:137-155): not modelled. One is a greeting and the other enumerates OS ports.
- `run` (apps/gui/src-tauri/src/lib.rs:447) is the Tauri builder set-up, which is not modelled.
- The device panel's port list calls a `get_serial_ports` command that the backend does not register. Port listing is not modelled.
- `connectToDevice` and `disconnectFromDevice` in the device panel are asynchronous `invoke` calls. Only their effect on the panel's state is modelled.
- The configuration upload's commands to the device, and `sendDeviceCommand`'s fallback, are not modelled. Only the panel state before and after an upload is modelled.
- The panel's 3-second `setTimeout` (with its stale closure) and message timestamps are clock-dependent and are left out.
- The expert form's validation effect, which runs the schema validator, is left out, and so is its error-list text.
- JavaScript prototype keys in record lookups are not modelled. A key such as `constructor` reads as absent.
- Object.entries and HashMap order: objects keep their insertion order. JavaScript lists integer-like keys (such as "0" or "12") first, in ascending order, before the other keys; the model does not, so orders that involve such keys can differ from the source. Connections.Registry.GetDeviceConnections lists each id once in an unspecified order, as Rust's HashMap does; the order is not determined by the model.
- LegacyTransform.Transform: the axis pass writes into the objects its shallow copies share with the input (the `motor0` and `homing` objects of the flat axes and of the entries of the input's `axes`), and the global reads and the pattern check then see the changed input; the model states this as the input after the pass (`SeenAfter`). An input in which one object is reachable from two places cannot come from a JSON text and is not modelled.
- HomingStep.HandleAxisHomingToggle: `delete newAxes[axisName].homing` also changes the previous configuration's axis object through the shared reference. The model works on a copy, so this aliasing is not captured.
- `JSON.stringify` and `JSON.parse` (in the diff viewer, the expert form and the legacy mapper) are parameters of the model.
- Schema (zod) issue paths with numeric segments are modelled as strings.
- The legacy table's per-entry `transformer` field is never used by the mapper, so it is not modelled.
- Case folding is ASCII-only. This applies to the pin and board lookups, to `getAxisComment` (CommentTemplates.GetAxisComment lower-cases the name and upper-cases other names) and to the Review step's summary (ReviewStep.ConfigSummary upper-cases axis names). JavaScript's `toLowerCase`/`toUpperCase` also map non-ASCII letters.
- Board capabilities, and `getPinStatusMessage`'s text, are not modelled.
- PinUtils.ExtractGpioNumber: the model reads the digits exactly as an unbounded natural number. `parseInt` gives a double, which is exact only below 2^53: "gpio.9007199254740993" gives 9007199254740992, and a long enough run of digits gives `Infinity`. The not-available message then prints the rounded number, or its exponential form, where the model prints the digits' exact value.
- PinUtils.PinNumberOf: the digits' exact value, where the source's value is the nearest double; the two agree below 2^53 (9007199254740992).
- PinUtils.GpioNumberForm: the extracted number is the digits' exact value; the source's agrees with it below 2^53 only.
- PinUtils.GpioRoundTrip: holds for every natural number in the model; in the source only for numbers below 2^53, since `parseInt` rounds larger ones.
- Reading a property of `null` is modelled as `undefined`, although JavaScript throws a TypeError there.
- JsonTree.ToNumber: a finite result is the exact real the text denotes. JavaScript rounds it to the nearest double, so a value too large for a double (such as "1e400") is `Infinity` there and a tiny one (such as "1e-400") is 0; the model keeps the exact value. Arrays read through their string form for numbers, strings and nested arrays; `String` of a number is taken to give that number back.
- Connections.ReadLoop: a read timeout is taken to be reported as `TimedOut`. Where the platform reports a socket read timeout as `WouldBlock` instead, the source's loop takes the other error branch and ends with a read error; the model covers that as a `ReadErr` outcome.
- LegacyMapper.AssignUnder: the source throws a TypeError when it writes a field into a truthy `motor0` or `homing` that is neither an object nor an array (a string, a number or `true`), because ES modules run in strict mode. `transformLegacyConfig` then throws with it. The model leaves such a section as it is and goes on recording the mapping and its suggestion, so LegacyTransform.Transform returns a result where the source throws. LegacyMapper.ApplyAxisThrowsIff states exactly which axes this concerns. On an array section the source stores a named property that the model cannot represent; the model leaves the array as it is.
- A truthy non-string `name` or `board` makes the Review step's source throw on `.trim()`. The model treats such a value as given, so it reports no error. A truthy non-string `speed_map` makes the Spindle step's source throw on `.trim()`. The model skips the speed-map check for it and reports nothing.
- The schema validators, `validateHomingRates`, `validateSpeedMap` and `toYAML` are parameters of the model.
- IoStep.HandleIOConfigChange and SpindleStep.HandleSpindleToggle write `undefined` as `null`. IoStep.HandleIOConfigChange writes the cleared field as `null`, and its falsy clean-up then drops it, as it drops `undefined`. The corrected SpindleStep.HandleSpindleToggle sends `spindle: null`, which the merge stores; like `undefined`, it reads as no spindle. IoStep.HandleIOConfigChange requires the `io` object's keys to be distinct, which JavaScript objects always satisfy.
- Rendering, the React components' markup and `MachineStep` (display only) are not modelled.
- The floating-point calculators are left out. `String(number)` is a parameter wherever a number is shown as text.
- Test code, build scripts and tooling are not modelled.
- Boards: the model has the four boards the source defines. The source's tests expect seven.
- Connections.WriteData: data with a trailing newline is written with a second newline, as the code does.
- Connections.Registry.ConnectDevice: connecting an id that is already open echoes the caller's arguments back, as the code does, rather than the stored connection.
