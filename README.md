# A verified model of a `.env` file editor

This project models the core of a PHP library that reads and edits `.env`
files. The library has three classes.

- **DotenvReader** is pointed at a path. On every request it reads the file again and returns one of three views:
  - its raw content;
  - one record per line, holding the line number, the raw text and the formatter's parse;
  - a map from key to a record of the last line that sets that key (line number, export flag, value and comment).
- **DotenvWriter** holds one text buffer.
  - `setBuffer` normalises the content it stores.
  - Lines are appended: empty lines, comments and formatted setters.
  - The setter lines of a key are rewritten or removed by the line-anchored pattern `^(export\h)?\h*KEY=.*` (with a trailing `\n` for deletion).
- **DotenvEditor** ties the two together.
  - `load` seeds the buffer from the file.
  - Queries go to the reader, so they see the file on disk and not the buffer.
  - `setKeys` decides per entry whether to append or update. It judges this by the keys of the file on disk and takes a missing comment from the file.
  - `deleteKeys` removes the setter lines of each key from the buffer.

The Dafny files:

| file | module | contents |
|---|---|---|
| `types.dfy` | `DotenvTypes` | errors, parsed lines, line and key records, the formatter, the file system |
| `lines.dfy` | `BufferLines` | the buffer as lines separated by `'\n'`, and its round trips |
| `pattern.dfy` | `SetterPattern` | the setter-line pattern, with the regular expression's backtracking reading proved equal to the greedy one |
| `writer.dfy` | `Writer` | the buffer normalisation, the two pattern rewrites, the `DotenvWriter` class |
| `reader.dfy` | `Reader` | the key map, the `DotenvReader` class with its two loops |
| `editor.dfy` | `Editor` | the `setKeys`/`deleteKeys` specifications, the `DotenvEditor` class |

The three components are classes whose methods update their fields.
- `DotenvReader.Lines` and `DotenvReader.Keys` are loops, proved against `LineRecord` and `KeyMap`.
- `DotenvEditor.SetKeys` and `DotenvEditor.DeleteKeys` are loops that call the writer, proved against the folds `SetKeysSpec` and `DeleteKeysSpec`.

Several things outside the three classes are parameters:
- **The file system** is a value `Disk`, a map from path to entry. An entry says whether it is a regular file, whether it is readable, its content and its lines.
- **The formatter** (`DotenvFormatter`) is not part of this model. Its operations `parseLine`, `formatKey` and `formatSetterLine` are fields of a `Formatter` value.
- **The assumptions about the formatter** are stated in `ValidFormatter`:
  - a formatted setter line holds no `'\n'`;
  - a formatted key consists of `[A-Za-z0-9_]`, which lets it be interpolated unescaped into the pattern.

The docblock of `updateSetter` (src/DotenvWriter.php:136) says "Update one
setter in buffer", but `preg_replace_callback` is called without a limit
(src/DotenvWriter.php:149-151), so every matching line is rewritten; the
model follows the code. `ReplaceSetters` and `DotenvWriter.UpdateSetter`
state exactly that.

## Model

| member | source | states |
|---|---|---|
| BufferLines.Lines | src/DotenvWriter.php:147 | the `/m` line view of the buffer, split at `'\n'`: at least one line, none containing `'\n'` |
| BufferLines.LinesOfAppend | src/DotenvWriter.php:89-94 | appending text and `'\n'` puts the text at the end of the last line and starts a new empty last line; earlier lines are unchanged |
| BufferLines.JoinOfLines | src/DotenvWriter.php:147 | the `/m` line view is lossless: joining the lines of a buffer gives the buffer back |
| BufferLines.LinesOfJoin | src/DotenvWriter.php:147 | the converse round trip: the lines of a join of terminator-free lines are those lines |
| DotenvTypes.FileExists | src/DotenvEditor.php:94 | `file_exists`: the path is present in the disk, whether or not it is a regular file; a null path never exists |
| DotenvTypes.IsFile | src/DotenvEditor.php:285 | `is_file`: the path exists and is a regular file |
| DotenvTypes.IsReadableFile | src/DotenvReader.php:60-65 | the reader's readability test (`is_readable` and `is_file`); only a path that exists passes it |
| SetterPattern.HSpaceRun | src/DotenvWriter.php:147 | the run `\h*` consumes: only horizontal spaces, and it ends at a non-space or the end |
| SetterPattern.IsSetterLine | src/DotenvWriter.php:147 | the greedy reading of `^(export\h)?\h*KEY=`; every line it accepts the regular expression accepts |
| SetterPattern.PatternMatches | src/DotenvWriter.php:165 | the regular expression with its backtracking spelled out; for keys of key characters it never accepts a `#` comment line |
| SetterPattern.SetterLineIsPattern | src/DotenvWriter.php:147 | for keys of key characters, a line is a setter line iff some choice of the optional `export\h` group and of the `\h*` run is followed by `KEY=` (both directions) |
| SetterPattern.SetterLineKeyIsUnique | src/DotenvWriter.php:147 | a line is the setter line of at most one key, so `XKEY=` and `KEY2=` lines are not lines of `KEY` |
| SetterPattern.MatchingAccepts | src/DotenvWriter.php:147 | leading tabs/spaces and an `export` prefix followed by spaces are accepted; the value may contain `=` |
| SetterPattern.MatchingIsExact | src/DotenvWriter.php:147 | lines of other keys (`XKEY=`, `KEY2=`) and a space before `=` are not matched |
| SetterPattern.MatchingIsAnchored | src/DotenvWriter.php:165 | an indented `export` and a comment line holding `KEY=` are not matched |
| Writer.RTrim | src/DotenvWriter.php:63-64 | the result is a prefix of the input; everything removed is a default trim character; the result does not end in one |
| Writer.IsEmptyContent | src/DotenvWriter.php:63 | PHP's `empty()` on the content: only null and strings of at most one character can be empty, and a one-character string is empty only when it is `"0"` |
| Writer.NormalizeContent | src/DotenvWriter.php:61-68 | null, `""` and `"0"` are stored as they are (null as `""`); other content loses its trailing whitespace and ends in exactly one `'\n'` |
| Writer.NormalizedEndsLine | src/DotenvWriter.php:61-68 | a buffer set from non-empty content ends with an empty last line |
| Writer.ReplaceSetters | src/DotenvWriter.php:149-151 | the global `preg_replace_callback` over the buffer; a one-line replacement keeps the number of lines |
| Writer.ReplaceLine | src/DotenvWriter.php:149-151 | one line changes only when it is a setter line of the key, and then into the new line |
| Writer.DeleteSetters | src/DotenvWriter.php:166 | the global `preg_replace` with an empty replacement; the buffer never grows |
| Writer.ReplacedLines | src/DotenvWriter.php:147-151 | the line-wise reference of the replacement: the same count, setter lines of the key become the new line, every other line is kept |
| Writer.KeepLines | src/DotenvWriter.php:165-166 | the line-wise reference of the deletion: only the non-matching lines, in order, and all of them when none match |
| Writer.KeepLinesKeepsOthers | src/DotenvWriter.php:165-166 | a line that does not match the key survives the filter |
| Writer.ReplaceSettersLines | src/DotenvWriter.php:145-154 | the replacement on the buffer agrees with `ReplacedLines` on its lines |
| Writer.ReplaceSettersNoMatch | src/DotenvWriter.php:145-154 | with no setter line of the key, updateSetter leaves the buffer unchanged |
| Writer.DeleteSettersLines | src/DotenvWriter.php:163-169 | the deletion removes every terminated setter line of the key, keeps the order of the rest, and never touches the unterminated last line |
| Writer.DeleteSettersCount | src/DotenvWriter.php:163-169 | the line count drops by exactly the number of terminated matching lines |
| Writer.DeleteSettersIdempotent | src/DotenvWriter.php:163-169 | deleting a key twice is the same as deleting it once |
| Writer.DeleteSetterStep | src/DotenvWriter.php:163-169 | after one deletion every terminated line was a terminated line before and none matches the key; the last line stays |
| Writer.DeleteSetterAbsent | src/DotenvWriter.php:163-169 | deleting a key without terminated setter lines leaves the buffer unchanged |
| Writer.DotenvWriter.constructor | src/DotenvWriter.php:34-37 | the writer shares the given formatter and starts with an empty (null) buffer |
| Writer.DotenvWriter.SetBuffer | src/DotenvWriter.php:61-68 | the buffer becomes `NormalizeContent(content)` and, for non-empty content, ends in an empty line |
| Writer.DotenvWriter.GetBuffer | src/DotenvWriter.php:77-80 | returns the buffer |
| Writer.DotenvWriter.AppendLine | src/DotenvWriter.php:89-94 | the old buffer is a prefix, followed by the text and `'\n'`; on the line view it is `LinesOfAppend` |
| Writer.DotenvWriter.AppendEmptyLine | src/DotenvWriter.php:101-104 | one `'\n'` is appended: the last line is terminated and a new empty line starts |
| Writer.DotenvWriter.AppendCommentLine | src/DotenvWriter.php:113-116 | `"# "`, the comment and `'\n'` are appended |
| Writer.DotenvWriter.AppendSetter | src/DotenvWriter.php:128-133 | the formatted setter line and `'\n'` are appended, and the line view changes accordingly |
| Writer.DotenvWriter.UpdateSetter | src/DotenvWriter.php:145-154 | every setter line of the key becomes the formatted line; the line count and the other lines are unchanged |
| Writer.DotenvWriter.DeleteSetter | src/DotenvWriter.php:163-169 | the buffer loses every terminated setter line of the key and nothing else |
| Reader.ReadLines | src/DotenvReader.php:133-143 | the file's lines when the path is a readable regular file, otherwise `UnableReadFile(path)` |
| Reader.FileKeys | src/DotenvReader.php:107-126 | the key map of the file's lines, or `UnableReadFile(path)` exactly when the file is not a readable regular file |
| Reader.KeyMap | src/DotenvReader.php:112-123 | the `keys()` fold over the lines in file order; every record's line number lies between 1 and the number of lines |
| Reader.KeyMapDomain | src/DotenvReader.php:111-123 | a key is in the map iff some line of the file parses as a setter of it (both directions) |
| Reader.KeyMapLastWins | src/DotenvReader.php:111-123 | a key's record comes from the last line that sets it: its 1-based number, and that line's export flag, value and comment |
| Reader.DotenvReader.constructor | src/DotenvReader.php:34-37 | the reader shares the given formatter and has no path yet |
| Reader.DotenvReader.Load | src/DotenvReader.php:46-51 | only the path is remembered; nothing is read |
| Reader.DotenvReader.Content | src/DotenvReader.php:60-77 | the file's content, or `UnableReadFile` when it is missing, not a regular file or unreadable |
| Reader.DotenvReader.Lines | src/DotenvReader.php:84-100 | one record per line, in order, numbered from 1, with the raw text and its parse; `UnableReadFile` otherwise |
| Reader.DotenvReader.Keys | src/DotenvReader.php:107-126 | the loop builds exactly `KeyMap` of the file's lines (= `FileKeys`) |
| Editor.FilterKeys | src/DotenvEditor.php:159-170 | an empty key list keeps every entry; otherwise exactly the requested keys present in the map, with their records |
| Editor.EntryRequest | src/DotenvEditor.php:267-283 | an entry makes a request iff it is a bare value under a string index or an array with a `key`; a bare value requests its index as key with null comment and no export; an array's request carries its key, value and comment, and exports only when `export` is true |
| Editor.SetKeyEntry | src/DotenvEditor.php:311 | the array `compact` builds requests exactly the given key, value, comment and export |
| Editor.ApplyRequest | src/DotenvEditor.php:285-292 | one entry fails iff the path is a regular file that is not readable, and then with `UnableReadFile(path)` |
| Editor.SetKeysSpec | src/DotenvEditor.php:267-294 | setKeys either passes or fails with `UnableReadFile(path)`; it fails only on a regular file that is not readable, and a failure leaves the buffer as it was |
| Editor.SkippedEntries | src/DotenvEditor.php:267-279 | a bare value under an integer index, or an array without `key`, leaves the buffer unchanged |
| Editor.NewKeyTwiceAppendsTwice | src/DotenvEditor.php:285-286 | a key absent from the file on disk is appended on every call, so two setKey calls append two lines |
| Editor.UpdateKeepsComment | src/DotenvEditor.php:285-292 | for a key in the file, the buffer's lines of that key are rewritten with the file's comment when none is given |
| Editor.UnreadableFileFails | src/DotenvEditor.php:285 | an unreadable regular file makes setKeys fail with `UnableReadFile` and leaves the buffer as it was |
| Editor.UnreadableFileFailsAny | src/DotenvEditor.php:267-294 | on an unreadable regular file, any entry list with at least one entry that makes a request fails with `UnableReadFile(path)` and leaves the buffer as it was |
| Editor.DeleteKeysSpec | src/DotenvEditor.php:325-327 | deleteSetter for each key in order; the buffer never grows |
| Editor.DeleteKeysRemovesAll | src/DotenvEditor.php:323-330 | afterwards no terminated line is a setter line of any given key; every remaining terminated line was one before; every terminated line that matches none of the keys remains; the last line is unchanged |
| Editor.DeleteKeysKeepsLine | src/DotenvEditor.php:325-327 | a terminated line that matches none of the keys is still a terminated line after deleteKeys |
| Editor.DeleteAbsentKeys | src/DotenvEditor.php:323-330 | deleting keys the buffer has no terminated setter lines of leaves the buffer unchanged |
| Editor.DotenvEditor.constructor | src/DotenvEditor.php:64-69 | one formatter shared by a fresh reader and a fresh writer; no path and an empty buffer |
| Editor.DotenvEditor.ResetContent | src/DotenvEditor.php:109-115 | no path, the reader's path cleared, the buffer emptied |
| Editor.DotenvEditor.Load | src/DotenvEditor.php:82-102 | when nothing exists at the path the buffer stays empty; a readable regular file seeds it through `NormalizeContent`; anything else existing fails with `UnableReadFile` after the reset |
| Editor.DotenvEditor.GetContent | src/DotenvEditor.php:137-140 | the reader's content of the file on disk |
| Editor.DotenvEditor.GetLines | src/DotenvEditor.php:147-150 | the reader's line records of the file on disk, or `UnableReadFile(path)` when it is not a readable regular file |
| Editor.DotenvEditor.GetKeys | src/DotenvEditor.php:159-170 | `FilterKeys` of the file's key map, or `UnableReadFile` |
| Editor.DotenvEditor.KeyExists | src/DotenvEditor.php:179-184 | true iff some line of the file on disk parses as a setter of the key, not the buffer; `UnableReadFile` otherwise |
| Editor.DotenvEditor.GetValue | src/DotenvEditor.php:195-204 | the value of the last line that sets the key, `KeyNotFound` when none does, `UnableReadFile` when the file is unreadable |
| Editor.DotenvEditor.GetBuffer | src/DotenvEditor.php:227-230 | the writer's buffer |
| Editor.DotenvEditor.AddEmpty | src/DotenvEditor.php:237-242 | one `'\n'` appended to the buffer |
| Editor.DotenvEditor.AddComment | src/DotenvEditor.php:251-256 | `"# "`, the comment and `'\n'` appended to the buffer |
| Editor.DotenvEditor.SetKeys | src/DotenvEditor.php:265-297 | the final buffer and outcome are `SetKeysSpec`: entries in order, each appended or updated by the file on disk, stopping at the first `UnableReadFile` |
| Editor.DotenvEditor.SetKey | src/DotenvEditor.php:309-314 | setKeys with the one entry holding key, value, comment and export |
| Editor.DotenvEditor.DeleteKeys | src/DotenvEditor.php:323-330 | the buffer becomes `DeleteKeysSpec`, deleteSetter for each key in order |
| Editor.DotenvEditor.DeleteKey | src/DotenvEditor.php:339-344 | deleteKeys with the single key |

## Left out

- Saving the buffer (`DotenvWriter::save`, `ensureFileIsWritable`, `DotenvEditor::save`): this is file output. The buffer is the model's final state.
- Reading files: `file_get_contents` and `file(..., FILE_IGNORE_NEW_LINES)` are replaced by the `content` and `lines` of a `Disk` entry. Line-ending auto-detection is not modelled.
- The `content` and `lines` of a `FileEntry` are independent fields. The source reads both from the same file, but the model does not relate them: nothing proved depends on the relation.
- The `DotenvFormatter` implementation is not part of this model. Its operations are parameters, and `ValidFormatter` states what is assumed of them.
- The formatter's operations are total functions. So `setKeys` never stops on an exception from `formatKey` or `formatSetterLine` (src/DotenvEditor.php:280, src/DotenvWriter.php:130, 148). The source would pass such an exception on, with the earlier entries' edits already applied.
- Editor.DotenvEditor.constructor: it does not call `load()` with the default path `__DIR__.'/../../../../../../.env'`. That path depends on where the package is installed. `Load` takes an explicit path.
- Editor.DotenvEditor.Load: `load(null)`, which selects the default path, is not modelled for the same reason. The path is a `string`.
- Writer.NormalizeContent: PHP's null buffer is modelled as the empty string. Appends and the two pattern rewrites treat null as the empty string, so they behave alike.
- Writer.DotenvWriter.GetBuffer: it returns `""` where PHP's `getBuffer` returns null, that is after `setBuffer(null)` or the constructor (src/DotenvWriter.php:77-80).
- Editor.DotenvEditor.GetBuffer: it returns `""` where PHP returns null, that is after `resetContent` or after loading a path where nothing exists (src/DotenvEditor.php:227-230).
- `PHP_EOL` is fixed as `'\n'` (src/DotenvWriter.php:64, 91). On a platform whose `PHP_EOL` is `"\r\n"`, each appended line would also carry a `'\r'`, which the model does not represent.
- SetterPattern.IsSetterLine: `\h` is read as space or tab only. Other Unicode horizontal spaces are not modelled.
- Writer.DotenvWriter.DeleteSetter: the key is interpolated into the pattern unescaped, and deleteKeys passes it without `formatKey`. Keys with pattern metacharacters would change the regular expression itself, so the model requires keys of `[A-Za-z0-9_]`.
- Editor.DotenvEditor.DeleteKeys: the same requirement on every key, for the same reason.
- `preg_replace` returning null on a PCRE error (such as the backtrack limit) is not modelled. Nor is a non-string buffer.
- Editor.EntryRequest: a `key` element that is present but null is treated like a missing one, so the entry is skipped. PHP would instead pass null to `formatKey`.
- Reader.KeyMap: the order of the `keys()` and `getKeys()` results is not modelled. PHP's array keeps each key at the position of its first setter line, because a later duplicate overwrites the record in place (src/DotenvReader.php:116). `array_filter` keeps that order (src/DotenvEditor.php:163). The model's `map` is unordered.
- Editor.FilterKeys: `in_array`'s loose comparison is modelled as exact string equality. PHP's conversion of numeric-string array keys to integers is not modelled either.
- The `export` element of a setKeys entry is a boolean. PHP accepts any value there and hands it to the formatter as it is.
