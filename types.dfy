/**
 * Values shared by the reader, the writer and the editor of a `.env` file:
 * the error taxonomy, the parsed form of one line, the per-key record the
 * reader builds, the formatter (whose implementation is not part of this
 * model) and the file system the components consult.
 */
module DotenvTypes {

  datatype Option<+T> = None | Some(value: T)

  datatype Result<+T> = Ok(value: T) | Err(error: DotenvError)

  /** Outcome of an editor operation that returns nothing but may throw. */
  datatype Outcome = Pass | Fail(error: DotenvError)

  /** The exceptions the core raises. */
  datatype DotenvError =
    | UnableReadFile(path: Option<string>)   // UnableReadFileException
    | KeyNotFound(key: string)               // KeyNotFoundException

  /** What the formatter's parseLine makes of one raw line. */
  datatype ParsedLine =
    | Empty
    | Comment(text: string)
    | Setter(key: string, value: string, exported: bool, comment: Option<string>)
    | Unknown(raw: string)

  /** One entry of the reader's line listing. */
  datatype LineRecord = LineRecord(line: nat, rawData: string, parsedData: ParsedLine)

  /** One entry of the reader's key map. */
  datatype KeyRecord = KeyRecord(line: nat, exported: bool, value: string, comment: Option<string>)

  /**
   * The formatter the reader and the writer share. Its implementation is not
   * part of this model, so its three operations are parameters.
   */
  datatype Formatter = Formatter(
    parseLine: string -> ParsedLine,
    formatKey: string -> string,
    formatSetterLine: (string, Option<string>, Option<string>, bool) -> string)

  /** The characters a normalised key consists of: [A-Za-z0-9_]. */
  predicate IsKeyChar(c: char) {
    ('A' <= c <= 'Z') || ('a' <= c <= 'z') || ('0' <= c <= '9') || c == '_'
  }

  predicate IsKeyChars(k: string) {
    forall i :: 0 <= i < |k| ==> IsKeyChar(k[i])
  }

  predicate NoNewline(s: string) {
    forall i :: 0 <= i < |s| ==> s[i] != '\n'
  }

  /**
   * What the model assumes of the formatter: a formatted setter line is one
   * line, and a formatted key uses key characters only (it is interpolated
   * unescaped into the writer's patterns).
   */
  ghost predicate ValidFormatter(f: Formatter) {
    && (forall k, v, c, e :: NoNewline(f.formatSetterLine(k, v, c, e)))
    && (forall k :: IsKeyChars(f.formatKey(k)))
  }

  /** A file system entry: a regular file or something else (a directory). */
  datatype FileEntry = FileEntry(isFile: bool, readable: bool, content: string, lines: seq<string>)

  /** The file system: paths that exist, and what is there. */
  type Disk = map<string, FileEntry>

  /** PHP's file_exists. */
  predicate FileExists(disk: Disk, path: Option<string>)
    ensures FileExists(disk, path) ==> path.Some?
  {
    path.Some? && path.value in disk
  }

  /** PHP's is_file. */
  predicate IsFile(disk: Disk, path: Option<string>)
    ensures IsFile(disk, path) ==> FileExists(disk, path)
  {
    FileExists(disk, path) && disk[path.value].isFile
  }

  /** The reader's ensureFileIsReadable test: is_readable and is_file. */
  predicate IsReadableFile(disk: Disk, path: Option<string>)
    ensures IsReadableFile(disk, path) ==> FileExists(disk, path)
  {
    IsFile(disk, path) && disk[path.value].readable
  }
}
