/**
 * The reader: holds a file path and, on every request, re-reads the file
 * and projects its lines through the formatter's parseLine.
 */
module Reader {
  import opened DotenvTypes

  /** readLinesFromFile: the file's lines, or UnableReadFile. */
  function ReadLines(disk: Disk, path: Option<string>): (r: Result<seq<string>>)
    ensures r.Ok? <==> IsReadableFile(disk, path)
    ensures r.Err? ==> r.error == UnableReadFile(path)
  {
    if IsReadableFile(disk, path) then Ok(disk[path.value].lines) else Err(UnableReadFile(path))
  }

  /** What keys() yields for the file at path: its key map, or UnableReadFile. */
  function FileKeys(disk: Disk, path: Option<string>, parse: string -> ParsedLine): (r: Result<map<string, KeyRecord>>)
    ensures r.Ok? <==> IsReadableFile(disk, path)
    ensures r.Err? ==> r.error == UnableReadFile(path)
  {
    match ReadLines(disk, path)
    case Ok(ls) => Ok(KeyMap(ls, parse))
    case Err(e) => Err(e)
  }

  /** The line's parse sets key. */
  predicate SetsKey(p: ParsedLine, key: string) {
    p.Setter? && p.key == key
  }

  /**
   * The key map of lines ls: the setter lines folded in file order, so that
   * a later line of a key overwrites an earlier one; line numbers from 1.
   */
  function KeyMap(ls: seq<string>, parse: string -> ParsedLine): (m: map<string, KeyRecord>)
    ensures forall k :: k in m ==> 1 <= m[k].line <= |ls|
    decreases |ls|
  {
    if ls == [] then map[]
    else
      var m := KeyMap(ls[..|ls| - 1], parse);
      match parse(ls[|ls| - 1])
      case Setter(k, v, e, c) => m[k := KeyRecord(|ls|, e, v, c)]
      case _ => m
  }

  /** A key is in the map iff some line parses as a setter of it. */
  lemma {:induction false} KeyMapDomain(ls: seq<string>, parse: string -> ParsedLine, key: string)
    ensures key in KeyMap(ls, parse) <==> exists i :: 0 <= i < |ls| && SetsKey(parse(ls[i]), key)
    decreases |ls|
  {
    if ls != [] {
      var init := ls[..|ls| - 1];
      KeyMapDomain(init, parse, key);
      if exists i :: 0 <= i < |ls| && SetsKey(parse(ls[i]), key) {
        var i :| 0 <= i < |ls| && SetsKey(parse(ls[i]), key);
        if i < |ls| - 1 {
          assert init[i] == ls[i];
        }
      }
      if exists i :: 0 <= i < |init| && SetsKey(parse(init[i]), key) {
        var i :| 0 <= i < |init| && SetsKey(parse(init[i]), key);
        assert ls[i] == init[i];
      }
    }
  }

  /**
   * Last one wins: the record of a key comes from the last line that sets
   * it, numbered from 1, with that line's export flag, value and comment.
   */
  lemma {:induction false} KeyMapLastWins(ls: seq<string>, parse: string -> ParsedLine, key: string)
    requires key in KeyMap(ls, parse)
    ensures var r := KeyMap(ls, parse)[key];
      && 1 <= r.line <= |ls|
      && SetsKey(parse(ls[r.line - 1]), key)
      && (forall j :: r.line <= j < |ls| ==> !SetsKey(parse(ls[j]), key))
      && var p := parse(ls[r.line - 1]);
         r.exported == p.exported && r.value == p.value && r.comment == p.comment
    decreases |ls|
  {
    var init := ls[..|ls| - 1];
    if !SetsKey(parse(ls[|ls| - 1]), key) {
      KeyMapLastWins(init, parse, key);
      var r := KeyMap(ls, parse)[key];
      assert r == KeyMap(init, parse)[key];
      assert ls[r.line - 1] == init[r.line - 1];
      forall j | r.line <= j < |ls| ensures !SetsKey(parse(ls[j]), key) {
        if j < |ls| - 1 {
          assert ls[j] == init[j];
        }
      }
    }
  }

  class DotenvReader {
    const fmt: Formatter
    var filePath: Option<string>

    constructor(fmt: Formatter)
      ensures this.fmt == fmt && filePath == None
    {
      this.fmt := fmt;
      filePath := None;
    }

    /** load: remember the path; nothing is read. */
    method Load(path: Option<string>)
      modifies this
      ensures filePath == path
    {
      filePath := path;
    }

    /** content: the whole file, or UnableReadFile. */
    method Content(disk: Disk) returns (r: Result<string>)
      ensures r.Ok? <==> IsReadableFile(disk, filePath)
      ensures r.Ok? ==> r.value == disk[filePath.value].content
      ensures r.Err? ==> r.error == UnableReadFile(filePath)
    {
      if IsReadableFile(disk, filePath) {
        r := Ok(disk[filePath.value].content);
      } else {
        r := Err(UnableReadFile(filePath));
      }
    }

    /** lines: one record per line, in order, numbered from 1, with its parse. */
    method Lines(disk: Disk) returns (r: Result<seq<LineRecord>>)
      ensures r.Ok? <==> IsReadableFile(disk, filePath)
      ensures r.Err? ==> r.error == UnableReadFile(filePath)
      ensures r.Ok? ==>
        var ls := disk[filePath.value].lines;
        && |r.value| == |ls|
        && forall i :: 0 <= i < |ls| ==> r.value[i] == LineRecord(i + 1, ls[i], fmt.parseLine(ls[i]))
    {
      var read := ReadLines(disk, filePath);
      if read.Err? {
        return Err(read.error);
      }
      var ls := read.value;
      var content: seq<LineRecord> := [];
      var row := 0;
      while row < |ls|
        invariant row <= |ls|
        invariant |content| == row
        invariant forall i :: 0 <= i < row ==> content[i] == LineRecord(i + 1, ls[i], fmt.parseLine(ls[i]))
      {
        content := content + [LineRecord(row + 1, ls[row], fmt.parseLine(ls[row]))];
        row := row + 1;
      }
      r := Ok(content);
    }

    /** keys: the key map of the file's lines. */
    method Keys(disk: Disk) returns (r: Result<map<string, KeyRecord>>)
      ensures r.Ok? <==> IsReadableFile(disk, filePath)
      ensures r.Err? ==> r.error == UnableReadFile(filePath)
      ensures r.Ok? ==> r.value == KeyMap(disk[filePath.value].lines, fmt.parseLine)
      ensures r == FileKeys(disk, filePath, fmt.parseLine)
    {
      var read := ReadLines(disk, filePath);
      if read.Err? {
        return Err(read.error);
      }
      var ls := read.value;
      var content: map<string, KeyRecord> := map[];
      var row := 0;
      while row < |ls|
        invariant row <= |ls|
        invariant content == KeyMap(ls[..row], fmt.parseLine)
      {
        var data := fmt.parseLine(ls[row]);
        if data.Setter? {
          content := content[data.key := KeyRecord(row + 1, data.exported, data.value, data.comment)];
        }
        assert ls[..row + 1][..row] == ls[..row];
        row := row + 1;
      }
      assert ls[..row] == ls;
      r := Ok(content);
    }
  }
}
