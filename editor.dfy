/**
 * The editor: loads a file into the writer's buffer, answers queries from
 * the reader's view of the file on disk, and turns setKeys/deleteKeys into
 * appends, updates and deletions on the buffer.
 */
module Editor {
  import opened DotenvTypes
  import opened BufferLines
  import opened SetterPattern
  import opened Writer
  import opened Reader

  // ---------------------------------------------------------------------
  // Queries
  // ---------------------------------------------------------------------

  /** getKeys' filter: everything for no keys, otherwise the requested entries. */
  function FilterKeys(all: map<string, KeyRecord>, keys: seq<string>): (r: map<string, KeyRecord>)
    ensures forall k :: k in r <==> k in all && (keys == [] || k in keys)
    ensures forall k :: k in r ==> r[k] == all[k]
  {
    if keys == [] then all else map k | k in all && k in keys :: all[k]
  }

  // ---------------------------------------------------------------------
  // setKeys
  // ---------------------------------------------------------------------

  /** The index of an entry of the PHP array given to setKeys. */
  datatype ArrayKey = IntIndex(i: int) | StringIndex(s: string)

  /**
   * The value of an entry: a bare value, or an array whose 'key', 'value',
   * 'comment' and 'export' elements may be missing (a null element reads
   * as a missing one).
   */
  datatype SetterItem =
    | Scalar(value: Option<string>)
    | Fields(key: Option<string>, value: Option<string>, comment: Option<string>, exported: Option<bool>)

  datatype Entry = Entry(index: ArrayKey, item: SetterItem)

  /** One setter to write, with the key as the caller gave it. */
  datatype SetterRequest = SetterRequest(key: string, value: Option<string>, comment: Option<string>, exported: bool)

  /**
   * The request an entry makes: a bare value under a string index sets that
   * key; an array sets its 'key'; defaults are null value, null comment and
   * no export; any other entry is skipped.
   */
  function EntryRequest(e: Entry): (r: Option<SetterRequest>)
    ensures r.Some? <==> (e.item.Scalar? && e.index.StringIndex?) || (e.item.Fields? && e.item.key.Some?)
    ensures r.Some? && e.item.Scalar? ==> r.value == SetterRequest(e.index.s, e.item.value, None, false)
    ensures r.Some? && e.item.Fields? ==>
      r.value == SetterRequest(e.item.key.value, e.item.value, e.item.comment, e.item.exported == Some(true))
  {
    match e.item
    case Scalar(v) =>
      if e.index.StringIndex? then Some(SetterRequest(e.index.s, v, None, false)) else None
    case Fields(k, v, c, x) =>
      if k.Some? then Some(SetterRequest(k.value, v, c, if x.Some? then x.value else false)) else None
  }

  /** The entry setKey builds: an array with all four elements. */
  function SetKeyEntry(key: string, value: Option<string>, comment: Option<string>, exported: bool): (e: Entry)
    ensures EntryRequest(e) == Some(SetterRequest(key, value, comment, exported))
  {
    Entry(IntIndex(0), Fields(Some(key), value, comment, Some(exported)))
  }

  /**
   * One request against the buffer. Whether the key exists is decided by
   * the file on disk, not by the buffer: a key that is not in the file (or
   * no regular file at all) is appended; a key in the file is updated, and
   * a missing comment is taken from the file. An unreadable regular file
   * raises UnableReadFile.
   */
  function ApplyRequest(buf: string, req: SetterRequest, disk: Disk, path: Option<string>, fmt: Formatter): (r: Result<string>)
    ensures r.Err? <==> IsFile(disk, path) && !IsReadableFile(disk, path)
    ensures r.Err? ==> r.error == UnableReadFile(path)
  {
    var key := fmt.formatKey(req.key);
    var appended := buf + fmt.formatSetterLine(key, req.value, req.comment, req.exported) + "\n";
    if !IsFile(disk, path) then Ok(appended)
    else
      match FileKeys(disk, path, fmt.parseLine)
      case Err(e) => Err(e)
      case Ok(m) =>
        if key !in m then Ok(appended)
        else
          var comment := if req.comment.None? then m[key].comment else req.comment;
          Ok(ReplaceSetters(buf, key, fmt.formatSetterLine(key, req.value, comment, req.exported)))
  }

  /**
   * setKeys over the entries in order: the final buffer and outcome. The
   * first failure stops the loop and keeps what the earlier entries did.
   */
  function SetKeysSpec(buf: string, data: seq<Entry>, disk: Disk, path: Option<string>, fmt: Formatter): (r: (string, Outcome))
    ensures r.1 == Pass || r.1 == Fail(UnableReadFile(path))
    ensures r.1.Fail? ==> IsFile(disk, path) && !IsReadableFile(disk, path)
    ensures r.1.Fail? ==> r.0 == buf
    decreases |data|
  {
    if data == [] then (buf, Pass)
    else
      match EntryRequest(data[0])
      case None => SetKeysSpec(buf, data[1..], disk, path, fmt)
      case Some(req) =>
        match ApplyRequest(buf, req, disk, path, fmt)
        case Err(e) => (buf, Fail(e))
        case Ok(b) => SetKeysSpec(b, data[1..], disk, path, fmt)
  }

  /** Skipped entries: a bare value under an integer index, an array without 'key'. */
  lemma SkippedEntries(buf: string, e: Entry, disk: Disk, path: Option<string>, fmt: Formatter)
    requires (e.item.Scalar? && e.index.IntIndex?) || (e.item.Fields? && e.item.key.None?)
    ensures SetKeysSpec(buf, [e], disk, path, fmt) == (buf, Pass)
  {
  }

  /**
   * Setting a key the file does not have appends it, even when an earlier
   * setKey in the same session appended it already: two setKey calls of a
   * new key append two lines.
   */
  lemma NewKeyTwiceAppendsTwice(buf: string, key: string, v1: Option<string>, v2: Option<string>,
                                disk: Disk, path: Option<string>, fmt: Formatter)
    requires !IsFile(disk, path) || (IsReadableFile(disk, path) && fmt.formatKey(key) !in KeyMap(disk[path.value].lines, fmt.parseLine))
    ensures var k := fmt.formatKey(key);
      var l1, l2 := fmt.formatSetterLine(k, v1, None, false), fmt.formatSetterLine(k, v2, None, false);
      SetKeysSpec(buf, [SetKeyEntry(key, v1, None, false), SetKeyEntry(key, v2, None, false)], disk, path, fmt)
        == (buf + l1 + "\n" + l2 + "\n", Pass)
  {
    var k := fmt.formatKey(key);
    var l1, l2 := fmt.formatSetterLine(k, v1, None, false), fmt.formatSetterLine(k, v2, None, false);
    var data := [SetKeyEntry(key, v1, None, false), SetKeyEntry(key, v2, None, false)];
    var b1 := buf + l1 + "\n";
    assert ApplyRequest(buf, EntryRequest(data[0]).value, disk, path, fmt) == Ok(b1);
    assert SetKeysSpec(buf, data, disk, path, fmt) == SetKeysSpec(b1, data[1..], disk, path, fmt);
    assert ApplyRequest(b1, EntryRequest(data[1]).value, disk, path, fmt) == Ok(b1 + l2 + "\n");
    assert data[1..][0] == data[1] && data[1..][1..] == [];
    assert SetKeysSpec(b1, data[1..], disk, path, fmt) == SetKeysSpec(b1 + l2 + "\n", [], disk, path, fmt);
  }

  /**
   * The update path: the key's lines are rewritten with the stored comment
   * when none is given; the export flag is the given one, not the stored one.
   */
  lemma UpdateKeepsComment(buf: string, key: string, value: Option<string>, exported: bool,
                           disk: Disk, path: Option<string>, fmt: Formatter)
    requires IsReadableFile(disk, path)
    requires fmt.formatKey(key) in KeyMap(disk[path.value].lines, fmt.parseLine)
    ensures var k := fmt.formatKey(key);
      var stored := KeyMap(disk[path.value].lines, fmt.parseLine)[k];
      SetKeysSpec(buf, [SetKeyEntry(key, value, None, exported)], disk, path, fmt)
        == (ReplaceSetters(buf, k, fmt.formatSetterLine(k, value, stored.comment, exported)), Pass)
  {
  }

  /** An unreadable regular file stops setKeys at the first entry that needs its keys. */
  lemma UnreadableFileFails(buf: string, key: string, value: Option<string>, disk: Disk, path: Option<string>, fmt: Formatter)
    requires IsFile(disk, path) && !IsReadableFile(disk, path)
    ensures SetKeysSpec(buf, [SetKeyEntry(key, value, None, false)], disk, path, fmt)
      == (buf, Fail(UnableReadFile(path)))
  {
  }

  /**
   * On an unreadable regular file, setKeys fails at the first entry that
   * makes a request; every entry before it was skipped, so the buffer is
   * as it was.
   */
  lemma {:induction false} UnreadableFileFailsAny(buf: string, data: seq<Entry>, disk: Disk, path: Option<string>, fmt: Formatter)
    requires IsFile(disk, path) && !IsReadableFile(disk, path)
    requires exists i :: 0 <= i < |data| && EntryRequest(data[i]).Some?
    ensures SetKeysSpec(buf, data, disk, path, fmt) == (buf, Fail(UnableReadFile(path)))
    decreases |data|
  {
    if EntryRequest(data[0]).None? {
      var i :| 0 <= i < |data| && EntryRequest(data[i]).Some?;
      assert i > 0 && data[1..][i - 1] == data[i];
      UnreadableFileFailsAny(buf, data[1..], disk, path, fmt);
    }
  }

  // ---------------------------------------------------------------------
  // deleteKeys
  // ---------------------------------------------------------------------

  /** deleteKeys over the keys in order. */
  function DeleteKeysSpec(buf: string, keys: seq<string>): (r: string)
    ensures |r| <= |buf|
    decreases |keys|
  {
    if keys == [] then buf else DeleteKeysSpec(DeleteSetters(buf, keys[0]), keys[1..])
  }

  /**
   * After deleteKeys no terminated line is a setter line of any of the keys;
   * every remaining terminated line was one before; every terminated line
   * that matches none of the keys remains; the last line stays.
   */
  lemma {:induction false} DeleteKeysRemovesAll(buf: string, keys: seq<string>)
    ensures var ls, rs := Lines(buf), Lines(DeleteKeysSpec(buf, keys));
      && Last(rs) == Last(ls)
      && (forall i :: 0 <= i < |rs| - 1 ==> rs[i] in Terminated(ls))
      && (forall i, k :: 0 <= i < |rs| - 1 && k in keys ==> !IsSetterLine(rs[i], k))
      && (forall j :: 0 <= j < |ls| - 1 && (forall k :: k in keys ==> !IsSetterLine(ls[j], k))
            ==> ls[j] in Terminated(rs))
    decreases |keys|
  {
    var ls := Lines(buf);
    forall j | 0 <= j < |ls| - 1 && (forall k :: k in keys ==> !IsSetterLine(ls[j], k))
      ensures ls[j] in Terminated(Lines(DeleteKeysSpec(buf, keys)))
    {
      assert Terminated(ls)[j] == ls[j];
      DeleteKeysKeepsLine(buf, keys, ls[j]);
    }
    if keys != [] {
      var b := DeleteSetters(buf, keys[0]);
      DeleteKeysRemovesAll(b, keys[1..]);
      DeleteSetterStep(buf, keys[0]);
      var ls, bs, rs := Lines(buf), Lines(b), Lines(DeleteKeysSpec(b, keys[1..]));
      assert DeleteKeysSpec(buf, keys) == DeleteKeysSpec(b, keys[1..]);
      forall i | 0 <= i < |rs| - 1
        ensures rs[i] in Terminated(ls) && !IsSetterLine(rs[i], keys[0])
      {
        var tb := Terminated(bs);
        assert rs[i] in tb;
        var j :| 0 <= j < |tb| && tb[j] == rs[i];
        assert bs[j] == rs[i];
      }
      forall i, k | 0 <= i < |rs| - 1 && k in keys ensures !IsSetterLine(rs[i], k) {
        if k != keys[0] {
          assert k in keys[1..];
        }
      }
    }
  }

  /** A terminated line that matches none of the keys survives deleteKeys. */
  lemma {:induction false} DeleteKeysKeepsLine(buf: string, keys: seq<string>, x: string)
    requires x in Terminated(Lines(buf))
    requires forall k :: k in keys ==> !IsSetterLine(x, k)
    ensures x in Terminated(Lines(DeleteKeysSpec(buf, keys)))
    decreases |keys|
  {
    if keys != [] {
      var b := DeleteSetters(buf, keys[0]);
      var ls, bs := Lines(buf), Lines(b);
      assert keys[0] in keys;
      DeleteSettersLines(buf, keys[0]);
      assert Terminated(bs) == KeepLines(Terminated(ls), keys[0]);
      KeepLinesKeepsOthers(Terminated(ls), keys[0], x);
      assert forall k :: k in keys[1..] ==> k in keys;
      DeleteKeysKeepsLine(b, keys[1..], x);
      assert DeleteKeysSpec(buf, keys) == DeleteKeysSpec(b, keys[1..]);
    }
  }

  /** Deleting keys the buffer has no terminated lines of changes nothing. */
  lemma {:induction false} DeleteAbsentKeys(buf: string, keys: seq<string>)
    requires forall i, k :: 0 <= i < |Lines(buf)| - 1 && k in keys ==> !IsSetterLine(Lines(buf)[i], k)
    ensures DeleteKeysSpec(buf, keys) == buf
    decreases |keys|
  {
    if keys != [] {
      assert keys[0] in keys;
      DeleteSetterAbsent(buf, keys[0]);
      assert forall k :: k in keys[1..] ==> k in keys;
      DeleteAbsentKeys(buf, keys[1..]);
    }
  }

  // ---------------------------------------------------------------------
  // The editor object
  // ---------------------------------------------------------------------

  class DotenvEditor {
    const fmt: Formatter
    const reader: DotenvReader
    const writer: DotenvWriter
    var filePath: Option<string>

    /** The three components share the formatter; editor and reader agree on the path. */
    ghost predicate Valid()
      reads this, reader
    {
      && ValidFormatter(fmt)
      && reader.fmt == fmt
      && writer.fmt == fmt
      && reader.filePath == filePath
    }

    constructor(fmt: Formatter)
      requires ValidFormatter(fmt)
      ensures Valid() && this.fmt == fmt && fresh(reader) && fresh(writer)
      ensures filePath == None && writer.buffer == ""
    {
      this.fmt := fmt;
      reader := new DotenvReader(fmt);
      writer := new DotenvWriter(fmt);
      filePath := None;
    }

    /** resetContent: no path, the reader reset, the buffer emptied. */
    method ResetContent()
      requires Valid()
      modifies this, reader, writer
      ensures Valid() && filePath == None && writer.buffer == ""
    {
      filePath := None;
      reader.Load(None);
      writer.SetBuffer(None);
    }

    /**
     * load: reset, then target path; when something exists there, the
     * buffer is seeded from its content, which fails unless it is a
     * readable regular file. Otherwise the buffer stays empty.
     */
    method Load(disk: Disk, path: string) returns (r: Outcome)
      requires Valid()
      modifies this, reader, writer
      ensures Valid() && filePath == Some(path)
      ensures !FileExists(disk, filePath) ==> r == Pass && writer.buffer == ""
      ensures FileExists(disk, filePath) && IsReadableFile(disk, filePath) ==>
        r == Pass && writer.buffer == NormalizeContent(Some(disk[path].content))
      ensures FileExists(disk, filePath) && !IsReadableFile(disk, filePath) ==>
        r == Fail(UnableReadFile(filePath)) && writer.buffer == ""
    {
      ResetContent();
      filePath := Some(path);
      reader.Load(filePath);
      if FileExists(disk, filePath) {
        var content := GetContent(disk);
        if content.Err? {
          return Fail(content.error);
        }
        writer.SetBuffer(Some(content.value));
      }
      r := Pass;
    }

    method GetContent(disk: Disk) returns (r: Result<string>)
      requires Valid()
      ensures r.Ok? <==> IsReadableFile(disk, filePath)
      ensures r.Ok? ==> r.value == disk[filePath.value].content
      ensures r.Err? ==> r.error == UnableReadFile(filePath)
    {
      r := reader.Content(disk);
    }

    method GetLines(disk: Disk) returns (r: Result<seq<LineRecord>>)
      requires Valid()
      ensures r.Ok? <==> IsReadableFile(disk, filePath)
      ensures r.Err? ==> r.error == UnableReadFile(filePath)
      ensures r.Ok? ==>
        var ls := disk[filePath.value].lines;
        && |r.value| == |ls|
        && forall i :: 0 <= i < |ls| ==> r.value[i] == LineRecord(i + 1, ls[i], fmt.parseLine(ls[i]))
    {
      r := reader.Lines(disk);
    }

    /** getKeys: the file's key map, restricted to keys unless keys is empty. */
    method GetKeys(disk: Disk, keys: seq<string>) returns (r: Result<map<string, KeyRecord>>)
      requires Valid()
      ensures r.Ok? <==> IsReadableFile(disk, filePath)
      ensures r.Err? ==> r.error == UnableReadFile(filePath)
      ensures r.Ok? ==> r.value == FilterKeys(KeyMap(disk[filePath.value].lines, fmt.parseLine), keys)
    {
      var all := reader.Keys(disk);
      if all.Err? {
        return Err(all.error);
      }
      r := Ok(FilterKeys(all.value, keys));
    }

    /** keyExists: some line of the file on disk parses as a setter of key. */
    method KeyExists(disk: Disk, key: string) returns (r: Result<bool>)
      requires Valid()
      ensures r.Ok? <==> IsReadableFile(disk, filePath)
      ensures r.Err? ==> r.error == UnableReadFile(filePath)
      ensures r.Ok? ==> r.value == (key in KeyMap(disk[filePath.value].lines, fmt.parseLine))
      ensures r.Ok? ==> var ls := disk[filePath.value].lines;
        r.value <==> exists i :: 0 <= i < |ls| && SetsKey(fmt.parseLine(ls[i]), key)
    {
      var all := GetKeys(disk, []);
      if all.Err? {
        return Err(all.error);
      }
      r := Ok(key in all.value);
      KeyMapDomain(disk[filePath.value].lines, fmt.parseLine, key);
    }

    /** getValue: the value of the last line of the file that sets key, or KeyNotFound. */
    method GetValue(disk: Disk, key: string) returns (r: Result<string>)
      requires Valid()
      ensures !IsReadableFile(disk, filePath) ==> r == Err(UnableReadFile(filePath))
      ensures IsReadableFile(disk, filePath) ==>
        var m := KeyMap(disk[filePath.value].lines, fmt.parseLine);
        && (key in m ==> r == Ok(m[key].value))
        && (key !in m ==> r == Err(KeyNotFound(key)))
    {
      var all := GetKeys(disk, [key]);
      if all.Err? {
        return Err(all.error);
      }
      if key in all.value {
        r := Ok(all.value[key].value);
      } else {
        r := Err(KeyNotFound(key));
      }
    }

    method GetBuffer() returns (b: string)
      ensures b == writer.buffer
    {
      b := writer.GetBuffer();
    }

    method AddEmpty()
      modifies writer
      ensures writer.buffer == old(writer.buffer) + "\n"
    {
      writer.AppendEmptyLine();
    }

    method AddComment(comment: string)
      modifies writer
      ensures writer.buffer == old(writer.buffer) + "# " + comment + "\n"
    {
      writer.AppendCommentLine(comment);
    }

    /** setKeys: every entry in order, as SetKeysSpec describes. */
    method SetKeys(disk: Disk, data: seq<Entry>) returns (r: Outcome)
      requires Valid()
      modifies writer
      ensures (writer.buffer, r) == SetKeysSpec(old(writer.buffer), data, disk, filePath, fmt)
    {
      var i := 0;
      while i < |data|
        invariant i <= |data|
        invariant SetKeysSpec(writer.buffer, data[i..], disk, filePath, fmt)
               == SetKeysSpec(old(writer.buffer), data, disk, filePath, fmt)
      {
        assert data[i..][1..] == data[i + 1..];
        var req := EntryRequest(data[i]);
        if req.Some? {
          var q := req.value;
          var key := fmt.formatKey(q.key);
          if !IsFile(disk, filePath) {
            writer.AppendSetter(key, q.value, q.comment, q.exported);
          } else {
            var present := KeyExists(disk, key);
            if present.Err? {
              return Fail(present.error);
            }
            if !present.value {
              writer.AppendSetter(key, q.value, q.comment, q.exported);
            } else {
              var oldInfo := GetKeys(disk, [key]);
              var comment := if q.comment.None? then oldInfo.value[key].comment else q.comment;
              writer.UpdateSetter(key, q.value, comment, q.exported);
            }
          }
        }
        i := i + 1;
      }
      r := Pass;
    }

    /** setKey: setKeys with one full entry. */
    method SetKey(disk: Disk, key: string, value: Option<string>, comment: Option<string>, exported: bool)
      returns (r: Outcome)
      requires Valid()
      modifies writer
      ensures (writer.buffer, r)
        == SetKeysSpec(old(writer.buffer), [SetKeyEntry(key, value, comment, exported)], disk, filePath, fmt)
    {
      r := SetKeys(disk, [SetKeyEntry(key, value, comment, exported)]);
    }

    /** deleteKeys: deleteSetter for every key in order, present or not. */
    method DeleteKeys(keys: seq<string>)
      requires forall k :: k in keys ==> IsKeyChars(k)
      modifies writer
      ensures writer.buffer == DeleteKeysSpec(old(writer.buffer), keys)
    {
      var i := 0;
      while i < |keys|
        invariant i <= |keys|
        invariant DeleteKeysSpec(writer.buffer, keys[i..]) == DeleteKeysSpec(old(writer.buffer), keys)
      {
        assert keys[i..][1..] == keys[i + 1..];
        writer.DeleteSetter(keys[i]);
        i := i + 1;
      }
    }

    method DeleteKey(key: string)
      requires IsKeyChars(key)
      modifies writer
      ensures writer.buffer == DeleteKeysSpec(old(writer.buffer), [key])
    {
      DeleteKeys([key]);
    }
  }
}
