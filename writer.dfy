/**
 * The writer: one mutable text buffer, normalised when it is set, extended
 * by appending lines, and rewritten line by line by the setter pattern.
 */
module Writer {
  import opened DotenvTypes
  import opened BufferLines
  import opened SetterPattern

  // ---------------------------------------------------------------------
  // Setting the buffer
  // ---------------------------------------------------------------------

  /** The characters PHP's rtrim removes by default: " \t\n\r\0\x0B". */
  predicate IsTrimChar(c: char) {
    c == ' ' || c == '\t' || c == '\n' || c == '\r' || c == '\0' || c == '\U{000B}'
  }

  /** PHP's rtrim with its default character set. */
  function RTrim(s: string): (r: string)
    ensures |r| <= |s| && r == s[..|r|]
    ensures forall i :: |r| <= i < |s| ==> IsTrimChar(s[i])
    ensures r == [] || !IsTrimChar(r[|r| - 1])
    decreases |s|
  {
    if s != [] && IsTrimChar(s[|s| - 1]) then RTrim(s[..|s| - 1]) else s
  }

  /** PHP's empty() on a string or null: null, "" and "0" are empty. */
  predicate IsEmptyContent(content: Option<string>)
    ensures IsEmptyContent(content) ==> content.None? || |content.value| <= 1
    ensures content.Some? && |content.value| == 1 && content.value[0] != '0' ==> !IsEmptyContent(content)
  {
    content == None || content == Some("") || content == Some("0")
  }

  /**
   * What setBuffer stores: non-empty content loses its trailing whitespace
   * and gets exactly one terminator; empty content is stored as it is, and
   * null is read as the empty string.
   */
  function NormalizeContent(content: Option<string>): (r: string)
    ensures IsEmptyContent(content) ==> r == (if content.Some? then content.value else "")
    ensures !IsEmptyContent(content) ==>
      && |r| >= 1 && r[|r| - 1] == '\n'
      && |r| - 1 <= |content.value|
      && r[..|r| - 1] == content.value[..|r| - 1]
      && (forall i :: |r| - 1 <= i < |content.value| ==> IsTrimChar(content.value[i]))
      && (|r| == 1 || !IsTrimChar(r[|r| - 2]))
  {
    if IsEmptyContent(content) then
      (if content.Some? then content.value else "")
    else
      var t := RTrim(content.value);
      assert (t + "\n")[..|t|] == t;
      t + "\n"
  }

  /** A buffer set from non-empty content ends in an empty line, ready for appends. */
  lemma NormalizedEndsLine(content: Option<string>)
    requires !IsEmptyContent(content)
    ensures Last(Lines(NormalizeContent(content))) == ""
  {
    var r := NormalizeContent(content);
    var p := r[..|r| - 1];
    assert r == p + "" + "\n";
    LinesOfAppend(p, "");
  }

  // ---------------------------------------------------------------------
  // The two global pattern replacements
  // ---------------------------------------------------------------------

  // preg_replace_callback with the pattern /^(export\h)?\h*KEY=.*/m and a
  // callback that returns line: scanning from a line start, each line the
  // pattern matches is replaced (up to, not including, its '\n') by line,
  // verbatim (a callback result is not subject to backreference expansion).
  // A one-line replacement keeps the number of lines.
  function ReplaceSetters(s: string, key: string, line: string): (r: string)
    ensures NoNewline(line) ==> |Lines(r)| == |Lines(s)|
    decreases |s|
  {
    var e := LineEnd(s);
    var head := ReplaceLine(s[..e], key, line);
    if e == |s| then
      (if NoNewline(line) then LinesOfLine(s); LinesOfLine(head); head else head)
    else
      var rest := ReplaceSetters(s[e + 1..], key, line);
      assert s == s[..e] + "\n" + s[e + 1..];
      if NoNewline(line) then LinesCons(s[..e], s[e + 1..]); LinesCons(head, rest); head + "\n" + rest
      else head + "\n" + rest
  }

  /** What the replacement does to one line. */
  function ReplaceLine(l: string, key: string, line: string): (r: string)
    ensures r != l ==> IsSetterLine(l, key) && r == line
  {
    if IsSetterLine(l, key) then line else l
  }

  // preg_replace with the pattern /^(export\h)?\h*KEY=.*\n/m and an empty
  // replacement: each matching line is removed with its '\n'; the last line,
  // which has no '\n', never matches.
  function DeleteSetters(s: string, key: string): (r: string)
    ensures |r| <= |s|
    decreases |s|
  {
    var e := LineEnd(s);
    if e == |s| then s
    else if IsSetterLine(s[..e], key) then DeleteSetters(s[e + 1..], key)
    else s[..e] + "\n" + DeleteSetters(s[e + 1..], key)
  }

  /** The lines ls with the replacement applied to each. */
  function ReplacedLines(ls: seq<string>, key: string, line: string): (r: seq<string>)
    ensures |r| == |ls|
    ensures forall i :: 0 <= i < |ls| ==> r[i] == (if IsSetterLine(ls[i], key) then line else ls[i])
  {
    if ls == [] then [] else [ReplaceLine(ls[0], key, line)] + ReplacedLines(ls[1..], key, line)
  }

  /** The lines of ls that are not setter lines of key, in order. */
  function KeepLines(ls: seq<string>, key: string): (r: seq<string>)
    ensures |r| == |ls| - CountSetterLines(ls, key)
    ensures forall i :: 0 <= i < |r| ==> !IsSetterLine(r[i], key) && r[i] in ls
    ensures CountSetterLines(ls, key) == 0 ==> r == ls
  {
    if ls == [] then []
    else (if IsSetterLine(ls[0], key) then [] else [ls[0]]) + KeepLines(ls[1..], key)
  }

  function CountSetterLines(ls: seq<string>, key: string): nat {
    if ls == [] then 0
    else (if IsSetterLine(ls[0], key) then 1 else 0) + CountSetterLines(ls[1..], key)
  }

  lemma ReplaceSettersCons(x: string, y: string, key: string, line: string)
    requires NoNewline(x)
    ensures ReplaceSetters(x + "\n" + y, key, line) == ReplaceLine(x, key, line) + "\n" + ReplaceSetters(y, key, line)
  {
    var s := x + "\n" + y;
    LineEndAtTerminator(x, y);
    assert s[..|x|] == x;
    assert s[|x| + 1..] == y;
  }

  lemma DeleteSettersCons(x: string, y: string, key: string)
    requires NoNewline(x)
    ensures DeleteSetters(x + "\n" + y, key) ==
      if IsSetterLine(x, key) then DeleteSetters(y, key) else x + "\n" + DeleteSetters(y, key)
  {
    var s := x + "\n" + y;
    LineEndAtTerminator(x, y);
    assert s[..|x|] == x;
    assert s[|x| + 1..] == y;
  }

  /** The replacement, on lines given as a join. */
  lemma {:induction false} ReplaceSettersJoin(ls: seq<string>, key: string, line: string)
    requires |ls| >= 1
    requires forall i :: 0 <= i < |ls| ==> NoNewline(ls[i])
    ensures ReplaceSetters(Join(ls), key, line) == Join(ReplacedLines(ls, key, line))
    decreases |ls|
  {
    if |ls| == 1 {
      assert ls[0][..|ls[0]|] == ls[0];
    } else {
      ReplaceSettersCons(ls[0], Join(ls[1..]), key, line);
      ReplaceSettersJoin(ls[1..], key, line);
      JoinCons(ReplaceLine(ls[0], key, line), ReplacedLines(ls[1..], key, line));
    }
  }

  /**
   * updateSetter on the line view: the same number of lines, every setter
   * line of key now reads line, every other line is unchanged.
   */
  lemma ReplaceSettersLines(s: string, key: string, line: string)
    requires NoNewline(line)
    ensures Lines(ReplaceSetters(s, key, line)) == ReplacedLines(Lines(s), key, line)
  {
    JoinOfLines(s);
    ReplaceSettersJoin(Lines(s), key, line);
    LinesOfJoin(ReplacedLines(Lines(s), key, line));
  }

  /** updateSetter without a matching line leaves the buffer as it was. */
  lemma ReplaceSettersNoMatch(s: string, key: string, line: string)
    requires forall i :: 0 <= i < |Lines(s)| ==> !IsSetterLine(Lines(s)[i], key)
    ensures ReplaceSetters(s, key, line) == s
  {
    JoinOfLines(s);
    ReplaceSettersJoin(Lines(s), key, line);
    assert ReplacedLines(Lines(s), key, line) == Lines(s);
  }

  /** The deletion, on lines given as a join. */
  lemma {:induction false} DeleteSettersJoin(ls: seq<string>, key: string)
    requires |ls| >= 1
    requires forall i :: 0 <= i < |ls| ==> NoNewline(ls[i])
    ensures DeleteSetters(Join(ls), key) == Join(KeepLines(Terminated(ls), key) + [Last(ls)])
    decreases |ls|
  {
    if |ls| > 1 {
      var x, rest := ls[0], ls[1..];
      var zs := KeepLines(Terminated(rest), key) + [Last(rest)];
      var ks := KeepLines(Terminated(ls), key) + [Last(ls)];
      assert Join(ls) == x + "\n" + Join(rest);
      DeleteSettersCons(x, Join(rest), key);
      DeleteSettersJoin(rest, key);
      if IsSetterLine(x, key) {
        KeptLinesDrop(ls, key);
        calc {
          DeleteSetters(Join(ls), key);
          DeleteSetters(Join(rest), key);
          Join(zs);
          Join(ks);
        }
      } else {
        KeptLinesKeep(ls, key);
        calc {
          DeleteSetters(Join(ls), key);
          x + "\n" + DeleteSetters(Join(rest), key);
          x + "\n" + Join(zs);
          { JoinCons(x, zs); }
          Join([x] + zs);
          Join(ks);
        }
      }
    }
  }

  /** A line that does not match the key survives the filter. */
  lemma {:induction false} KeepLinesKeepsOthers(ls: seq<string>, key: string, x: string)
    requires x in ls && !IsSetterLine(x, key)
    ensures x in KeepLines(ls, key)
  {
    if ls[0] != x {
      assert x in ls[1..];
      KeepLinesKeepsOthers(ls[1..], key, x);
    }
  }

  /** A matching first line is not kept. */
  lemma KeptLinesDrop(ls: seq<string>, key: string)
    requires |ls| > 1 && IsSetterLine(ls[0], key)
    ensures KeepLines(Terminated(ls), key) + [Last(ls)]
      == KeepLines(Terminated(ls[1..]), key) + [Last(ls[1..])]
  {
    var t := Terminated(ls);
    assert t[0] == ls[0];
    assert t[1..] == Terminated(ls[1..]);
  }

  /** Any other first line is kept in front. */
  lemma KeptLinesKeep(ls: seq<string>, key: string)
    requires |ls| > 1 && !IsSetterLine(ls[0], key)
    ensures KeepLines(Terminated(ls), key) + [Last(ls)]
      == [ls[0]] + (KeepLines(Terminated(ls[1..]), key) + [Last(ls[1..])])
  {
    var t := Terminated(ls);
    assert t[0] == ls[0];
    assert t[1..] == Terminated(ls[1..]);
  }

  /**
   * deleteSetter on the line view: the terminated setter lines of key are
   * gone, the others keep their order and text, and the last line stays.
   */
  lemma DeleteSettersLines(s: string, key: string)
    ensures var ls := Lines(s);
      Lines(DeleteSetters(s, key)) == KeepLines(Terminated(ls), key) + [Last(ls)]
  {
    var ls := Lines(s);
    JoinOfLines(s);
    DeleteSettersJoin(ls, key);
    var ks := KeepLines(Terminated(ls), key) + [Last(ls)];
    assert forall i :: 0 <= i < |ks| ==> NoNewline(ks[i]) by {
      forall i | 0 <= i < |ks| ensures NoNewline(ks[i]) {
        if i < |ks| - 1 {
          var j :| 0 <= j < |ls| - 1 && Terminated(ls)[j] == ks[i];
        }
      }
    }
    LinesOfJoin(ks);
  }

  /** deleteSetter drops the line count by the number of terminated matches. */
  lemma DeleteSettersCount(s: string, key: string)
    ensures var ls := Lines(s);
      |Lines(DeleteSetters(s, key))| == |ls| - CountSetterLines(Terminated(ls), key)
  {
    DeleteSettersLines(s, key);
  }

  /** Deleting twice is deleting once. */
  lemma DeleteSettersIdempotent(s: string, key: string)
    ensures DeleteSetters(DeleteSetters(s, key), key) == DeleteSetters(s, key)
  {
    var ls, d := Lines(s), DeleteSetters(s, key);
    var kept := KeepLines(Terminated(ls), key);
    DeleteSettersLines(s, key);
    DeleteSettersLines(d, key);
    assert Lines(d) == kept + [Last(ls)];
    assert Terminated(Lines(d)) == kept;
    NoSetterLinesCount(kept, key);
    calc {
      DeleteSetters(d, key);
      { JoinOfLines(DeleteSetters(d, key)); }
      Join(Lines(DeleteSetters(d, key)));
      Join(KeepLines(kept, key) + [Last(ls)]);
      Join(kept + [Last(ls)]);
      { JoinOfLines(d); }
      d;
    }
  }

  /** Lines none of which matches are counted as none. */
  lemma {:induction false} NoSetterLinesCount(ls: seq<string>, key: string)
    requires forall i :: 0 <= i < |ls| ==> !IsSetterLine(ls[i], key)
    ensures CountSetterLines(ls, key) == 0
    decreases |ls|
  {
    if ls != [] {
      NoSetterLinesCount(ls[1..], key);
    }
  }

  /** After one deletion every terminated line was there before and none matches; the last line stays. */
  lemma DeleteSetterStep(buf: string, key: string)
    ensures var ls, bs := Lines(buf), Lines(DeleteSetters(buf, key));
      && Last(bs) == Last(ls)
      && (forall i :: 0 <= i < |bs| - 1 ==> bs[i] in Terminated(ls) && !IsSetterLine(bs[i], key))
  {
    DeleteSettersLines(buf, key);
    var ls, bs := Lines(buf), Lines(DeleteSetters(buf, key));
    var kept := KeepLines(Terminated(ls), key);
    assert bs == kept + [Last(ls)];
    forall i | 0 <= i < |bs| - 1 ensures bs[i] in Terminated(ls) && !IsSetterLine(bs[i], key) {
      assert bs[i] == kept[i];
    }
  }

  /** deleteSetter without a terminated setter line of the key leaves the buffer as it was. */
  lemma DeleteSetterAbsent(buf: string, key: string)
    requires forall i :: 0 <= i < |Lines(buf)| - 1 ==> !IsSetterLine(Lines(buf)[i], key)
    ensures DeleteSetters(buf, key) == buf
  {
    var ls := Lines(buf);
    var d := DeleteSetters(buf, key);
    calc {
      d;
      { JoinOfLines(d); }
      Join(Lines(d));
      { DeleteSettersLines(buf, key); }
      Join(KeepLines(Terminated(ls), key) + [Last(ls)]);
      { NoSetterLinesCount(Terminated(ls), key); }
      Join(Terminated(ls) + [Last(ls)]);
      { assert Terminated(ls) + [Last(ls)] == ls; }
      Join(ls);
      { JoinOfLines(buf); }
      buf;
    }
  }

  // ---------------------------------------------------------------------
  // The writer object
  // ---------------------------------------------------------------------

  class DotenvWriter {
    const fmt: Formatter
    var buffer: string

    ghost predicate Valid() {
      ValidFormatter(fmt)
    }

    constructor(fmt: Formatter)
      requires ValidFormatter(fmt)
      ensures Valid() && this.fmt == fmt && buffer == ""
    {
      this.fmt := fmt;
      buffer := "";
    }

    /** setBuffer: store the content, normalised. */
    method SetBuffer(content: Option<string>)
      modifies this
      ensures buffer == NormalizeContent(content)
      ensures !IsEmptyContent(content) ==> Last(Lines(buffer)) == ""
    {
      buffer := NormalizeContent(content);
      if !IsEmptyContent(content) {
        NormalizedEndsLine(content);
      }
    }

    method GetBuffer() returns (b: string)
      ensures b == buffer
    {
      b := buffer;
    }

    /**
     * appendLine: the old buffer is an unchanged prefix; text goes on the
     * last line, which is then terminated, so there is one line more.
     */
    method AppendLine(text: string)
      modifies this
      ensures buffer == old(buffer) + text + "\n"
      ensures NoNewline(text) ==>
        Lines(buffer) == Terminated(Lines(old(buffer))) + [Last(Lines(old(buffer))) + text, ""]
    {
      if NoNewline(text) {
        LinesOfAppend(buffer, text);
      }
      buffer := buffer + text + "\n";
    }

    method AppendEmptyLine()
      modifies this
      ensures buffer == old(buffer) + "\n"
      ensures Lines(buffer) == Terminated(Lines(old(buffer))) + [Last(Lines(old(buffer))), ""]
    {
      AppendLine("");
      assert old(buffer) + "" + "\n" == old(buffer) + "\n";
      assert Last(Lines(old(buffer))) + "" == Last(Lines(old(buffer)));
    }

    method AppendCommentLine(comment: string)
      modifies this
      ensures buffer == old(buffer) + "# " + comment + "\n"
    {
      AppendLine("# " + comment);
      assert old(buffer) + ("# " + comment) == old(buffer) + "# " + comment;
    }

    method AppendSetter(key: string, value: Option<string>, comment: Option<string>, exported: bool)
      requires Valid()
      modifies this
      ensures var line := fmt.formatSetterLine(key, value, comment, exported);
        && buffer == old(buffer) + line + "\n"
        && Lines(buffer) == Terminated(Lines(old(buffer))) + [Last(Lines(old(buffer))) + line, ""]
    {
      var line := fmt.formatSetterLine(key, value, comment, exported);
      AppendLine(line);
    }

    /**
     * updateSetter: every setter line of key is replaced by the formatted
     * line; the line count and all other lines are unchanged.
     */
    method UpdateSetter(key: string, value: Option<string>, comment: Option<string>, exported: bool)
      requires Valid()
      requires IsKeyChars(key)
      modifies this
      ensures var line := fmt.formatSetterLine(key, value, comment, exported);
        && buffer == ReplaceSetters(old(buffer), key, line)
        && Lines(buffer) == ReplacedLines(Lines(old(buffer)), key, line)
    {
      var line := fmt.formatSetterLine(key, value, comment, exported);
      ReplaceSettersLines(buffer, key, line);
      buffer := ReplaceSetters(buffer, key, line);
    }

    /** deleteSetter: every terminated setter line of key is removed. */
    method DeleteSetter(key: string)
      requires IsKeyChars(key)
      modifies this
      ensures buffer == DeleteSetters(old(buffer), key)
      ensures Lines(buffer) == KeepLines(Terminated(Lines(old(buffer))), key) + [Last(Lines(old(buffer)))]
    {
      DeleteSettersLines(buffer, key);
      buffer := DeleteSetters(buffer, key);
    }
  }
}
