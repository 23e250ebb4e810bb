/**
 * The line view of a text buffer. The writer's buffer is one string whose
 * lines are separated by the terminator '\n'; a buffer with k terminators has
 * k + 1 lines, the last one being empty when the buffer ends in '\n'.
 */
module BufferLines {
  import opened DotenvTypes

  /** The index of the first '\n' in s, or |s| when there is none. */
  function LineEnd(s: string): (e: nat)
    ensures e <= |s|
    ensures NoNewline(s[..e])
    ensures e < |s| ==> s[e] == '\n'
  {
    if s == [] then 0
    else if s[0] == '\n' then 0
    else 1 + LineEnd(s[1..])
  }

  /** The lines of s, without their terminators. */
  function Lines(s: string): (ls: seq<string>)
    ensures |ls| >= 1
    ensures forall i :: 0 <= i < |ls| ==> NoNewline(ls[i])
    decreases |s|
  {
    var e := LineEnd(s);
    if e == |s| then [s] else [s[..e]] + Lines(s[e + 1..])
  }

  /** Round trip: joining the lines of s gives back s. */
  lemma {:induction false} JoinOfLines(s: string)
    ensures Join(Lines(s)) == s
    decreases |s|
  {
    var e := LineEnd(s);
    if e < |s| {
      var x, y := s[..e], s[e + 1..];
      assert s == x + "\n" + y;
      LinesCons(x, y);
      JoinOfLines(y);
      JoinCons(x, Lines(y));
    }
  }

  /** The lines ls, separated by '\n'. */
  function Join(ls: seq<string>): string {
    if |ls| == 0 then ""
    else if |ls| == 1 then ls[0]
    else ls[0] + "\n" + Join(ls[1..])
  }

  function Last(ls: seq<string>): string
    requires |ls| >= 1
  {
    ls[|ls| - 1]
  }

  /** All lines but the last: the lines that carry a terminator. */
  function Terminated(ls: seq<string>): seq<string>
    requires |ls| >= 1
  {
    ls[..|ls| - 1]
  }

  /** Joining one more line in front. */
  lemma JoinCons(x: string, zs: seq<string>)
    requires |zs| >= 1
    ensures Join([x] + zs) == x + "\n" + Join(zs)
  {
    assert ([x] + zs)[1..] == zs;
  }

  /** The first line of x + "\n" + y ends right before the inserted terminator. */
  lemma LineEndAtTerminator(x: string, y: string)
    requires NoNewline(x)
    ensures LineEnd(x + "\n" + y) == |x|
  {
    var s := x + "\n" + y;
    assert s[|x|] == '\n';
    assert forall i :: 0 <= i < |x| ==> s[i] == x[i];
  }

  /** A string without terminator is a single line. */
  lemma LinesOfLine(x: string)
    requires NoNewline(x)
    ensures Lines(x) == [x]
  {
  }

  /** Splitting at a terminator after a single line. */
  lemma LinesCons(x: string, y: string)
    requires NoNewline(x)
    ensures Lines(x + "\n" + y) == [x] + Lines(y)
  {
    var s := x + "\n" + y;
    LineEndAtTerminator(x, y);
    assert s[..|x|] == x;
    assert s[|x| + 1..] == y;
  }

  /** Round trip: the lines of a join are the joined lines. */
  lemma {:induction false} LinesOfJoin(ls: seq<string>)
    requires |ls| >= 1
    requires forall i :: 0 <= i < |ls| ==> NoNewline(ls[i])
    ensures Lines(Join(ls)) == ls
    decreases |ls|
  {
    if |ls| == 1 {
      LinesOfLine(ls[0]);
    } else {
      LinesCons(ls[0], Join(ls[1..]));
      LinesOfJoin(ls[1..]);
      assert [ls[0]] + ls[1..] == ls;
    }
  }

  /**
   * Appending text and a terminator: the buffer's last (unterminated) line
   * gets the text, and a new empty last line starts; no other line changes.
   */
  lemma {:induction false} LinesOfAppend(s: string, t: string)
    requires NoNewline(t)
    ensures var ls := Lines(s);
      Lines(s + t + "\n") == Terminated(ls) + [Last(ls) + t, ""]
    decreases |s|
  {
    var e := LineEnd(s);
    if e == |s| {
      LinesOfLine(s);
      LastLineAppend(s, t);
    } else {
      var x, y := s[..e], s[e + 1..];
      assert s == x + "\n" + y;
      LinesOfAppend(y, t);
      AppendAfterFirstLine(x, y, t);
    }
  }

  lemma AppendAfterFirstLine(x: string, y: string, t: string)
    requires NoNewline(x)
    requires var ly := Lines(y);
      Lines(y + t + "\n") == Terminated(ly) + [Last(ly) + t, ""]
    ensures var ls := Lines(x + "\n" + y);
      Lines(x + "\n" + y + t + "\n") == Terminated(ls) + [Last(ls) + t, ""]
  {
    var ly := Lines(y);
    var ls := Lines(x + "\n" + y);
    var a := Lines(y + t + "\n");
    var u := x + "\n" + y + t + "\n";
    assert ls == [x] + ly by {
      LinesCons(x, y);
    }
    assert Lines(u) == [x] + a by {
      RegroupAfterLine(x, y, t);
      LinesCons(x, y + t + "\n");
    }
    calc {
      Lines(u);
      [x] + a;
      [x] + (Terminated(ly) + [Last(ly) + t, ""]);
      ([x] + Terminated(ly)) + [Last(ly) + t, ""];
      { assert Terminated(ls) == [x] + Terminated(ly); }
      Terminated(ls) + [Last(ls) + t, ""];
    }
  }

  /** Concatenation regrouped after the first line, proved apart from the lines it is used with. */
  lemma RegroupAfterLine(x: string, y: string, t: string)
    ensures x + "\n" + y + t + "\n" == x + "\n" + (y + t + "\n")
  {
  }

  /** Appending to a single line. */
  lemma LastLineAppend(s: string, t: string)
    requires NoNewline(s) && NoNewline(t)
    ensures Lines(s + t + "\n") == [s + t, ""]
  {
    assert NoNewline(s + t) by {
      assert forall i :: 0 <= i < |s + t| ==> (s + t)[i] == if i < |s| then s[i] else t[i - |s|];
    }
    LinesCons(s + t, "");
    LinesOfLine("");
    assert s + t + "\n" == (s + t) + "\n" + "";
  }
}
