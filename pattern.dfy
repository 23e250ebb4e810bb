/**
 * The line-anchored setter pattern the writer uses to find the lines of a
 * key: `^(export\h)?\h*KEY=.*` in multi-line mode. Within one line (the
 * pattern's `.` never crosses a '\n') it matches when the line starts, after
 * an optional "export" plus one horizontal space and then any run of
 * horizontal spaces, with KEY followed by '='.
 */
module SetterPattern {
  import opened DotenvTypes

  /** PCRE's \h, restricted to the horizontal spaces of ASCII text. */
  predicate IsHSpace(c: char) {
    c == ' ' || c == '\t'
  }

  predicate AllHSpace(s: string) {
    forall i :: 0 <= i < |s| ==> IsHSpace(s[i])
  }

  /** The end of the run of horizontal spaces that starts at p (what `\h*` consumes). */
  function HSpaceRun(s: string, p: nat): (r: nat)
    requires p <= |s|
    ensures p <= r <= |s|
    ensures AllHSpace(s[p..r])
    ensures r < |s| ==> !IsHSpace(s[r])
    decreases |s| - p
  {
    if p < |s| && IsHSpace(s[p]) then
      var r := HSpaceRun(s, p + 1);
      assert s[p..r] == [s[p]] + s[p + 1..r];
      r
    else p
  }

  /** The optional group `(export\h)`. */
  predicate HasExportPrefix(line: string) {
    |line| >= 7 && line[..6] == "export" && IsHSpace(line[6])
  }

  /** KEY followed by '=' starts at position i of the line. */
  predicate KeyAt(line: string, i: nat, key: string) {
    i + |key| < |line| && line[i..i + |key|] == key && line[i + |key|] == '='
  }

  /**
   * The line (free of '\n') is a setter line of key for the writer's
   * pattern: `\h*` takes every horizontal space, then KEY= must follow.
   * Every line it accepts the regular expression accepts.
   */
  predicate IsSetterLine(line: string, key: string)
    ensures IsSetterLine(line, key) ==> PatternMatches(line, key)
  {
    || KeyAt(line, HSpaceRun(line, 0), key)
    || (HasExportPrefix(line) && KeyAt(line, HSpaceRun(line, 7), key))
  }

  /**
   * What the regular expression accepts, with its backtracking spelled out:
   * some choice of the optional group (nothing, or the 7 characters of
   * "export" and one horizontal space) and some run of horizontal spaces
   * after which KEY and '=' follow.
   */
  ghost predicate PatternMatches(line: string, key: string)
    ensures PatternMatches(line, key) && IsKeyChars(key) ==> |line| > 0 && line[0] != '#'
  {
    exists p: nat, i: nat ::
      && (p == 0 || (p == 7 && HasExportPrefix(line)))
      && p <= i <= |line|
      && AllHSpace(line[p..i])
      && KeyAt(line, i, key)
  }

  /**
   * For keys of key characters the greedy reading (take every horizontal
   * space, then look for KEY=) accepts exactly the lines the pattern
   * accepts, in both directions.
   */
  lemma SetterLineIsPattern(line: string, key: string)
    requires IsKeyChars(key)
    ensures IsSetterLine(line, key) <==> PatternMatches(line, key)
  {
    if IsSetterLine(line, key) {
      if KeyAt(line, HSpaceRun(line, 0), key) {
        var i := HSpaceRun(line, 0);
        assert 0 <= i <= |line| && AllHSpace(line[0..i]) && KeyAt(line, i, key);
      } else {
        var i := HSpaceRun(line, 7);
        assert 7 <= i <= |line| && AllHSpace(line[7..i]) && KeyAt(line, i, key);
      }
    }
    if PatternMatches(line, key) {
      var p: nat, i: nat :|
        && (p == 0 || (p == 7 && HasExportPrefix(line)))
        && p <= i <= |line|
        && AllHSpace(line[p..i])
        && KeyAt(line, i, key);
      RunIsDetermined(line, p, i, key);
    }
  }

  /** A run of spaces followed by KEY= ends where HSpaceRun says. */
  lemma RunIsDetermined(line: string, p: nat, i: nat, key: string)
    requires IsKeyChars(key)
    requires p <= i <= |line|
    requires AllHSpace(line[p..i])
    requires KeyAt(line, i, key)
    ensures HSpaceRun(line, p) == i
  {
    // line[i] is the first character of KEY or '=', neither a space
    assert !IsHSpace(line[i]) by {
      if |key| > 0 {
        assert line[i..i + |key|][0] == key[0];
      }
    }
    RunEndsAt(line, p, i);
  }

  /** A run of spaces that stops at a non-space is the run HSpaceRun finds. */
  lemma {:induction false} RunEndsAt(line: string, p: nat, i: nat)
    requires p <= i < |line|
    requires AllHSpace(line[p..i])
    requires !IsHSpace(line[i])
    ensures HSpaceRun(line, p) == i
    decreases i - p
  {
    if p < i {
      assert line[p..i][0] == line[p];
      assert line[p + 1..i] == line[p..i][1..];
      RunEndsAt(line, p + 1, i);
    }
  }

  /**
   * A line is the setter line of at most one key: the pattern is exact on
   * the key, so the lines of XKEY or KEY2 are not lines of KEY.
   */
  lemma SetterLineKeyIsUnique(line: string, k1: string, k2: string)
    requires IsKeyChars(k1) && IsKeyChars(k2)
    requires IsSetterLine(line, k1) && IsSetterLine(line, k2)
    ensures k1 == k2
  {
    var i0 := HSpaceRun(line, 0);
    if HasExportPrefix(line) {
      assert i0 == 0 by {
        assert line[..6][0] == line[0] == 'e';
      }
      var i7 := HSpaceRun(line, 7);
      if KeyAt(line, i0, k1) {
        NotBothPaths(line, k1);
      }
      if KeyAt(line, i0, k2) {
        NotBothPaths(line, k2);
      }
      KeyAtIsUnique(line, i7, k1, k2);
    } else {
      KeyAtIsUnique(line, i0, k1, k2);
    }
  }

  /** Two keys cannot both be followed by '=' at the same position. */
  lemma KeyAtIsUnique(line: string, i: nat, k1: string, k2: string)
    requires IsKeyChars(k1) && IsKeyChars(k2)
    requires KeyAt(line, i, k1) && KeyAt(line, i, k2)
    ensures k1 == k2
  {
    assert |k1| == |k2|;
    assert k1 == line[i..i + |k1|] == k2;
  }

  /** On an "export " line, no key starts at the line start. */
  lemma NotBothPaths(line: string, k: string)
    requires IsKeyChars(k)
    requires HasExportPrefix(line)
    ensures !KeyAt(line, 0, k)
  {
    assert forall j :: 0 <= j < 6 ==> line[j] == line[..6][j];
  }

  /** The pattern on sample lines: horizontal spaces and "export " may lead. */
  lemma MatchingAccepts()
    ensures IsSetterLine("KEY=1", "KEY")
    ensures IsSetterLine("export \t KEY=", "KEY")
    ensures IsSetterLine("\tKEY=a=b", "KEY")
  {
    var plain, exported, indented := "KEY=1", "export \t KEY=", "\tKEY=a=b";
    RunEndsAt(plain, 0, 0);
    assert plain[0..3] == "KEY";
    RunEndsAt(exported, 7, 9);
    assert exported[..6] == "export" && exported[9..12] == "KEY";
    RunEndsAt(indented, 0, 1);
    assert indented[1..4] == "KEY";
  }

  /** The pattern on sample lines: exact on the key. */
  lemma MatchingIsExact()
    ensures !IsSetterLine("XKEY=1", "KEY")
    ensures !IsSetterLine("KEY2=1", "KEY")
    ensures !IsSetterLine("KEY =1", "KEY")
  {
  }

  /** The pattern on sample lines: anchored at the line start. */
  lemma MatchingIsAnchored()
    ensures !IsSetterLine("  export KEY=1", "KEY")
    ensures !IsSetterLine("# KEY=1", "KEY")
  {
  }
}
