/** What comes back of a shipped file: the patch git writes for an added file, the newline translation
    under which it is captured and stored, and the two readers. */
module PatchRoundTrip {
  import opened Common
  import opened PatchReader

  // ----- the stored patch -----

  function Lines(lines: seq<string>): string {
    if lines == [] then "" else lines[0] + "\n" + Lines(lines[1..])
  }

  function Plus(lines: seq<string>): seq<string> {
    if lines == [] then [] else ["+" + lines[0]] + Plus(lines[1..])
  }

  function FileLines(path: string, mode: string, hash: string): seq<string> {
    ["diff --git a/" + path + (" b/" + path), "new file mode " + mode, "index 0000000.." + hash]
  }

  const NO_OLD_FILE := "--- /dev/null"

  function HunkLine(span: string): string {
    "@@ -0,0 +1" + span + " @@"
  }

  function HunkLines(path: string, span: string): seq<string> {
    [NO_OLD_FILE, "+++ b/" + path, HunkLine(span)]
  }

  /** The lines above an added file's content; the hunk lines only when there is content. */
  function Header(path: string, mode: string, hash: string, span: string, empty: bool): seq<string> {
    if empty then FileLines(path, mode, hash) else FileLines(path, mode, hash) + HunkLines(path, span)
  }

  const NO_FINAL_NEWLINE := "\\ No newline at end of file"

  /** git's patch for an added text file whose line-feed-separated lines are `lines`. */
  function GitPatch(header: seq<string>, lines: seq<string>, finalNewline: bool): string {
    Lines(header + Plus(lines) + if finalNewline then [] else [NO_FINAL_NEWLINE])
  }

  /** Text-mode capture of git's output: CR LF and a lone CR both become LF. */
  function Captured(s: string): string
    decreases |s|
  {
    if s == [] then ""
    else if AtCrLf(s) then "\n" + Captured(s[2..])
    else if s[0] == '\r' then "\n" + Captured(s[1..])
    else [s[0]] + Captured(s[1..])
  }

  predicate NoBreaks(s: string) {
    '\n' !in s && !HasOther(s)
  }

  predicate AllUnbroken(lines: seq<string>) {
    lines == [] || (NoBreaks(lines[0]) && AllUnbroken(lines[1..]))
  }

  predicate NoCrLf(s: string) {
    '\n' !in s && '\r' !in s
  }

  predicate AllNoCrLf(lines: seq<string>) {
    lines == [] || (NoCrLf(lines[0]) && AllNoCrLf(lines[1..]))
  }

  lemma {:induction false} UnbrokenConcat(a: seq<string>, b: seq<string>)
    requires AllUnbroken(a) && AllUnbroken(b)
    ensures AllUnbroken(a + b)
  {
    if a == [] {
      assert a + b == b;
    } else {
      assert (a + b)[1..] == a[1..] + b;
      UnbrokenConcat(a[1..], b);
    }
  }

  lemma {:induction false} NoCrLfConcat(a: seq<string>, b: seq<string>)
    requires AllNoCrLf(a) && AllNoCrLf(b)
    ensures AllNoCrLf(a + b)
  {
    if a == [] {
      assert a + b == b;
    } else {
      assert (a + b)[1..] == a[1..] + b;
      NoCrLfConcat(a[1..], b);
    }
  }

  lemma {:induction false} PlusUnbroken(lines: seq<string>)
    requires AllUnbroken(lines)
    ensures AllUnbroken(Plus(lines))
  {
    if lines != [] {
      PlusUnbroken(lines[1..]);
      assert ("+" + lines[0])[1..] == lines[0];
    }
  }

  lemma {:induction false} PlusNoCrLf(lines: seq<string>)
    requires AllNoCrLf(lines)
    ensures AllNoCrLf(Plus(lines))
  {
    if lines != [] {
      PlusNoCrLf(lines[1..]);
    }
  }

  lemma {:induction false} UnbrokenHasNoCrLf(lines: seq<string>)
    requires AllUnbroken(lines)
    ensures AllNoCrLf(lines)
  {
    if lines != [] {
      UnbrokenHasNoCrLf(lines[1..]);
      NoBreaksHasNoCr(lines[0]);
    }
  }

  lemma {:induction false} NoBreaksHasNoCr(s: string)
    requires NoBreaks(s)
    ensures '\r' !in s
  {
    if '\r' in s {
      CrIsOther(s);
    }
  }

  // ----- cutting what was joined -----

  lemma {:induction false} PythonCutsLine(line: string, rest: string)
    requires NoBreaks(line)
    ensures PythonPieces(line + "\n" + rest) == [line] + PythonPieces(rest)
  {
    var s := line + "\n" + rest;
    if line == [] {
      assert s[1..] == rest;
    } else {
      assert s[0] == line[0] && s[1..] == line[1..] + "\n" + rest;
      PythonCutsLine(line[1..], rest);
      assert [line[0]] + line[1..] == line;
    }
  }

  lemma {:induction false} ScriptCutsLine(line: string, rest: string)
    requires NoCrLf(line)
    ensures ScriptPieces(line + "\n" + rest) == [line] + ScriptPieces(rest)
  {
    var s := line + "\n" + rest;
    if line == [] {
      assert s[1..] == rest;
    } else {
      assert s[0] == line[0] && s[1..] == line[1..] + "\n" + rest;
      ScriptCutsLine(line[1..], rest);
      assert [line[0]] + line[1..] == line;
    }
  }

  lemma {:induction false} PythonCutsLines(lines: seq<string>)
    requires AllUnbroken(lines)
    ensures PythonPieces(Lines(lines)) == lines + [""]
  {
    if lines != [] {
      PythonCutsLine(lines[0], Lines(lines[1..]));
      PythonCutsLines(lines[1..]);
    }
  }

  lemma {:induction false} ScriptCutsLines(lines: seq<string>)
    requires AllNoCrLf(lines)
    ensures ScriptPieces(Lines(lines)) == lines + [""]
  {
    if lines != [] {
      ScriptCutsLine(lines[0], Lines(lines[1..]));
      ScriptCutsLines(lines[1..]);
    }
  }

  /** The content lines that survive: those not starting with `++`, which the patch's own `+` turns
      into what looks like a header. */
  function Surviving(lines: seq<string>): seq<string> {
    if lines == [] then []
    else if StartsWith(lines[0], "++") then Surviving(lines[1..])
    else [lines[0]] + Surviving(lines[1..])
  }

  lemma {:induction false} ContentOfPlus(lines: seq<string>)
    ensures Content(Plus(lines)) == Surviving(lines)
  {
    if lines != [] {
      ContentOfPlus(lines[1..]);
      var p := "+" + lines[0];
      assert p[1..] == lines[0];
      assert StartsWith(p, "+++") <==> StartsWith(lines[0], "++") by {
        assert |p| >= 3 ==> p[1] == lines[0][0] && p[2] == lines[0][1];
      }
    }
  }

  lemma {:induction false} ContentSkips(line: string, lines: seq<string>)
    requires !IsContent(line)
    ensures Content([line] + lines) == Content(lines)
  {
    assert ([line] + lines)[1..] == lines;
  }

  predicate Silent(header: seq<string>) {
    Content(header) == []
  }

  lemma {:induction false} ContentOfPatchLines(header: seq<string>, lines: seq<string>, tail: seq<string>)
    requires Silent(header) && (tail == [] || tail == [NO_FINAL_NEWLINE])
    ensures Content(header + Plus(lines) + tail + [""]) == Surviving(lines)
  {
    ContentSkips("", []);
    assert NO_FINAL_NEWLINE[0] == '\\';
    ContentSkips(NO_FINAL_NEWLINE, []);
    ContentConcat(header + Plus(lines) + tail, [""]);
    ContentConcat(header + Plus(lines), tail);
    ContentConcat(header, Plus(lines));
    ContentOfPlus(lines);
  }

  lemma {:induction false} ThreeSilent(a: string, b: string, c: string)
    requires !IsContent(a) && !IsContent(b) && !IsContent(c)
    ensures Silent([a, b, c])
  {
    ContentSkips(c, []);
    ContentSkips(b, [c]);
    ContentSkips(a, [b, c]);
    assert [a] + ([b] + [c]) == [a, b, c];
  }

  lemma {:induction false} HeaderIsSilent(path: string, mode: string, hash: string, span: string, empty: bool)
    ensures Silent(Header(path, mode, hash, span, empty))
  {
    var file, hunk := FileLines(path, mode, hash), HunkLines(path, span);
    assert file[0][0] == 'd' && file[1][0] == 'n' && file[2][0] == 'i';
    ThreeSilent(file[0], file[1], file[2]);
    assert hunk[0][0] == '-' && hunk[1][..3] == "+++" && hunk[2][0] == '@';
    ThreeSilent(hunk[0], hunk[1], hunk[2]);
    assert file == [file[0], file[1], file[2]] && hunk == [hunk[0], hunk[1], hunk[2]];
    ContentConcat(file, hunk);
  }

  // ----- capture -----

  lemma {:induction false} CaptureHasNoCr(s: string)
    ensures '\r' !in Captured(s)
    decreases |s|
  {
    if s != [] {
      CaptureHasNoCr(if AtCrLf(s) then s[2..] else s[1..]);
    }
  }

  lemma {:induction false} CaptureKeeps(s: string)
    requires '\r' !in s
    ensures Captured(s) == s
  {
    if s != [] {
      CaptureKeeps(s[1..]);
      assert s == [s[0]] + s[1..];
    }
  }

  lemma {:induction false} LinesHaveNoCr(lines: seq<string>)
    requires AllNoCrLf(lines)
    ensures '\r' !in Lines(lines)
  {
    if lines != [] {
      LinesHaveNoCr(lines[1..]);
    }
  }

  lemma {:induction false} CrIsOther(s: string)
    requires '\r' in s
    ensures HasOther(s)
  {
    if s[0] != '\r' {
      CrIsOther(s[1..]);
    }
  }

  // ----- how much comes back -----

  function Size(lines: seq<string>): nat {
    if lines == [] then 0 else |lines[0]| + 1 + Size(lines[1..])
  }

  lemma {:induction false} JoinSize(lines: seq<string>)
    requires lines != []
    ensures |JoinLf(lines)| == Size(lines) - 1
  {
    if |lines| > 1 {
      JoinSize(lines[1..]);
    } else {
      assert Size(lines[1..]) == 0;
    }
  }

  predicate LosesLine(lines: seq<string>) {
    exists i | 0 <= i < |lines| :: StartsWith(lines[i], "++")
  }

  lemma {:induction false} SurvivingSize(lines: seq<string>)
    ensures LosesLine(lines) ==> Size(Surviving(lines)) + 3 <= Size(lines)
    ensures !LosesLine(lines) ==> Surviving(lines) == lines
    ensures Size(Surviving(lines)) <= Size(lines)
  {
    if lines != [] {
      SurvivingSize(lines[1..]);
      assert forall i | 0 <= i < |lines| - 1 :: lines[1..][i] == lines[i + 1];
      if LosesLine(lines) && !StartsWith(lines[0], "++") {
        var i :| 0 <= i < |lines| && StartsWith(lines[i], "++");
        assert lines[1..][i - 1] == lines[i];
      }
    }
  }

  /** What survives spells the content exactly when no line was lost. */
  lemma {:induction false} SurvivingIsWholeIff(lines: seq<string>)
    ensures JoinLf(Surviving(lines)) == JoinLf(lines) <==> !LosesLine(lines)
  {
    SurvivingSize(lines);
    if LosesLine(lines) {
      JoinSize(lines);
      if Surviving(lines) != [] {
        JoinSize(Surviving(lines));
      }
    }
  }

  // ----- the round trip -----

  /** Nothing git puts into the header holds a line break; of a path that need not be so. */
  predicate PlainHeader(path: string, mode: string, hash: string, span: string) {
    NoBreaks(path) && NoBreaks(mode) && NoBreaks(hash) && NoBreaks(span)
  }

  predicate Printable(s: string) {
    forall c | c in s :: ' ' <= c <= '~'
  }

  lemma {:induction false} Prefixed(before: string, s: string)
    requires Printable(before) && NoBreaks(s)
    ensures NoBreaks(before + s)
  {
    AsciiHasNoBreaks(before);
    HasOtherConcat(before, s);
  }

  lemma {:induction false} Framed(before: string, s: string, after: string)
    requires Printable(before) && NoBreaks(s) && NoBreaks(after)
    ensures NoBreaks(before + s + after)
  {
    Prefixed(before, s);
    HasOtherConcat(before + s, after);
  }

  lemma {:induction false} Enclosed(before: string, s: string, after: string)
    requires Printable(before) && NoBreaks(s) && Printable(after)
    ensures NoBreaks(before + s + after)
  {
    AsciiHasNoBreaks(after);
    Framed(before, s, after);
  }

  lemma {:induction false} ThreeUnbroken(a: string, b: string, c: string)
    requires NoBreaks(a) && NoBreaks(b) && NoBreaks(c)
    ensures AllUnbroken([a, b, c])
  {
    assert [a, b, c][1..] == [b, c] && [b, c][1..] == [c] && [c][1..] == [];
    assert AllUnbroken([c]);
    assert AllUnbroken([b, c]);
  }

  lemma {:induction false} FileLinesUnbroken(path: string, mode: string, hash: string)
    requires NoBreaks(path) && NoBreaks(mode) && NoBreaks(hash)
    ensures AllUnbroken(FileLines(path, mode, hash))
  {
    Prefixed(" b/", path);
    Framed("diff --git a/", path, " b/" + path);
    Prefixed("new file mode ", mode);
    Prefixed("index 0000000..", hash);
    ThreeUnbroken("diff --git a/" + path + (" b/" + path), "new file mode " + mode, "index 0000000.." + hash);
  }

  lemma {:induction false} HunkLineUnbroken(span: string)
    requires NoBreaks(span)
    ensures NoBreaks(HunkLine(span))
  {
    Enclosed("@@ -0,0 +1", span, " @@");
  }

  lemma {:induction false} NoOldFileUnbroken()
    ensures NoBreaks(NO_OLD_FILE)
  {
    AsciiHasNoBreaks(NO_OLD_FILE);
  }

  lemma {:induction false} HunkLinesUnbroken(path: string, span: string)
    requires NoBreaks(path) && NoBreaks(span)
    ensures AllUnbroken(HunkLines(path, span))
  {
    NoOldFileUnbroken();
    HunkLineUnbroken(span);
    Prefixed("+++ b/", path);
    ThreeUnbroken(NO_OLD_FILE, "+++ b/" + path, HunkLine(span));
  }

  lemma {:induction false} HeaderHasNoBreaks(path: string, mode: string, hash: string, span: string, empty: bool)
    requires PlainHeader(path, mode, hash, span)
    ensures AllUnbroken(Header(path, mode, hash, span, empty))
  {
    FileLinesUnbroken(path, mode, hash);
    HunkLinesUnbroken(path, span);
    UnbrokenConcat(FileLines(path, mode, hash), HunkLines(path, span));
  }

  lemma {:induction false} AsciiHasNoBreaks(s: string)
    requires Printable(s)
    ensures NoBreaks(s)
  {
    if s != [] {
      assert s[0] in s && forall c | c in s[1..] :: c in s;
      AsciiHasNoBreaks(s[1..]);
    }
  }

  /** No reader of a captured patch gives back a character the capture or its own cutting removed. */
  lemma {:induction false} PythonBodyHasNoOther(patch: string)
    ensures !HasOther(PythonBody(patch))
  {
    PythonCutsFiner(patch);
    LastEmptyPieceIsNothing(patch);
    var pieces := CutAll(ScriptPieces(patch));
    PiecesHaveNoOther(ScriptPieces(patch));
    forall l | l in Content(pieces) ensures !HasOther(l) {
      ContentIsTail(pieces, l);
      var i :| 0 <= i < |pieces| && IsContent(pieces[i]) && pieces[i][1..] == l;
      assert pieces[i] in pieces;
    }
    JoinHasOther(Content(pieces));
  }

  lemma {:induction false} ScriptBodyHasNoCr(patch: string)
    requires '\r' !in patch
    ensures '\r' !in ScriptBody(patch)
  {
    PiecesHaveNoCr(patch);
    var pieces := ScriptPieces(patch);
    forall l | l in Content(pieces) ensures '\r' !in l {
      ContentIsTail(pieces, l);
      var i :| 0 <= i < |pieces| && IsContent(pieces[i]) && pieces[i][1..] == l;
      assert pieces[i] in pieces;
    }
    JoinHasNoCr(Content(pieces));
  }

  lemma {:induction false} PiecesHaveNoCr(s: string)
    requires '\r' !in s
    ensures forall l | l in ScriptPieces(s) :: '\r' !in l
  {
    if s != [] {
      PiecesHaveNoCr(s[1..]);
      assert ScriptPieces(s[1..])[0] in ScriptPieces(s[1..]);
    }
  }

  lemma {:induction false} JoinHasNoCr(lines: seq<string>)
    ensures '\r' !in JoinLf(lines) <==> forall l | l in lines :: '\r' !in l
  {
    if lines != [] {
      assert forall l | l in lines :: l == lines[0] || l in lines[1..];
      assert lines[0] in lines;
    }
    if |lines| > 1 {
      JoinHasNoCr(lines[1..]);
    }
  }

  lemma {:induction false} CaptureKeepsPatch(lines: seq<string>)
    requires AllNoCrLf(lines)
    ensures Captured(Lines(lines)) == Lines(lines)
  {
    LinesHaveNoCr(lines);
    CaptureKeeps(Lines(lines));
  }

  /** The Python reader of a stored patch: the lines that survive, when line feeds are the only
      breaks in the content. */
  lemma {:induction false} PythonReadsSurviving(header: seq<string>, lines: seq<string>, finalNewline: bool)
    requires Silent(header) && AllUnbroken(header) && AllUnbroken(lines)
    ensures PythonBody(Captured(GitPatch(header, lines, finalNewline))) == JoinLf(Surviving(lines))
  {
    var tail := if finalNewline then [] else [NO_FINAL_NEWLINE];
    var all := header + Plus(lines) + tail;
    AsciiHasNoBreaks(NO_FINAL_NEWLINE);
    PlusUnbroken(lines);
    UnbrokenConcat(header, Plus(lines));
    UnbrokenConcat(header + Plus(lines), tail);
    UnbrokenHasNoCrLf(all);
    CaptureKeepsPatch(all);
    PythonCutsLines(all);
    LastEmptyPieceIsNothing(Lines(all));
    ContentOfPatchLines(header, lines, tail);
  }

  lemma {:induction false} ScriptReadsSurviving(header: seq<string>, lines: seq<string>, finalNewline: bool)
    requires Silent(header) && AllUnbroken(header) && AllNoCrLf(lines)
    ensures ScriptBody(Captured(GitPatch(header, lines, finalNewline))) == JoinLf(Surviving(lines))
  {
    var tail := if finalNewline then [] else [NO_FINAL_NEWLINE];
    var all := header + Plus(lines) + tail;
    UnbrokenHasNoCrLf(header);
    PlusNoCrLf(lines);
    NoCrLfConcat(header, Plus(lines));
    NoCrLfConcat(header + Plus(lines), tail);
    CaptureKeepsPatch(all);
    ScriptCutsLines(all);
    ContentOfPatchLines(header, lines, tail);
  }

  lemma {:induction false} UnbrokenIff(lines: seq<string>)
    requires forall l | l in lines :: '\n' !in l
    ensures AllUnbroken(lines) <==> OnlyLf(lines)
    ensures AllNoCrLf(lines) <==> CrFree(lines)
  {
    if lines != [] {
      assert forall l | l in lines :: l == lines[0] || l in lines[1..];
      assert lines[0] in lines;
      UnbrokenIff(lines[1..]);
    }
  }

  predicate CrFree(lines: seq<string>) {
    forall l | l in lines :: '\r' !in l
  }

  predicate OnlyLf(lines: seq<string>) {
    forall l | l in lines :: !HasOther(l)
  }

  lemma {:induction false} PythonReadsWholeIff(header: seq<string>, lines: seq<string>, finalNewline: bool)
    requires Silent(header) && AllUnbroken(header) && forall l | l in lines :: '\n' !in l
    ensures PythonBody(Captured(GitPatch(header, lines, finalNewline))) == JoinLf(lines) <==> !LosesLine(lines) && OnlyLf(lines)
  {
    UnbrokenIff(lines);
    if OnlyLf(lines) {
      PythonReadsSurviving(header, lines, finalNewline);
      SurvivingIsWholeIff(lines);
    } else {
      JoinHasOther(lines);
      PythonBodyHasNoOther(Captured(GitPatch(header, lines, finalNewline)));
    }
  }

  lemma {:induction false} ScriptReadsWholeIff(header: seq<string>, lines: seq<string>, finalNewline: bool)
    requires Silent(header) && AllUnbroken(header) && forall l | l in lines :: '\n' !in l
    ensures ScriptBody(Captured(GitPatch(header, lines, finalNewline))) == JoinLf(lines) <==> !LosesLine(lines) && CrFree(lines)
  {
    UnbrokenIff(lines);
    if CrFree(lines) {
      ScriptReadsSurviving(header, lines, finalNewline);
      SurvivingIsWholeIff(lines);
    } else {
      JoinHasNoCr(lines);
      CaptureHasNoCr(GitPatch(header, lines, finalNewline));
      ScriptBodyHasNoCr(Captured(GitPatch(header, lines, finalNewline)));
    }
  }

  /** What is stored for an added file. */
  function Stored(path: string, mode: string, hash: string, span: string, lines: seq<string>, finalNewline: bool): seq<Entry> {
    [Entry(Some(path), Some("added"), Some(Captured(GitPatch(Header(path, mode, hash, span, lines == []), lines, finalNewline))))]
  }

  /** The Python reader gives a shipped file back, without its final newline, exactly when no line
      starts with `++` and the file holds no line break but line feeds. */
  lemma {:induction false} PythonRoundTripIff(path: string, mode: string, hash: string, span: string, lines: seq<string>, finalNewline: bool)
    requires PlainHeader(path, mode, hash, span) && forall l | l in lines :: '\n' !in l
    ensures
      AddedFilePython(Stored(path, mode, hash, span, lines, finalNewline), path) == Some(JoinLf(lines)) <==>
      !LosesLine(lines) && OnlyLf(lines)
  {
    HeaderIsSilent(path, mode, hash, span, lines == []);
    HeaderHasNoBreaks(path, mode, hash, span, lines == []);
    PythonReadsWholeIff(Header(path, mode, hash, span, lines == []), lines, finalNewline);
    FirstEntryDecides(Stored(path, mode, hash, span, lines, finalNewline), path, 0);
  }

  /** The TypeScript reader does exactly when no line starts with `++` and the file holds no carriage
      return: what Python cuts at besides, it leaves alone. */
  lemma {:induction false} ScriptRoundTripIff(path: string, mode: string, hash: string, span: string, lines: seq<string>, finalNewline: bool)
    requires PlainHeader(path, mode, hash, span) && forall l | l in lines :: '\n' !in l
    ensures
      AddedFileScript(Stored(path, mode, hash, span, lines, finalNewline), path) == Some(JoinLf(lines)) <==>
      !LosesLine(lines) && CrFree(lines)
  {
    HeaderIsSilent(path, mode, hash, span, lines == []);
    HeaderHasNoBreaks(path, mode, hash, span, lines == []);
    ScriptReadsWholeIff(Header(path, mode, hash, span, lines == []), lines, finalNewline);
    FirstEntryDecides(Stored(path, mode, hash, span, lines, finalNewline), path, 0);
  }

  // ----- inputs on which the readers fail -----

  lemma {:induction false} OneLineLost(path: string, mode: string, hash: string, span: string, line: string)
    requires PlainHeader(path, mode, hash, span) && NoBreaks(line) && StartsWith(line, "++")
    ensures
      var stored := Stored(path, mode, hash, span, [line], true);
      AddedFilePython(stored, path) == AddedFileScript(stored, path) == Some("")
  {
    var header := Header(path, mode, hash, span, false);
    HeaderIsSilent(path, mode, hash, span, false);
    HeaderHasNoBreaks(path, mode, hash, span, false);
    assert [line][1..] == [];
    UnbrokenHasNoCrLf([line]);
    assert Surviving([line]) == [];
    PythonReadsSurviving(header, [line], true);
    ScriptReadsSurviving(header, [line], true);
    FirstEntryDecides(Stored(path, mode, hash, span, [line], true), path, 0);
  }

  /** A file that is lost whole: its one line begins with `++`, and both readers return nothing. */
  lemma {:induction false} DoublePlusIsLost()
    ensures
      var stored := Stored("f", "100644", "2b2b", "", ["++x"], true);
      AddedFilePython(stored, "f") == AddedFileScript(stored, "f") == Some("")
  {
    AsciiHasNoBreaks("f");
    AsciiHasNoBreaks("100644");
    AsciiHasNoBreaks("2b2b");
    AsciiHasNoBreaks("");
    AsciiHasNoBreaks("++x");
    OneLineLost("f", "100644", "2b2b", "", "++x");
  }

  lemma {:induction false} PythonCutsAt(line: string, c: char, rest: string)
    requires NoBreaks(line) && OtherBreak(c) && c != '\r'
    ensures PythonPieces(line + [c] + rest) == [line] + PythonPieces(rest)
  {
    var s := line + [c] + rest;
    if line == [] {
      assert s[1..] == rest;
    } else {
      assert s[0] == line[0] && s[1..] == line[1..] + [c] + rest;
      PythonCutsAt(line[1..], c, rest);
      assert [line[0]] + line[1..] == line;
    }
  }

  lemma {:induction false} ScriptKeepsAll(c: char, a: string, b: string)
    requires OtherBreak(c) && c != '\r' && NoBreaks(a) && NoBreaks(b) && !StartsWith(a + [c] + b, "++")
    ensures ScriptBody("+" + a + [c] + b + "\n") == a + [c] + b
  {
    var line := "+" + a + [c] + b;
    assert line[1..] == a + [c] + b && line == "+" + (a + [c] + b);
    NoBreaksHasNoCr(a);
    NoBreaksHasNoCr(b);
    assert line + "\n" == line + "\n" + "";
    ScriptCutsLine(line, "");
    TwoPieces(line);
    PlusLine(a + [c] + b);
  }

  lemma {:induction false} PythonKeepsFirst(c: char, a: string, b: string)
    requires OtherBreak(c) && c != '\r' && NoBreaks(a) && NoBreaks(b) && !StartsWith(a, "++") && !StartsWith(b, "+")
    ensures PythonBody("+" + a + [c] + b + "\n") == a
  {
    var first, patch := "+" + a, "+" + a + [c] + b + "\n";
    assert first[1..] == a;
    assert patch == first + [c] + (b + "\n" + "");
    PythonCutsAt(first, c, b + "\n" + "");
    PythonCutsLine(b, "");
    TwoPieces(b);
    PlusLine(a);
    LastEmptyPieceIsNothing(patch);
    assert ([first] + [b, ""])[1..] == [b, ""];
  }

  /** A content line with a break only Python sees: Python keeps what is before it, TypeScript all. */
  lemma {:induction false} ReadersDivide(path: string, c: char, a: string, b: string)
    requires OtherBreak(c) && c != '\r' && NoBreaks(a) && NoBreaks(b)
    requires !StartsWith(a, "++") && !StartsWith(a + [c] + b, "++") && !StartsWith(b, "+")
    ensures
      var entry := Entry(Some(path), Some("added"), Some("+" + a + [c] + b + "\n"));
      AddedFilePython([entry], path) == Some(a) && AddedFileScript([entry], path) == Some(a + [c] + b)
  {
    FirstEntryDecides([Entry(Some(path), Some("added"), Some("+" + a + [c] + b + "\n"))], path, 0);
    ScriptKeepsAll(c, a, b);
    PythonKeepsFirst(c, a, b);
  }

  lemma {:induction false} TwoPieces(line: string)
    ensures Content([line, ""]) == if IsContent(line) then [line[1..]] else []
    ensures [line] + [""] == [line, ""]
  {
    assert [line, ""][1..] == [""] && [""][1..] == [];
  }

  lemma {:induction false} PlusLine(s: string)
    ensures IsContent("+" + s) <==> !StartsWith(s, "++")
  {
    var p := "+" + s;
    assert |p| >= 3 ==> p[1] == s[0] && p[2] == s[1];
  }

  /** A form feed in a file of one line. */
  lemma {:induction false} FormFeedDivides()
    ensures
      var entry := Entry(Some("f"), Some("added"), Some("+" + "a" + ['\U{000C}'] + "b" + "\n"));
      AddedFilePython([entry], "f") == Some("a") && AddedFileScript([entry], "f") == Some("a" + ['\U{000C}'] + "b")
  {
    AsciiHasNoBreaks("a");
    AsciiHasNoBreaks("b");
    assert ("a" + ['\U{000C}'] + "b")[0] == 'a';
    ReadersDivide("f", '\U{000C}', "a", "b");
  }
}
