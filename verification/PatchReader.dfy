/** Reading a shipped file back out of its stored patch: the same reader written twice, in Python and
    in TypeScript, with two different ideas of a line. */
module PatchReader {
  import opened Common

  // ----- lines -----

  /** What cuts a line in Python's `str.splitlines` besides a line feed. */
  predicate OtherBreak(c: char) {
    c in ['\r', '\U{000B}', '\U{000C}', '\U{001C}', '\U{001D}', '\U{001E}', '\U{0085}', '\U{2028}', '\U{2029}']
  }

  predicate Break(c: char) {
    c == '\n' || OtherBreak(c)
  }

  /** Python cuts at a line feed and at these nine others: CR, VT, FF, FS, GS, RS, NEL, LS and PS. */
  lemma {:induction false} BreaksAre(c: char)
    ensures Break(c) <==> c as int in {0xA, 0xB, 0xC, 0xD, 0x1C, 0x1D, 0x1E, 0x85, 0x2028, 0x2029}
    ensures OtherBreak(c) <==> Break(c) && c as int != 0xA
  {
  }

  predicate AtCrLf(s: string) {
    |s| >= 2 && s[0] == '\r' && s[1] == '\n'
  }

  function OntoFirst(c: char, lines: seq<string>): seq<string>
    requires lines != []
  {
    [[c] + lines[0]] + lines[1..]
  }

  /** The pieces between Python's line breaks, the one after the last break included. */
  function PythonPieces(s: string): (r: seq<string>)
    ensures r != []
    decreases |s|
  {
    if s == [] then [""]
    else if AtCrLf(s) then [""] + PythonPieces(s[2..])
    else if Break(s[0]) then [""] + PythonPieces(s[1..])
    else OntoFirst(s[0], PythonPieces(s[1..]))
  }

  /** `s.splitlines()`: an empty piece after the last break is not a line. */
  function SplitLines(s: string): seq<string> {
    var p := PythonPieces(s);
    if p[|p| - 1] == "" then p[..|p| - 1] else p
  }

  /** `s.split(/\r?\n/)`. */
  function ScriptPieces(s: string): (r: seq<string>)
    ensures r != []
    decreases |s|
  {
    if s == [] then [""]
    else if AtCrLf(s) then [""] + ScriptPieces(s[2..])
    else if s[0] == '\n' then [""] + ScriptPieces(s[1..])
    else OntoFirst(s[0], ScriptPieces(s[1..]))
  }

  function JoinLf(lines: seq<string>): string {
    if lines == [] then "" else if |lines| == 1 then lines[0] else lines[0] + "\n" + JoinLf(lines[1..])
  }

  // ----- the two readers -----

  predicate StartsWith(s: string, prefix: string) {
    prefix <= s
  }

  /** A content line of the patch: `+`, but not the `+++` header. */
  predicate IsContent(line: string) {
    StartsWith(line, "+") && !StartsWith(line, "+++")
  }

  function Content(lines: seq<string>): seq<string> {
    if lines == [] then []
    else if IsContent(lines[0]) then [lines[0][1..]] + Content(lines[1..])
    else Content(lines[1..])
  }

  function PythonBody(patch: string): string {
    JoinLf(Content(SplitLines(patch)))
  }

  function ScriptBody(patch: string): string {
    JoinLf(Content(ScriptPieces(patch)))
  }

  datatype Entry = NotAnObject | Entry(path: Option<string>, status: Option<string>, patch: Option<string>)

  predicate Names(e: Entry, path: string) {
    e.Entry? && e.path == Some(path)
  }

  /** `added_file`. */
  function AddedFilePython(files: seq<Entry>, path: string): Option<string> {
    if files == [] then None
    else if !Names(files[0], path) then AddedFilePython(files[1..], path)
    else if files[0].status != Some("added") then None
    else Some(PythonBody(files[0].patch.GetOr("")))
  }

  /** `addedFile`. */
  function AddedFileScript(files: seq<Entry>, path: string): Option<string> {
    if files == [] then None
    else if !Names(files[0], path) then AddedFileScript(files[1..], path)
    else if files[0].status != Some("added") then None
    else Some(ScriptBody(files[0].patch.GetOr("")))
  }

  // ----- when the two readers agree -----

  /** A line of the TypeScript reader, cut again where only Python cuts. */
  function CutOther(s: string): (r: seq<string>)
    ensures r != []
  {
    if s == [] then [""]
    else if OtherBreak(s[0]) then [""] + CutOther(s[1..])
    else OntoFirst(s[0], CutOther(s[1..]))
  }

  function CutAll(lines: seq<string>): seq<string> {
    if lines == [] then [] else CutOther(lines[0]) + CutAll(lines[1..])
  }

  lemma {:induction false} CutAllFirst(line: string, lines: seq<string>)
    ensures CutAll([line] + lines) == CutOther(line) + CutAll(lines)
  {
    assert ([line] + lines)[1..] == lines;
  }

  lemma {:induction false} CutOntoFirst(c: char, lines: seq<string>)
    requires lines != []
    ensures CutAll(OntoFirst(c, lines)) == if OtherBreak(c) then [""] + CutAll(lines) else OntoFirst(c, CutAll(lines))
  {
    var first := [c] + lines[0];
    assert first[1..] == lines[0];
    CutAllFirst(first, lines[1..]);
  }

  /** Python's lines refine TypeScript's. */
  lemma {:induction false} PythonCutsFiner(s: string)
    ensures PythonPieces(s) == CutAll(ScriptPieces(s))
    decreases |s|
  {
    if s == [] {
      CutAllFirst("", []);
    } else {
      var rest := if AtCrLf(s) then s[2..] else s[1..];
      PythonCutsFiner(rest);
      if AtCrLf(s) || s[0] == '\n' {
        CutAllFirst("", ScriptPieces(rest));
      } else {
        CutOntoFirst(s[0], ScriptPieces(rest));
      }
    }
  }

  lemma {:induction false} ContentConcat(a: seq<string>, b: seq<string>)
    ensures Content(a + b) == Content(a) + Content(b)
  {
    if a == [] {
      assert a + b == b;
    } else {
      assert (a + b)[1..] == a[1..] + b;
      ContentConcat(a[1..], b);
    }
  }

  lemma {:induction false} LastEmptyPieceIsNothing(s: string)
    ensures Content(SplitLines(s)) == Content(PythonPieces(s))
  {
    var p := PythonPieces(s);
    if p[|p| - 1] == "" {
      assert p == p[..|p| - 1] + [""];
      ContentConcat(p[..|p| - 1], [""]);
    }
  }

  predicate HasOther(s: string) {
    s != [] && (OtherBreak(s[0]) || HasOther(s[1..]))
  }

  lemma {:induction false} HasOtherConcat(a: string, b: string)
    ensures HasOther(a + b) <==> HasOther(a) || HasOther(b)
  {
    if a == [] {
      assert a + b == b;
    } else {
      assert (a + b)[1..] == a[1..] + b;
      HasOtherConcat(a[1..], b);
    }
  }

  /** Some content line of the TypeScript reader carries a break only Python sees. */
  predicate CutsContent(lines: seq<string>) {
    exists i | 0 <= i < |lines| :: IsContent(lines[i]) && HasOther(lines[i])
  }

  /** The content Python finds inside lines TypeScript drops. */
  function Hidden(lines: seq<string>): seq<string> {
    if lines == [] then []
    else (if IsContent(lines[0]) then [] else Content(CutOther(lines[0]))) + Hidden(lines[1..])
  }

  lemma {:induction false} CutWithoutBreaks(s: string)
    requires !HasOther(s)
    ensures CutOther(s) == [s]
  {
    if s != [] {
      CutWithoutBreaks(s[1..]);
      assert s == [s[0]] + s[1..];
    }
  }

  /** With no content line cut, Python finds at least what TypeScript finds, and the very same lines
      exactly when nothing is hidden. */
  lemma {:induction false} FinerContent(lines: seq<string>)
    requires !CutsContent(lines)
    ensures |Content(CutAll(lines))| == |Content(lines)| + |Hidden(lines)|
    ensures Hidden(lines) == [] ==> Content(CutAll(lines)) == Content(lines)
  {
    if lines != [] {
      assert forall i | 0 <= i < |lines| - 1 :: lines[1..][i] == lines[i + 1];
      FinerContent(lines[1..]);
      ContentConcat(CutOther(lines[0]), CutAll(lines[1..]));
      if IsContent(lines[0]) {
        CutWithoutBreaks(lines[0]);
        assert CutOther(lines[0])[1..] == [];
      }
    }
  }

  lemma {:induction false} PiecesHaveNoOther(lines: seq<string>)
    ensures forall l | l in CutAll(lines) :: !HasOther(l)
  {
    if lines != [] {
      CutHasNoOther(lines[0]);
      PiecesHaveNoOther(lines[1..]);
    }
  }

  lemma {:induction false} CutHasNoOther(s: string)
    ensures forall l | l in CutOther(s) :: !HasOther(l)
  {
    if s != [] {
      CutHasNoOther(s[1..]);
      var rest := CutOther(s[1..]);
      assert rest[0] in rest;
      var first := [s[0]] + rest[0];
      assert first[1..] == rest[0];
    }
  }

  lemma {:induction false} ContentIsTail(lines: seq<string>, l: string)
    requires l in Content(lines)
    ensures exists i | 0 <= i < |lines| :: IsContent(lines[i]) && lines[i][1..] == l
  {
    if !(IsContent(lines[0]) && lines[0][1..] == l) {
      ContentIsTail(lines[1..], l);
      var i :| 0 <= i < |lines[1..]| && IsContent(lines[1..][i]) && lines[1..][i][1..] == l;
      assert lines[i + 1] == lines[1..][i];
    } else {
      assert lines[0][1..] == l;
    }
  }

  lemma {:induction false} ContentKeeps(lines: seq<string>, i: nat)
    requires i < |lines| && IsContent(lines[i])
    ensures lines[i][1..] in Content(lines)
  {
    if i > 0 {
      ContentKeeps(lines[1..], i - 1);
    }
  }

  lemma {:induction false} JoinHasOther(lines: seq<string>)
    ensures HasOther(JoinLf(lines)) <==> exists l | l in lines :: HasOther(l)
  {
    if lines != [] {
      assert forall l | l in lines :: l == lines[0] || l in lines[1..];
      assert lines[0] in lines;
    }
    if |lines| > 1 {
      JoinHasOther(lines[1..]);
      HasOtherConcat(lines[0] + "\n", JoinLf(lines[1..]));
      HasOtherConcat(lines[0], "\n");
      assert !HasOther("\n");
    }
  }

  function CountLf(s: string): nat {
    if s == [] then 0 else (if s[0] == '\n' then 1 else 0) + CountLf(s[1..])
  }

  lemma {:induction false} CountLfConcat(a: string, b: string)
    ensures CountLf(a + b) == CountLf(a) + CountLf(b)
  {
    if a == [] {
      assert a + b == b;
    } else {
      assert (a + b)[1..] == a[1..] + b;
      CountLfConcat(a[1..], b);
    }
  }

  lemma {:induction false} JoinCountsLf(lines: seq<string>)
    requires lines != [] && forall l | l in lines :: '\n' !in l
    ensures CountLf(JoinLf(lines)) == |lines| - 1
  {
    NoLf(lines[0]);
    if |lines| > 1 {
      JoinCountsLf(lines[1..]);
      CountLfConcat(lines[0] + "\n", JoinLf(lines[1..]));
      CountLfConcat(lines[0], "\n");
    }
  }

  lemma {:induction false} NoLf(s: string)
    requires '\n' !in s
    ensures CountLf(s) == 0
  {
    if s != [] {
      NoLf(s[1..]);
    }
  }

  lemma {:induction false} ScriptPiecesHaveNoLf(s: string)
    ensures forall l | l in ScriptPieces(s) :: '\n' !in l
    decreases |s|
  {
    if s != [] {
      var rest := if AtCrLf(s) then s[2..] else s[1..];
      ScriptPiecesHaveNoLf(rest);
      assert ScriptPieces(rest)[0] in ScriptPieces(rest);
    }
  }

  lemma {:induction false} CutAllHasNoLf(lines: seq<string>)
    requires forall l | l in lines :: '\n' !in l
    ensures forall l | l in CutAll(lines) :: '\n' !in l
  {
    if lines != [] {
      CutHasNoLf(lines[0]);
      CutAllHasNoLf(lines[1..]);
    }
  }

  lemma {:induction false} CutHasNoLf(s: string)
    requires '\n' !in s
    ensures forall l | l in CutOther(s) :: '\n' !in l
  {
    if s != [] {
      CutHasNoLf(s[1..]);
      assert CutOther(s[1..])[0] in CutOther(s[1..]);
    }
  }

  lemma {:induction false} ContentHasNoLf(lines: seq<string>)
    requires forall l | l in lines :: '\n' !in l
    ensures forall l | l in Content(lines) :: '\n' !in l
  {
    forall l | l in Content(lines) ensures '\n' !in l {
      ContentIsTail(lines, l);
      var i :| 0 <= i < |lines| && IsContent(lines[i]) && lines[i][1..] == l;
      assert lines[i] in lines;
    }
  }

  /** The readers agree on a patch exactly when no content line carries a break only Python sees and
      no line TypeScript drops hides a content line behind one; the one exception is a patch whose
      only content is a single hidden empty line, which both read as the empty file. */
  predicate SameLines(patch: string) {
    var lines := ScriptPieces(patch);
    !CutsContent(lines) && (Hidden(lines) == [] || (Content(lines) == [] && Hidden(lines) == [""]))
  }

  lemma {:induction false} HiddenAlone(lines: seq<string>)
    requires Content(lines) == []
    ensures Content(CutAll(lines)) == Hidden(lines)
  {
    if lines != [] {
      HiddenAlone(lines[1..]);
      ContentConcat(CutOther(lines[0]), CutAll(lines[1..]));
    }
  }

  lemma {:induction false} ReadersAgreeOnPatch(patch: string)
    ensures PythonBody(patch) == ScriptBody(patch) <==> SameLines(patch)
  {
    var lines := ScriptPieces(patch);
    var ours := Content(CutAll(lines));
    var theirs := Content(lines);
    PythonCutsFiner(patch);
    LastEmptyPieceIsNothing(patch);
    assert PythonBody(patch) == JoinLf(ours) && ScriptBody(patch) == JoinLf(theirs);
    if CutsContent(lines) {
      ContentCut(lines);
    } else {
      FinerContent(lines);
      if theirs == [] {
        HiddenAlone(lines);
        JoinEmpty(ours);
      } else if Hidden(lines) != [] {
        ScriptPiecesHaveNoLf(patch);
        CutAllHasNoLf(lines);
        ContentHasNoLf(lines);
        ContentHasNoLf(CutAll(lines));
        JoinCountsLf(ours);
        JoinCountsLf(theirs);
      }
    }
  }

  lemma {:induction false} ContentCut(lines: seq<string>)
    requires CutsContent(lines)
    ensures JoinLf(Content(CutAll(lines))) != JoinLf(Content(lines))
  {
    var i :| 0 <= i < |lines| && IsContent(lines[i]) && HasOther(lines[i]);
    ContentKeeps(lines, i);
    assert HasOther(lines[i][1..]);
    JoinHasOther(Content(lines));
    PiecesHaveNoOther(lines);
    forall l | l in Content(CutAll(lines)) ensures !HasOther(l) {
      ContentIsTail(CutAll(lines), l);
      var j :| 0 <= j < |CutAll(lines)| && IsContent(CutAll(lines)[j]) && CutAll(lines)[j][1..] == l;
      assert CutAll(lines)[j] in CutAll(lines);
    }
    JoinHasOther(Content(CutAll(lines)));
  }

  lemma {:induction false} JoinEmpty(ours: seq<string>)
    ensures JoinLf(ours) == "" <==> ours == [] || ours == [""]
  {
    if |ours| > 1 {
      assert |JoinLf(ours)| >= 1;
    }
  }

  /** The deciding entry: the first one with the path. */
  predicate Decides(files: seq<Entry>, path: string, k: nat) {
    k < |files| && Names(files[k], path) && forall i | 0 <= i < k :: !Names(files[i], path)
  }

  lemma {:induction false} FirstEntryDecides(files: seq<Entry>, path: string, k: nat)
    requires Decides(files, path, k)
    ensures AddedFilePython(files, path) ==
      if files[k].status == Some("added") then Some(PythonBody(files[k].patch.GetOr(""))) else None
    ensures AddedFileScript(files, path) ==
      if files[k].status == Some("added") then Some(ScriptBody(files[k].patch.GetOr(""))) else None
  {
    if k > 0 {
      assert !Names(files[0], path);
      assert forall i | 0 <= i < k - 1 :: files[1..][i] == files[i + 1];
      FirstEntryDecides(files[1..], path, k - 1);
    }
  }

  lemma {:induction false} AbsentPath(files: seq<Entry>, path: string)
    requires forall e | e in files :: !Names(e, path)
    ensures AddedFilePython(files, path) == AddedFileScript(files, path) == None
  {
    if files != [] {
      AbsentPath(files[1..], path);
    }
  }

  lemma {:induction false} DecidingEntry(files: seq<Entry>, path: string) returns (k: nat)
    requires exists e | e in files :: Names(e, path)
    ensures Decides(files, path, k)
  {
    if Names(files[0], path) {
      k := 0;
    } else {
      k := DecidingEntry(files[1..], path);
      assert files[1..][k] == files[k + 1];
      assert forall i | 1 <= i < k + 1 :: files[i] == files[1..][i - 1];
      k := k + 1;
    }
  }

  /** The two readers return the same answer for a diff and a path exactly when the first entry with
      the path, if there is one and it is an added file, has a patch both cut alike. */
  lemma {:induction false} ReadersAgree(files: seq<Entry>, path: string)
    ensures
      AddedFilePython(files, path) == AddedFileScript(files, path) <==>
      forall k: nat | Decides(files, path, k) :: files[k].status == Some("added") ==> SameLines(files[k].patch.GetOr(""))
  {
    if exists e | e in files :: Names(e, path) {
      var k := DecidingEntry(files, path);
      FirstEntryDecides(files, path, k);
      ReadersAgreeOnPatch(files[k].patch.GetOr(""));
      assert forall j: nat | Decides(files, path, j) :: j == k;
    } else {
      AbsentPath(files, path);
      assert forall j: nat | j < |files| :: files[j] in files;
    }
  }
}
