/**
  The editor of the PAM login stack: it adds one managed line after the line of the login module,
  or takes it out again, and refuses a file it does not understand.
 */
module PamEditor {
  import opened Prelude

  datatype PamState = Enabled | Disabled

  datatype Refusal = UnexpectedConfiguration | NoSingleAnchor

  const MANAGED_MODULE := "pam_elogind_usersv.so"
  const ANCHOR_MODULE := "pam_elogind.so"
  const MANAGED_FIELDS := ["session", "required", MANAGED_MODULE]
  const MANAGED_LINE := "session" + ("    " + ("required" + ("   " + (MANAGED_MODULE + "\n"))))

  // ---- Text ----

  /** Unicode white space. */
  predicate IsSpace(c: char) {
    || '\U{0009}' <= c <= '\U{000D}' || c == ' ' || c == '\U{0085}' || c == '\U{00A0}' || c == '\U{1680}'
    || '\U{2000}' <= c <= '\U{200A}' || c == '\U{2028}' || c == '\U{2029}' || c == '\U{202F}'
    || c == '\U{205F}' || c == '\U{3000}'
  }

  function WordLength(s: string): (n: nat)
    ensures n <= |s|
    ensures forall i :: 0 <= i < n ==> !IsSpace(s[i])
    ensures n < |s| ==> IsSpace(s[n])
  {
    if s == "" || IsSpace(s[0]) then 0 else 1 + WordLength(s[1..])
  }

  /** The words of a line. */
  function Words(s: string): seq<string>
    decreases |s|
  {
    if s == "" then []
    else if IsSpace(s[0]) then Words(s[1..])
    else [s[..WordLength(s)]] + Words(s[WordLength(s)..])
  }

  function TrimStart(s: string): string {
    if s != "" && IsSpace(s[0]) then TrimStart(s[1..]) else s
  }

  function TrimEnd(s: string): string {
    if s != "" && IsSpace(s[|s| - 1]) then TrimEnd(s[..|s| - 1]) else s
  }

  function Trim(s: string): string {
    TrimEnd(TrimStart(s))
  }

  predicate EndsWith(s: string, c: char) {
    s != "" && s[|s| - 1] == c
  }

  /** The pieces of a text, each with the line feed that ends it. */
  function Pieces(s: string): seq<string>
    decreases |s|
  {
    if s == "" then []
    else
      var n := LineLength(s);
      [s[..n]] + Pieces(s[n..])
  }

  function LineLength(s: string): (n: nat)
    requires s != ""
    ensures 0 < n <= |s|
    ensures forall i :: 0 <= i < n - 1 ==> s[i] != '\n'
    ensures n < |s| ==> s[n - 1] == '\n'
  {
    if s[0] == '\n' || |s| == 1 then 1 else 1 + LineLength(s[1..])
  }

  /** A line is a piece without its line ending. */
  function Line(piece: string): string {
    if !EndsWith(piece, '\n') then piece
    else
      var line := piece[..|piece| - 1];
      if EndsWith(line, '\r') then line[..|line| - 1] else line
  }

  function Lines(pieces: seq<string>): seq<string> {
    seq(|pieces|, i requires 0 <= i < |pieces| => Line(pieces[i]))
  }

  function TrimLineEnds(s: string): string {
    if EndsWith(s, '\r') || EndsWith(s, '\n') then TrimLineEnds(s[..|s| - 1]) else s
  }

  function Concat(pieces: seq<string>): string {
    if pieces == [] then "" else Concat(pieces[..|pieces| - 1]) + pieces[|pieces| - 1]
  }

  // ---- The editor ----

  function ModuleName(line: string): Option<string> {
    var trimmed := Trim(line);
    if trimmed == "" || trimmed[0] == '#' then None
    else
      var fields := Words(trimmed);
      if |fields| >= 3 && (fields[0] == "session" || fields[0] == "-session") then Some(fields[2]) else None
  }

  predicate IsManagedLine(line: string) {
    Words(line) == MANAGED_FIELDS
  }

  predicate NamesManaged(line: string) {
    ModuleName(line) == Some(MANAGED_MODULE)
  }

  predicate NamesAnchor(line: string) {
    ModuleName(line) == Some(ANCHOR_MODULE)
  }

  /** The indices of the lines of a kind, in order. */
  function Indices(lines: seq<string>, kind: string -> bool): seq<nat> {
    if lines == [] then []
    else
      var n := |lines| - 1;
      Indices(lines[..n], kind) + (if kind(lines[n]) then [n] else [])
  }

  function Inspect(source: string): Result<PamState, Refusal> {
    var lines := Lines(Pieces(source));
    var found := Indices(lines, NamesManaged);
    if found == [] then Ok(Disabled)
    else if |found| == 1 && 0 < found[0] < |lines| && IsManagedLine(lines[found[0]]) && NamesAnchor(lines[found[0] - 1])
    then Ok(Enabled)
    else Err(UnexpectedConfiguration)
  }

  function Terminated(piece: string): string {
    if EndsWith(piece, '\n') then piece else piece + "\n"
  }

  /** `pieces` with another line after the `anchor`-th. */
  function Inserted(pieces: seq<string>, anchor: nat, line: string): seq<string>
    requires anchor < |pieces|
  {
    pieces[..anchor] + [Terminated(pieces[anchor]), line] + pieces[anchor + 1..]
  }

  function Enable(source: string): Result<string, Refusal> {
    var state :- Inspect(source);
    var anchors := Indices(Pieces(source), NamesAnchor);
    if state.Enabled? then Ok(source)
    else if |anchors| != 1 || anchors[0] >= |Pieces(source)| then Err(NoSingleAnchor)
    else Ok(Concat(Inserted(Pieces(source), anchors[0], MANAGED_LINE)))
  }

  function Kept(pieces: seq<string>, keep: string -> bool): seq<string> {
    if pieces == [] then []
    else
      var n := |pieces| - 1;
      Kept(pieces[..n], keep) + (if keep(pieces[n]) then [pieces[n]] else [])
  }

  predicate Stays(piece: string) {
    !IsManagedLine(TrimLineEnds(piece))
  }

  function Disable(source: string): Result<string, Refusal> {
    var state :- Inspect(source);
    if state.Disabled? then Ok(source) else Ok(Concat(Kept(Pieces(source), Stays)))
  }

  /** What is built of the replacement after `index` pieces. */
  ghost function Built(pieces: seq<string>, anchor: nat, line: string, index: nat): string
    requires anchor < |pieces| && index <= |pieces|
  {
    Concat(if index <= anchor then pieces[..index] else Inserted(pieces[..index], anchor, line))
  }

  /** The replacement is built piece by piece. */
  method InsertAfter(pieces: seq<string>, anchor: nat, line: string) returns (replacement: string)
    requires anchor < |pieces|
    ensures replacement == Concat(Inserted(pieces, anchor, line))
  {
    replacement := "";
    for index := 0 to |pieces|
      invariant replacement == Built(pieces, anchor, line, index)
    {
      BuiltStep(pieces, anchor, line, index);
      replacement := replacement + pieces[index];
      if index == anchor {
        if !EndsWith(pieces[index], '\n') {
          replacement := replacement + "\n";
        }
        replacement := replacement + line;
      }
    }
    assert pieces[..|pieces|] == pieces;
  }

  lemma BuiltStep(pieces: seq<string>, anchor: nat, line: string, index: nat)
    requires anchor < |pieces| && index < |pieces|
    ensures Built(pieces, anchor, line, index + 1) ==
            var built := Built(pieces, anchor, line, index) + pieces[index];
            if index != anchor then built
            else if EndsWith(pieces[index], '\n') then built + line
            else built + "\n" + line
  {
    var piece, before := pieces[index], pieces[..index];
    assert pieces[..index + 1] == before + [piece];
    if index < anchor {
      ConcatSnoc(before, piece);
    } else if index == anchor {
      ConcatSnoc(before, Terminated(piece));
      ConcatSnoc(before + [Terminated(piece)], line);
      assert Inserted(pieces[..index + 1], anchor, line) == before + [Terminated(piece)] + [line];
    } else {
      assert Inserted(pieces[..index + 1], anchor, line) == Inserted(before, anchor, line) + [piece];
      ConcatSnoc(Inserted(before, anchor, line), piece);
    }
  }

  method EnableInto(source: string) returns (result: Result<string, Refusal>)
    ensures result == Enable(source)
  {
    var state :- Inspect(source);
    if state.Enabled? {
      return Ok(source);
    }
    var anchors := Indices(Pieces(source), NamesAnchor);
    if |anchors| != 1 || anchors[0] >= |Pieces(source)| {
      return Err(NoSingleAnchor);
    }
    var replacement := InsertAfter(Pieces(source), anchors[0], MANAGED_LINE);
    result := Ok(replacement);
  }

  // ---- Words ----

  lemma {:induction false} SpacesAddNoWords(spaces: string, s: string)
    requires forall i :: 0 <= i < |spaces| ==> IsSpace(spaces[i])
    ensures Words(spaces + s) == Words(s)
  {
    if spaces == "" {
      assert spaces + s == s;
    } else {
      assert (spaces + s)[1..] == spaces[1..] + s;
      SpacesAddNoWords(spaces[1..], s);
    }
  }

  lemma FirstWord(word: string, s: string)
    requires word != "" && forall i :: 0 <= i < |word| ==> !IsSpace(word[i])
    requires s == "" || IsSpace(s[0])
    ensures Words(word + s) == [word] + Words(s)
  {
    var n := WordLength(word + s);
    assert forall k :: 0 <= k < |word| ==> (word + s)[k] == word[k];
    if s != "" {
      assert (word + s)[|word|] == s[0];
    }
    assert (word + s)[..n] == word && (word + s)[n..] == s;
  }

  /** White space at the end of a line adds no word. */
  lemma {:induction false} TrailingSpace(s: string, c: char)
    requires IsSpace(c)
    ensures Words(s + [c]) == Words(s)
    decreases |s|
  {
    if s == "" {
      assert s + [c] == [c];
      assert Words([c][1..]) == [];
    } else if IsSpace(s[0]) {
      assert (s + [c])[1..] == s[1..] + [c];
      TrailingSpace(s[1..], c);
    } else {
      var n := WordLength(s);
      var word, rest := s[..n], s[n..];
      assert s + [c] == word + (rest + [c]) && s == word + rest;
      FirstWord(word, rest + [c]);
      FirstWord(word, rest);
      TrailingSpace(rest, c);
    }
  }

  lemma {:induction false} TrimKeepsWords(s: string)
    ensures Words(TrimStart(s)) == Words(s)
    ensures Words(TrimEnd(s)) == Words(s)
    ensures Words(TrimLineEnds(s)) == Words(s)
    decreases |s|
  {
    if s == "" {
    } else {
      var n := |s| - 1;
      assert s[..n] + [s[n]] == s;
      TrimKeepsWords(s[..n]);
      TrimKeepsWords(s[1..]);
      if IsSpace(s[n]) {
        TrailingSpace(s[..n], s[n]);
      }
    }
  }

  lemma {:induction false} TrimmedEnd(s: string)
    ensures TrimEnd(s) != "" ==> TrimEnd(s)[0] == s[0]
    ensures s != "" && !IsSpace(s[0]) ==> TrimEnd(s) != ""
  {
    if s != "" && |s| > 1 {
      TrimmedEnd(s[..|s| - 1]);
    }
  }

  lemma {:induction false} TrimmedStart(s: string)
    ensures TrimStart(s) == "" || !IsSpace(TrimStart(s)[0])
  {
    if s == "" {
    } else {
      TrimmedStart(s[1..]);
    }
  }

  /** Whether a line names a module can be read off its words: comments need no separate test. */
  lemma ModuleNameByWords(line: string)
    ensures var w := Words(line);
            ModuleName(line) == if |w| >= 3 && (w[0] == "session" || w[0] == "-session") then Some(w[2]) else None
  {
    var start, trimmed := TrimStart(line), Trim(line);
    TrimKeepsWords(line);
    TrimKeepsWords(start);
    TrimmedStart(line);
    TrimmedEnd(start);
    if trimmed != "" {
      assert !IsSpace(trimmed[0]);
      assert Words(trimmed)[0] == trimmed[..WordLength(trimmed)];
      assert Words(trimmed)[0][0] == trimmed[0];
    }
  }

  lemma LineKeepsWords(piece: string)
    ensures Words(Line(piece)) == Words(piece)
    ensures ModuleName(Line(piece)) == ModuleName(piece)
  {
    if EndsWith(piece, '\n') {
      var line := piece[..|piece| - 1];
      assert line + ['\n'] == piece;
      TrailingSpace(line, '\n');
      if EndsWith(line, '\r') {
        assert line[..|line| - 1] + ['\r'] == line;
        TrailingSpace(line[..|line| - 1], '\r');
      }
    }
    ModuleNameByWords(piece);
    ModuleNameByWords(Line(piece));
  }

  lemma TerminatedKeepsWords(piece: string)
    ensures Words(Terminated(piece)) == Words(piece)
    ensures ModuleName(Terminated(piece)) == ModuleName(piece)
  {
    TrailingSpace(piece, '\n');
    ModuleNameByWords(piece);
    ModuleNameByWords(Terminated(piece));
  }

  /** A managed line names the managed module; the converse fails for other options. */
  lemma ManagedLinesName(line: string)
    ensures IsManagedLine(line) ==> ModuleName(line) == Some(MANAGED_MODULE)
  {
    ModuleNameByWords(line);
  }

  lemma ThreeWords(a: string, b: string, c: string, gap: string, gop: string, end: string)
    requires a != "" && b != "" && c != "" && gap != "" && gop != "" && end != ""
    requires forall i :: 0 <= i < |a| ==> !IsSpace(a[i])
    requires forall i :: 0 <= i < |b| ==> !IsSpace(b[i])
    requires forall i :: 0 <= i < |c| ==> !IsSpace(c[i])
    requires forall i :: 0 <= i < |gap| ==> IsSpace(gap[i])
    requires forall i :: 0 <= i < |gop| ==> IsSpace(gop[i])
    requires forall i :: 0 <= i < |end| ==> IsSpace(end[i])
    ensures Words(a + (gap + (b + (gop + (c + end))))) == [a, b, c]
  {
    var tail := c + end;
    var middle := b + (gop + tail);
    FirstWord(a, gap + middle);
    SpacesAddNoWords(gap, middle);
    FirstWord(b, gop + tail);
    SpacesAddNoWords(gop, tail);
    FirstWord(c, end);
    SpacesAddNoWords(end, "");
    assert end + "" == end;
  }

  lemma ManagedLineIsManaged()
    ensures IsManagedLine(MANAGED_LINE)
  {
    ThreeWords("session", "required", MANAGED_MODULE, "    ", "   ", "\n");
  }

  // ---- Pieces ----

  /** Pieces as a text falls into them: only the last may lack its line feed. */
  predicate WellCut(pieces: seq<string>) {
    forall i :: 0 <= i < |pieces| ==> WellCutPiece(pieces[i], i + 1 == |pieces|)
  }

  predicate WellCutPiece(piece: string, last: bool) {
    && piece != ""
    && (forall j :: 0 <= j < |piece| - 1 ==> piece[j] != '\n')
    && (last || EndsWith(piece, '\n'))
  }

  lemma {:induction false} ConcatCons(piece: string, pieces: seq<string>)
    ensures Concat([piece] + pieces) == piece + Concat(pieces)
  {
    var all := [piece] + pieces;
    if pieces == [] {
      assert all[..0] == [];
    } else {
      var n := |pieces| - 1;
      assert all[..n + 1] == [piece] + pieces[..n] && all[n + 1] == pieces[n];
      ConcatCons(piece, pieces[..n]);
      assert (piece + Concat(pieces[..n])) + pieces[n] == piece + (Concat(pieces[..n]) + pieces[n]);
    }
  }

  lemma ConcatSnoc(pieces: seq<string>, piece: string)
    ensures Concat(pieces + [piece]) == Concat(pieces) + piece
  {
    assert (pieces + [piece])[..|pieces|] == pieces;
  }

  /** Cutting loses nothing. */
  lemma {:induction false} PiecesConcat(s: string)
    ensures WellCut(Pieces(s)) && Concat(Pieces(s)) == s
    decreases |s|
  {
    if s == "" {
    } else {
      var n := LineLength(s);
      PiecesConcat(s[n..]);
      ConcatCons(s[..n], Pieces(s[n..]));
      FirstPieceIsWellCut(s);
      WellCutCons(s[..n], Pieces(s[n..]));
      assert s[..n] + s[n..] == s;
    }
  }

  lemma FirstPieceIsWellCut(s: string)
    requires s != ""
    ensures WellCutPiece(s[..LineLength(s)], Pieces(s[LineLength(s)..]) == [])
  {
  }

  lemma WellCutCons(piece: string, pieces: seq<string>)
    requires WellCut(pieces) && WellCutPiece(piece, pieces == [])
    ensures WellCut([piece] + pieces)
  {
    var all := [piece] + pieces;
    forall i | 0 <= i < |all|
      ensures WellCutPiece(all[i], i + 1 == |all|)
    {
      if i > 0 {
        assert all[i] == pieces[i - 1] && WellCutPiece(pieces[i - 1], i == |pieces|);
      }
    }
  }

  /** Well-cut pieces are found again in their concatenation. */
  lemma {:induction false} ConcatPieces(pieces: seq<string>)
    requires WellCut(pieces)
    ensures Pieces(Concat(pieces)) == pieces
    decreases |pieces|
  {
    if pieces == [] {
    } else {
      var rest := pieces[1..];
      assert forall i :: 0 <= i < |rest| ==> rest[i] == pieces[i + 1];
      ConcatPieces(rest);
      ConcatCons(pieces[0], rest);
      assert pieces == [pieces[0]] + rest;
      assert WellCutPiece(pieces[0], 1 == |pieces|);
      if rest == [] {
        assert pieces[0] + "" == pieces[0];
      }
      FirstPiece(pieces[0], Concat(rest));
    }
  }

  lemma FirstPiece(piece: string, rest: string)
    requires WellCutPiece(piece, rest == "")
    ensures Pieces(piece + rest) == [piece] + Pieces(rest)
  {
    var s := piece + rest;
    var n := LineLength(s);
    assert forall k :: 0 <= k < |piece| ==> s[k] == piece[k];
    assert s[..n] == piece && s[n..] == rest;
  }

  // ---- Lines of a kind ----

  /** The `i`-th line is the only one of its kind. */
  predicate Sole(lines: seq<string>, i: nat, kind: string -> bool) {
    i < |lines| && forall j :: 0 <= j < |lines| ==> (kind(lines[j]) <==> j == i)
  }

  predicate NoneIs(lines: seq<string>, kind: string -> bool) {
    forall j :: 0 <= j < |lines| ==> !kind(lines[j])
  }

  lemma {:induction false} IndicesInOrder(lines: seq<string>, kind: string -> bool)
    ensures forall j: nat :: j in Indices(lines, kind) <==> j < |lines| && kind(lines[j])
    ensures Increasing(Indices(lines, kind))
  {
    if lines == [] {
    } else {
      var n := |lines| - 1;
      IndicesInOrder(lines[..n], kind);
      OneMoreIndex(Indices(lines[..n], kind), lines, n, kind);
    }
  }

  predicate Increasing(found: seq<nat>) {
    forall k, l :: 0 <= k < l < |found| ==> found[k] < found[l]
  }

  lemma OneMoreIndex(before: seq<nat>, lines: seq<string>, n: nat, kind: string -> bool)
    requires n < |lines| && Increasing(before) && forall j: nat :: j in before <==> j < n && kind(lines[..n][j])
    ensures var found := before + if kind(lines[n]) then [n] else [];
            Increasing(found) && forall j: nat :: j in found <==> j <= n && kind(lines[j])
  {
    var found := before + if kind(lines[n]) then [n] else [];
    forall k, l | 0 <= k < l < |found|
      ensures found[k] < found[l]
    {
      assert found[k] in before;
    }
  }

  lemma SoleIsFound(lines: seq<string>, i: nat, kind: string -> bool)
    requires Sole(lines, i, kind)
    ensures Indices(lines, kind) == [i]
  {
    var found := Indices(lines, kind);
    IndicesInOrder(lines, kind);
    assert i in found;
    forall k | 0 <= k < |found|
      ensures found[k] == i
    {
      assert found[k] in found;
    }
    assert found[|found| - 1] == found[0];
  }

  lemma IndicesAreExact(lines: seq<string>, kind: string -> bool)
    ensures Indices(lines, kind) == [] <==> NoneIs(lines, kind)
    ensures forall i: nat :: Indices(lines, kind) == [i] <==> Sole(lines, i, kind)
  {
    var found := Indices(lines, kind);
    IndicesInOrder(lines, kind);
    if found != [] {
      assert found[0] in found;
    }
    forall i: nat
      ensures found == [i] <==> Sole(lines, i, kind)
    {
      if found == [i] {
        assert forall j: nat :: j in found <==> j == i;
      } else if Sole(lines, i, kind) {
        SoleIsFound(lines, i, kind);
      }
    }
  }

  function Removed(pieces: seq<string>, i: nat): seq<string>
    requires i < |pieces|
  {
    pieces[..i] + pieces[i + 1..]
  }

  lemma {:induction false} KeptAll(pieces: seq<string>, keep: string -> bool)
    requires forall j :: 0 <= j < |pieces| ==> keep(pieces[j])
    ensures Kept(pieces, keep) == pieces
  {
    if pieces == [] {
    } else {
      var n := |pieces| - 1;
      KeptAll(pieces[..n], keep);
      assert pieces[..n] + [pieces[n]] == pieces;
    }
  }

  lemma {:induction false} KeptButOne(pieces: seq<string>, keep: string -> bool, i: nat)
    requires i < |pieces| && forall j :: 0 <= j < |pieces| ==> (keep(pieces[j]) <==> j != i)
    ensures Kept(pieces, keep) == Removed(pieces, i)
  {
    var n := |pieces| - 1;
    if i == n {
      KeptAll(pieces[..n], keep);
    } else {
      KeptButOne(pieces[..n], keep, i);
      assert Removed(pieces[..n], i) + [pieces[n]] == Removed(pieces, i);
    }
  }

  lemma InsertedSole(pieces: seq<string>, a: nat, line: string, kind: string -> bool)
    requires a < |pieces| && NoneIs(pieces, kind) && kind(line) && !kind(Terminated(pieces[a]))
    ensures Sole(Inserted(pieces, a, line), a + 1, kind)
  {
    var inserted := Inserted(pieces, a, line);
    assert forall j :: a + 2 <= j < |inserted| ==> inserted[j] == pieces[j - 1];
  }

  lemma RemovedNone(pieces: seq<string>, i: nat, kind: string -> bool)
    requires Sole(pieces, i, kind)
    ensures NoneIs(Removed(pieces, i), kind)
  {
    var left := Removed(pieces, i);
    assert forall j :: i <= j < |left| ==> left[j] == pieces[j + 1];
  }

  /** Taking out a line of another kind does not make the line before it the only one, nor undo that it is. */
  lemma RemovedSole(pieces: seq<string>, i: nat, kind: string -> bool)
    requires 0 < i < |pieces| && !kind(pieces[i])
    ensures Sole(Removed(pieces, i), i - 1, kind) <==> Sole(pieces, i - 1, kind)
  {
    var left := Removed(pieces, i);
    forall j | 0 <= j < |pieces| && j != i
      ensures var k := if j < i then j else j - 1;
              left[k] == pieces[j] && (k == i - 1 <==> j == i - 1)
    {
    }
    if Sole(left, i - 1, kind) {
      forall j | 0 <= j < |pieces|
        ensures kind(pieces[j]) <==> j == i - 1
      {
        if j != i {
          assert left[if j < i then j else j - 1] == pieces[j];
        }
      }
    }
    if Sole(pieces, i - 1, kind) {
      forall k | 0 <= k < |left|
        ensures kind(left[k]) <==> k == i - 1
      {
        assert left[k] == pieces[if k < i then k else k + 1];
      }
    }
  }

  lemma InsertedIsWellCut(pieces: seq<string>, a: nat, line: string)
    requires a < |pieces| && WellCut(pieces) && WellCutPiece(line, false)
    ensures WellCut(Inserted(pieces, a, line))
  {
    var inserted := Inserted(pieces, a, line);
    forall i | 0 <= i < |inserted|
      ensures WellCutPiece(inserted[i], i + 1 == |inserted|)
    {
      if i <= a {
        assert WellCutPiece(pieces[i], i + 1 == |pieces|);
      } else if i > a + 1 {
        assert inserted[i] == pieces[i - 1] && WellCutPiece(pieces[i - 1], i == |pieces|);
      }
    }
  }

  lemma RemovedIsWellCut(pieces: seq<string>, i: nat)
    requires i < |pieces| && WellCut(pieces)
    ensures WellCut(Removed(pieces, i))
  {
    var left := Removed(pieces, i);
    forall j | 0 <= j < |left|
      ensures WellCutPiece(left[j], j + 1 == |left|)
    {
      var k := if j < i then j else j + 1;
      assert left[j] == pieces[k] && WellCutPiece(pieces[k], k + 1 == |pieces|);
    }
  }

  /** A text whose `a`-th line is the last one and has no line feed. */
  predicate Unterminated(s: string, a: nat) {
    s != "" && !EndsWith(s, '\n') && a + 1 == |Pieces(s)|
  }

  lemma RemoveInsertedPiece(pieces: seq<string>, a: nat, line: string)
    requires a < |pieces|
    ensures Removed(Inserted(pieces, a, line), a + 1) == pieces[a := Terminated(pieces[a])]
  {
    var inserted := Inserted(pieces, a, line);
    assert inserted[..a + 1] == pieces[..a] + [Terminated(pieces[a])];
    assert inserted[a + 2..] == pieces[a + 1..];
  }

  /** Taking out what was inserted leaves the text, but for the line feed the line before was lacking. */
  lemma RemoveInserted(s: string, a: nat, line: string)
    requires a < |Pieces(s)|
    ensures Concat(Removed(Inserted(Pieces(s), a, line), a + 1)) == if Unterminated(s, a) then s + "\n" else s
  {
    var pieces := Pieces(s);
    PiecesConcat(s);
    RemoveInsertedPiece(pieces, a, line);
    LastPieceEndsText(s);
    if EndsWith(pieces[a], '\n') {
      assert pieces[a := Terminated(pieces[a])] == pieces;
    } else {
      assert WellCutPiece(pieces[a], a + 1 == |pieces|);
      assert pieces[a := pieces[a] + "\n"] == pieces[..a] + [pieces[a] + "\n"];
      ConcatSnoc(pieces[..a], pieces[a] + "\n");
    }
  }

  lemma LastPieceEndsText(s: string)
    requires s != ""
    ensures forall c :: EndsWith(s, c) <==> EndsWith(Pieces(s)[|Pieces(s)| - 1], c)
  {
    PiecesConcat(s);
    var pieces := Pieces(s);
    var n := |pieces| - 1;
    assert WellCutPiece(pieces[n], true);
    assert s == Concat(pieces[..n]) + pieces[n];
  }

  lemma InsertRemoved(pieces: seq<string>, i: nat, line: string)
    requires 0 < i < |pieces| && WellCut(pieces)
    ensures Inserted(Removed(pieces, i), i - 1, line) == pieces[i := line]
  {
    assert WellCutPiece(pieces[i - 1], false);
  }

  // ---- What the editor finds and does, in terms of pieces ----

  /** The one line with the managed module is the `i`-th, it is the managed line, and it follows an anchor. */
  predicate ManagedAt(pieces: seq<string>, i: nat) {
    && Sole(pieces, i, NamesManaged) && 0 < i
    && IsManagedLine(pieces[i]) && NamesAnchor(pieces[i - 1])
  }

  predicate Alike(lines: seq<string>, pieces: seq<string>, kind: string -> bool) {
    |lines| == |pieces| && forall j :: 0 <= j < |pieces| ==> (kind(lines[j]) <==> kind(pieces[j]))
  }

  lemma LinesAreAlike(pieces: seq<string>)
    ensures Alike(Lines(pieces), pieces, NamesManaged)
    ensures Alike(Lines(pieces), pieces, NamesAnchor)
    ensures Alike(Lines(pieces), pieces, IsManagedLine)
  {
    var lines := Lines(pieces);
    forall j | 0 <= j < |pieces|
      ensures NamesManaged(lines[j]) <==> NamesManaged(pieces[j])
      ensures NamesAnchor(lines[j]) <==> NamesAnchor(pieces[j])
      ensures IsManagedLine(lines[j]) <==> IsManagedLine(pieces[j])
    {
      LineKeepsWords(pieces[j]);
    }
  }

  lemma FoundAlike(lines: seq<string>, pieces: seq<string>, i: nat, names: string -> bool, anchor: string -> bool, managed: string -> bool)
    requires Alike(lines, pieces, names) && Alike(lines, pieces, anchor) && Alike(lines, pieces, managed)
    ensures Indices(lines, names) == [] <==> NoneIs(pieces, names)
    ensures (Indices(lines, names) == [i] && 0 < i < |lines| && managed(lines[i]) && anchor(lines[i - 1])) <==>
            (Sole(pieces, i, names) && 0 < i && managed(pieces[i]) && anchor(pieces[i - 1]))
  {
    IndicesAreExact(lines, names);
    if Sole(lines, i, names) {
      assert Sole(pieces, i, names);
    }
    if Sole(pieces, i, names) {
      assert Sole(lines, i, names);
    }
    if NoneIs(lines, names) {
      assert NoneIs(pieces, names);
    }
  }

  lemma ManagedIsFound(s: string, i: nat)
    requires ManagedAt(Pieces(s), i)
    ensures Inspect(s) == Ok(Enabled)
  {
    LinesAreAlike(Pieces(s));
    FoundAlike(Lines(Pieces(s)), Pieces(s), i, NamesManaged, NamesAnchor, IsManagedLine);
  }

  lemma FoundIsManaged(s: string) returns (i: nat)
    requires Inspect(s) == Ok(Enabled)
    ensures ManagedAt(Pieces(s), i)
  {
    var found := Indices(Lines(Pieces(s)), NamesManaged);
    i := found[0];
    assert found == [i];
    LinesAreAlike(Pieces(s));
    FoundAlike(Lines(Pieces(s)), Pieces(s), i, NamesManaged, NamesAnchor, IsManagedLine);
  }

  lemma NoneIsDisabled(s: string)
    ensures Inspect(s) == Ok(Disabled) <==> NoneIs(Pieces(s), NamesManaged)
  {
    LinesAreAlike(Pieces(s));
    FoundAlike(Lines(Pieces(s)), Pieces(s), 0, NamesManaged, NamesAnchor, IsManagedLine);
  }

  lemma InspectIsExact(s: string)
    ensures Inspect(s) == Ok(Disabled) <==> NoneIs(Pieces(s), NamesManaged)
    ensures Inspect(s) == Ok(Enabled) <==> exists i: nat :: ManagedAt(Pieces(s), i)
  {
    NoneIsDisabled(s);
    if Inspect(s) == Ok(Enabled) {
      var i := FoundIsManaged(s);
    } else if i: nat :| ManagedAt(Pieces(s), i) {
      ManagedIsFound(s, i);
    }
  }

  /** Disabling takes out just the managed line. */
  lemma DisableRemoves(s: string, i: nat)
    requires ManagedAt(Pieces(s), i)
    ensures Disable(s) == Ok(Concat(Removed(Pieces(s), i)))
    ensures Disable(s).Ok? && Pieces(Disable(s).value) == Removed(Pieces(s), i)
  {
    var pieces := Pieces(s);
    InspectIsExact(s);
    forall j | 0 <= j < |pieces|
      ensures Stays(pieces[j]) <==> j != i
    {
      ManagedPiecesName(pieces[j]);
    }
    KeptButOne(pieces, Stays, i);
    PiecesConcat(s);
    RemovedIsWellCut(pieces, i);
    ConcatPieces(Removed(pieces, i));
  }

  lemma ManagedPiecesName(piece: string)
    ensures Stays(piece) <==> !IsManagedLine(piece)
    ensures IsManagedLine(piece) ==> NamesManaged(piece)
  {
    TrimKeepsWords(piece);
    ManagedLinesName(piece);
  }

  /** The text with the managed line falls into the pieces it was built from. */
  lemma InsertedPieces(s: string, a: nat)
    requires a < |Pieces(s)|
    ensures Pieces(Concat(Inserted(Pieces(s), a, MANAGED_LINE))) == Inserted(Pieces(s), a, MANAGED_LINE)
  {
    PiecesConcat(s);
    ManagedLineIsWellCut();
    InsertedIsWellCut(Pieces(s), a, MANAGED_LINE);
    ConcatPieces(Inserted(Pieces(s), a, MANAGED_LINE));
  }

  lemma EnableAt(s: string, a: nat)
    requires Inspect(s) == Ok(Disabled) && a < |Pieces(s)| && Indices(Pieces(s), NamesAnchor) == [a]
    ensures Enable(s) == Ok(Concat(Inserted(Pieces(s), a, MANAGED_LINE)))
  {
  }

  /** Enabling a disabled file inserts the managed line after the one anchor, if there is just one. */
  lemma EnableInserts(s: string, a: nat)
    requires Inspect(s) == Ok(Disabled)
    ensures Sole(Pieces(s), a, NamesAnchor) <==> Indices(Pieces(s), NamesAnchor) == [a]
    ensures Sole(Pieces(s), a, NamesAnchor) ==>
              && Enable(s) == Ok(Concat(Inserted(Pieces(s), a, MANAGED_LINE)))
              && Pieces(Enable(s).value) == Inserted(Pieces(s), a, MANAGED_LINE)
  {
    IndicesAreExact(Pieces(s), NamesAnchor);
    if Sole(Pieces(s), a, NamesAnchor) {
      EnableAt(s, a);
      InsertedPieces(s, a);
    }
  }

  lemma ManagedLineIsWellCut()
    ensures WellCutPiece(MANAGED_LINE, false)
  {
  }

  /** The anchor of a file that can be enabled. */
  function Anchor(s: string): nat
    requires Inspect(s) == Ok(Disabled) && Enable(s).Ok?
  {
    Indices(Pieces(s), NamesAnchor)[0]
  }

  lemma AnchorIsSole(s: string)
    requires Inspect(s) == Ok(Disabled) && Enable(s).Ok?
    ensures Sole(Pieces(s), Anchor(s), NamesAnchor)
  {
    assert Indices(Pieces(s), NamesAnchor) == [Anchor(s)];
    EnableInserts(s, Anchor(s));
  }

  // ---- Main results ----

  /** When the operations succeed: an ambiguous or unknown file is refused. */
  lemma EditsSucceedExactly(s: string)
    ensures Disable(s).Ok? <==> NoneIs(Pieces(s), NamesManaged) || exists i: nat :: ManagedAt(Pieces(s), i)
    ensures Enable(s).Ok? <==>
              || (exists i: nat :: ManagedAt(Pieces(s), i))
              || (NoneIs(Pieces(s), NamesManaged) && exists a: nat :: Sole(Pieces(s), a, NamesAnchor))
  {
    InspectIsExact(s);
    if Inspect(s) == Ok(Disabled) {
      EnableSucceedsExactly(s);
    }
  }

  lemma EnableSucceedsExactly(s: string)
    requires Inspect(s) == Ok(Disabled)
    ensures Enable(s).Ok? <==> exists a: nat :: Sole(Pieces(s), a, NamesAnchor)
  {
    if Enable(s).Ok? {
      AnchorIsSole(s);
    }
    if a: nat :| Sole(Pieces(s), a, NamesAnchor) {
      EnableInserts(s, a);
    }
  }

  /** Enabling a disabled file gives an enabled one: the same lines in order, and one more after the anchor. */
  lemma EnableEnables(s: string)
    requires Inspect(s) == Ok(Disabled) && Enable(s).Ok?
    ensures Sole(Pieces(s), Anchor(s), NamesAnchor)
    ensures Pieces(Enable(s).value) == Inserted(Pieces(s), Anchor(s), MANAGED_LINE)
    ensures ManagedAt(Pieces(Enable(s).value), Anchor(s) + 1)
    ensures Inspect(Enable(s).value) == Ok(Enabled)
  {
    AnchorIsSole(s);
    EnableInserts(s, Anchor(s));
    InspectIsExact(s);
    InsertedIsManaged(Pieces(s), Anchor(s));
    InspectIsExact(Enable(s).value);
  }

  /**
    The lines read from the enabled file are those of the original and the managed one after the
    anchor, except that an unterminated anchor loses a carriage return at its end.
   */
  lemma EnableKeepsLines(s: string)
    requires Inspect(s) == Ok(Disabled) && Enable(s).Ok?
    ensures Anchor(s) < |Pieces(s)|
    ensures Lines(Pieces(Enable(s).value)) == OneMore(Lines(Pieces(s)), Anchor(s)) <==>
              !(Unterminated(s, Anchor(s)) && EndsWith(s, '\r'))
  {
    EnableEnables(s);
    InsertedKeepsLines(s, Anchor(s));
  }

  /** `lines` with the managed line after the `a`-th, and otherwise as they were. */
  function OneMore(lines: seq<string>, a: nat): seq<string>
    requires a < |lines|
  {
    lines[..a + 1] + [Line(MANAGED_LINE)] + lines[a + 1..]
  }

  lemma InsertedKeepsLines(s: string, a: nat)
    requires a < |Pieces(s)|
    ensures Lines(Inserted(Pieces(s), a, MANAGED_LINE)) == OneMore(Lines(Pieces(s)), a) <==>
              !(Unterminated(s, a) && EndsWith(s, '\r'))
  {
    LinesKept(Pieces(s), a, MANAGED_LINE);
    BareReturn(s, a);
  }

  lemma LinesKept(pieces: seq<string>, a: nat, line: string)
    requires a < |pieces|
    ensures Lines(Inserted(pieces, a, line)) == Lines(pieces)[..a + 1] + [Line(line)] + Lines(pieces)[a + 1..] <==>
              (EndsWith(pieces[a], '\n') || !EndsWith(pieces[a], '\r'))
  {
    LinesOfInserted(pieces, a, line);
    SpliceKeeps(Lines(Inserted(pieces, a, line)), Lines(pieces), a, Line(Terminated(pieces[a])), Line(line));
    LineOfTerminated(pieces[a]);
  }

  lemma SpliceKeeps<T>(found: seq<T>, lines: seq<T>, a: nat, x: T, y: T)
    requires a < |lines| && found == lines[..a] + [x, y] + lines[a + 1..]
    ensures found == lines[..a + 1] + [y] + lines[a + 1..] <==> x == lines[a]
  {
    var wanted := lines[..a + 1] + [y] + lines[a + 1..];
    assert found[a] == x && wanted[a] == lines[a];
    if x == lines[a] {
      assert lines[..a + 1] == lines[..a] + [x];
      assert (lines[..a] + [x]) + [y] == lines[..a] + [x, y];
    }
  }

  /** Ending the anchor's line changes what is read of it only if that line feed follows a carriage return. */
  lemma LineOfTerminated(piece: string)
    ensures Line(Terminated(piece)) == Line(piece) <==> EndsWith(piece, '\n') || !EndsWith(piece, '\r')
  {
    assert (piece + "\n")[..|piece|] == piece;
  }

  lemma BareReturn(s: string, a: nat)
    requires a < |Pieces(s)|
    ensures (EndsWith(Pieces(s)[a], '\n') || !EndsWith(Pieces(s)[a], '\r')) <==> !(Unterminated(s, a) && EndsWith(s, '\r'))
  {
    LastPieceEndsText(s);
    PiecesConcat(s);
    assert WellCutPiece(Pieces(s)[a], a + 1 == |Pieces(s)|);
  }

  lemma LinesOfInserted(pieces: seq<string>, a: nat, line: string)
    requires a < |pieces|
    ensures Lines(Inserted(pieces, a, line)) == Lines(pieces)[..a] + [Line(Terminated(pieces[a])), Line(line)] + Lines(pieces)[a + 1..]
  {
    LinesConcat(pieces[..a] + [Terminated(pieces[a]), line], pieces[a + 1..]);
    LinesConcat(pieces[..a], [Terminated(pieces[a]), line]);
    assert Lines(pieces[..a]) == Lines(pieces)[..a];
    assert Lines([Terminated(pieces[a]), line]) == [Line(Terminated(pieces[a])), Line(line)];
    assert Lines(pieces[a + 1..]) == Lines(pieces)[a + 1..];
  }

  lemma LinesConcat(p: seq<string>, q: seq<string>)
    ensures Lines(p + q) == Lines(p) + Lines(q)
  {
  }

  lemma InsertedIsManaged(pieces: seq<string>, a: nat)
    requires NoneIs(pieces, NamesManaged) && a < |pieces| && NamesAnchor(pieces[a])
    ensures ManagedAt(Inserted(pieces, a, MANAGED_LINE), a + 1)
  {
    ManagedLineKinds();
    TerminatedKinds(pieces[a]);
    InsertedSole(pieces, a, MANAGED_LINE, NamesManaged);
    InsertedPair(pieces, a, MANAGED_LINE);
  }

  lemma InsertedPair(pieces: seq<string>, a: nat, line: string)
    requires a < |pieces|
    ensures Inserted(pieces, a, line)[a] == Terminated(pieces[a]) && Inserted(pieces, a, line)[a + 1] == line
  {
  }

  lemma ManagedLineKinds()
    ensures IsManagedLine(MANAGED_LINE) && NamesManaged(MANAGED_LINE)
  {
    ManagedLineIsManaged();
    ManagedLinesName(MANAGED_LINE);
  }

  lemma TerminatedKinds(piece: string)
    ensures NamesAnchor(Terminated(piece)) <==> NamesAnchor(piece)
    ensures NamesManaged(Terminated(piece)) <==> NamesManaged(piece)
  {
    TerminatedKeepsWords(piece);
  }

  /** Disabling what was enabled restores the file, but for a line feed the anchor was lacking. */
  lemma DisableInvertsEnable(s: string)
    requires Inspect(s) == Ok(Disabled) && Enable(s).Ok?
    ensures Disable(Enable(s).value) == Ok(if Unterminated(s, Anchor(s)) then s + "\n" else s)
  {
    EnableEnables(s);
    DisableRemoves(Enable(s).value, Anchor(s) + 1);
    RemoveInserted(s, Anchor(s), MANAGED_LINE);
  }

  /** Whenever disabling succeeds the result is disabled. */
  lemma DisableDisables(s: string)
    requires Disable(s).Ok?
    ensures Inspect(Disable(s).value) == Ok(Disabled)
  {
    InspectIsExact(s);
    if i: nat :| ManagedAt(Pieces(s), i) {
      DisableRemoves(s, i);
      RemovedNone(Pieces(s), i, NamesManaged);
      InspectIsExact(Disable(s).value);
    }
  }

  /** Both operations are idempotent. */
  lemma EditsAreIdempotent(s: string)
    ensures Enable(s).Ok? ==> Enable(Enable(s).value) == Enable(s)
    ensures Disable(s).Ok? ==> Disable(Disable(s).value) == Disable(s)
  {
    if Disable(s).Ok? {
      DisableDisables(s);
    }
    if Enable(s).Ok? && Inspect(s) == Ok(Disabled) {
      EnableEnables(s);
    }
  }

  /**
    Enabling what was disabled restores the file exactly when its managed line was spelled as the
    editor spells it and only one line names the anchor module.
   */
  lemma EnableInvertsDisable(s: string, i: nat)
    requires ManagedAt(Pieces(s), i)
    ensures Disable(s).Ok?
    ensures Enable(Disable(s).value) == Ok(s) <==>
              Pieces(s)[i] == MANAGED_LINE && Sole(Pieces(s), i - 1, NamesAnchor)
  {
    DisableRemoves(s, i);
    DisableDisables(s);
    var t := Disable(s).value;
    assert Pieces(t)[i - 1] == Pieces(s)[i - 1];
    ManagedIsNoAnchor(Pieces(s)[i]);
    RemovedSole(Pieces(s), i, NamesAnchor);
    if Sole(Pieces(t), i - 1, NamesAnchor) {
      SoleRestores(s, i, t);
    } else if Enable(t).Ok? {
      AnchorIsSole(t);
    }
  }

  lemma SoleRestores(s: string, i: nat, t: string)
    requires 0 < i < |Pieces(s)| && Inspect(t) == Ok(Disabled)
    requires Pieces(t) == Removed(Pieces(s), i) && Sole(Pieces(t), i - 1, NamesAnchor)
    ensures Enable(t) == Ok(s) <==> Pieces(s)[i] == MANAGED_LINE
  {
    IndicesAreExact(Pieces(t), NamesAnchor);
    EnableAt(t, i - 1);
    ManagedLineIsWellCut();
    InsertedTextIsSame(s, i, MANAGED_LINE);
  }

  lemma InsertedTextIsSame(s: string, i: nat, line: string)
    requires 0 < i < |Pieces(s)| && WellCutPiece(line, false)
    ensures Concat(Inserted(Removed(Pieces(s), i), i - 1, line)) == s <==> Pieces(s)[i] == line
  {
    var pieces := Pieces(s);
    PiecesConcat(s);
    InsertRemoved(pieces, i, line);
    if pieces[i] == line {
      assert pieces[i := line] == pieces;
    } else {
      RemovedIsWellCut(pieces, i);
      InsertedIsWellCut(Removed(pieces, i), i - 1, line);
      ConcatPieces(pieces[i := line]);
      assert pieces[i := line][i] != pieces[i];
    }
  }

  lemma ManagedIsNoAnchor(piece: string)
    requires NamesManaged(piece)
    ensures !NamesAnchor(piece)
  {
    assert |MANAGED_MODULE| != |ANCHOR_MODULE|;
  }
}
