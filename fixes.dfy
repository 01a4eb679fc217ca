/**
 * The fix generator and the text edit that applies one fix: what each
 * finding's line is replaced with, and what the file looks like when it is
 * read back.
 */
module Fixes {
  import opened Wrappers
  import opened Text
  import opened FileSystem
  import opened Scanner

  /** The pair `generate_fix` returns: the new line ("" deletes it) and a note on what was done. */
  datatype Fix = Fix(replacement: string, note: string)

  /**
   * `generate_fix`: LINTING and IMPORT findings delete the line, SYNTAX appends
   * a colon, INDENTATION turns each tab into four spaces, and anything else
   * keeps the content for manual review. Every fix starts from the stripped
   * content, never from the raw line.
   */
  function GenerateFix(bug: Finding): Fix
  {
    Fix(Replacement(bug), FixNote(bug))
  }

  /** The new line of `generate_fix`. */
  function Replacement(bug: Finding): (r: string)
    ensures r == [] <==>
      bug.category == Linting || bug.category == Import || (bug.category != Syntax && bug.content == [])
    ensures bug.category == Syntax ==> EndsWith(r, ":") && StartsWith(r, bug.content)
    ensures bug.category == Indentation ==> '\t' !in r && r == ReplaceChar(bug.content, '\t', "    ")
    ensures bug.category == TypeError ==> r == bug.content
    ensures forall x :: x in r ==> x in bug.content || x == ':' || x == ' '
  {
    match bug.category
    case Linting => ""
    case Syntax => bug.content + ":"
    case Indentation => ReplaceChar(bug.content, '\t', "    ")
    case Import => ""
    case TypeError => bug.content
  }

  /**
   * An INDENTATION fix turns a tab into four spaces and keeps the text on
   * either side of it, each part fixed in turn.
   */
  lemma IndentationFixAtTab(bug: Finding, before: string, after: string)
    requires bug.category == Indentation && bug.content == before + "\t" + after
    ensures Replacement(bug) == Replacement(bug.(content := before)) + "    " + Replacement(bug.(content := after))
  {
    ReplaceCharConcat(before + "\t", after, '\t', "    ");
    ReplaceCharConcat(before, "\t", '\t', "    ");
  }

  /** The note of `generate_fix`. */
  function FixNote(bug: Finding): string
  {
    match bug.category
    case Linting => "remove the " + Lower(Description(bug.reason))
    case Syntax => "add the colon at the correct position"
    case Indentation => "replace tabs with 4 spaces"
    case Import => "remove incomplete import"
    case TypeError => "manual review required"
  }

  /** The entry `apply_fix` stores at the finding's index: "" for a deletion, else the fix and a newline. */
  function WrittenLine(replacement: string): (w: string)
    ensures w == [] <==> replacement == []
    ensures w != [] ==> w[|w| - 1] == '\n' && w[..|w| - 1] == replacement
  {
    if replacement == "" then "" else replacement + "\n"
  }

  /**
   * `apply_fix` on the file's text: read the lines, overwrite entry `line - 1`
   * and write them back. A line number past the end raises, and the edit is
   * not made.
   */
  function ApplyToText(text: string, line: LineNo, replacement: string): (r: Option<string>)
    ensures r.Some? <==> line <= |ReadLines(text)|
  {
    var lines := ReadLines(text);
    if line <= |lines| then Some(Concat(lines[line - 1 := WrittenLine(replacement)])) else None
  }

  // ---------------------------------------------------------------------------
  // What a fix looks like.

  /** A line read with `readlines` has no '\n' in its stripped text. */
  lemma StripNoNewline(l: string, last: bool)
    requires IsLine(l, last)
    ensures '\n' !in Strip(l)
  {
    StripSpec(l);
    StripEnds(l);
    var s := Strip(l);
    var off := |l| - |LStrip(l)|;
    forall i | 0 <= i < |s| ensures s[i] != '\n' {
      assert s[i] == l[off + i];
      if off + i == |l| - 1 {
        assert i == |s| - 1;
      }
    }
  }

  /** Contents of findings have neither a newline nor surrounding whitespace, and are never empty. */
  lemma ContentShape(file: Path, lines: seq<string>, f: Finding)
    requires WellFormed(lines) && f in FileFindings(file, lines)
    ensures f.content != [] && !IsSpace(f.content[0]) && !IsSpace(f.content[|f.content| - 1])
    ensures '\n' !in f.content
  {
    FileFindingsFacts(file, lines, f);
    var l := lines[f.line - 1];
    StripEnds(l);
    StripNoNewline(l, f.line - 1 == |lines| - 1);
  }

  /**
   * Every fix that keeps the line starts at the first non-blank character of
   * the old line, so the line's indentation is lost; and it never holds a
   * newline, so the rewritten entry stays a single line.
   */
  lemma FixDropsIndentation(file: Path, lines: seq<string>, f: Finding)
    requires WellFormed(lines) && f in FileFindings(file, lines)
    ensures Replacement(f) != [] <==> f.category in {Syntax, Indentation, TypeError}
    ensures Replacement(f) != [] ==> !IsSpace(Replacement(f)[0])
    ensures '\n' !in Replacement(f)
  {
    ContentShape(file, lines, f);
    var r := Replacement(f);
    if f.category == Syntax {
      assert r[0] == f.content[0];
    }
  }

  /** A line rewritten by a SYNTAX fix ends in a colon, so it is not reported as missing one. */
  lemma SyntaxFixClears(file: Path, n: LineNo, f: Finding)
    requires f.category == Syntax
    ensures !HasFor(LineFindings(file, n, WrittenLine(Replacement(f))), n, Syntax)
  {
    var r := Replacement(f);
    var w := WrittenLine(r);
    assert w == r + "\n";
    assert w[..|w| - 1] == r;
    assert RStrip(w) == r;
    LineFlags(file, n, w, Syntax);
  }

  /** A line rewritten by an INDENTATION fix of a scanned finding no longer starts with a tab. */
  lemma IndentationFixClears(file: Path, lines: seq<string>, f: Finding, n: LineNo)
    requires WellFormed(lines) && f in FileFindings(file, lines) && f.category == Indentation
    ensures !HasFor(LineFindings(file, n, WrittenLine(Replacement(f))), n, Indentation)
  {
    ContentShape(file, lines, f);
    NoLeadingTab(f.content);
    LineFlags(file, n, WrittenLine(Replacement(f)), Indentation);
  }

  lemma NoLeadingTab(content: string)
    requires content != [] && !IsSpace(content[0])
    ensures !StartsWith(WrittenLine(ReplaceChar(content, '\t', "    ")), "\t")
  {
    var r := ReplaceChar(content, '\t', "    ");
    assert r[0] == content[0];
    var w := WrittenLine(r);
    assert w == r + "\n";
    assert w[0] == r[0];
    DiffersAt(w, "\t", 0);
  }

  /** A SYNTAX finding is fixed to the stripped text of its line with a colon appended. */
  lemma SyntaxFixOfFinding(file: Path, lines: seq<string>, f: Finding)
    requires f in FileFindings(file, lines) && f.category == Syntax
    ensures 1 <= f.line <= |lines| && Replacement(f) == Strip(lines[f.line - 1]) + ":"
  {
    FileFindingsFacts(file, lines, f);
    SyntaxFix(f);
  }

  lemma SyntaxFix(f: Finding)
    requires f.category == Syntax
    ensures Replacement(f) == f.content + ":"
  {
  }

  /** `else:` already has its colon, so the SYNTAX fix of `else: x = 1` writes a second one. */
  lemma ElseFixAddsSecondColon(file: Path, lines: seq<string>, f: Finding)
    requires f in FileFindings(file, lines) && f.category == Syntax
    requires f.line <= |lines| && lines[f.line - 1] == "else: x = 1\n"
    ensures Replacement(f) == "else: x = 1:"
  {
    SyntaxFixOfFinding(file, lines, f);
    ElseFixText(lines[f.line - 1], Replacement(f));
  }

  lemma ElseFixText(line: string, fixed: string)
    requires line == "else: x = 1\n" && fixed == Strip(line) + ":"
    ensures fixed == "else: x = 1:"
  {
    ElseWithStatementLine(line);
  }

  // ---------------------------------------------------------------------------
  // Reading the file back after one fix.

  lemma ConcatDrop(a: seq<string>, b: seq<string>)
    ensures Concat(a + [""] + b) == Concat(a + b)
  {
    ConcatAppend(a + [""], b);
    ConcatAppend(a, [""]);
    ConcatAppend(a, b);
    assert Concat([""]) == "" + Concat([]);
  }

  /** A fix that keeps the line changes that one line of the re-read file and no other. */
  lemma RereadAfterEdit(text: string, line: LineNo, replacement: string)
    requires line <= |ReadLines(text)| && replacement != [] && '\n' !in replacement
    ensures ApplyToText(text, line, replacement).Some?
    ensures ReadLines(ApplyToText(text, line, replacement).value) == ReadLines(text)[line - 1 := replacement + "\n"]
  {
    var lines := ReadLines(text);
    var edited := lines[line - 1 := replacement + "\n"];
    forall i | 0 <= i < |edited| ensures IsLine(edited[i], i == |edited| - 1) {
      if i == line - 1 {
        var w := replacement + "\n";
        forall j | 0 <= j < |w| - 1 ensures w[j] != '\n' {
          assert w[j] == replacement[j];
        }
      }
    }
    ReadAfterWrite(edited);
  }

  /**
   * A deletion stores "" at the index, so the re-read file has lost that line
   * and every later line has moved up by one.
   */
  lemma RereadAfterDelete(text: string, line: LineNo)
    requires line <= |ReadLines(text)|
    ensures ApplyToText(text, line, "").Some?
    ensures ReadLines(ApplyToText(text, line, "").value) == ReadLines(text)[..line - 1] + ReadLines(text)[line..]
  {
    var lines := ReadLines(text);
    var i := line - 1;
    assert lines[i := ""] == lines[..i] + [""] + lines[i + 1..];
    ConcatDrop(lines[..i], lines[i + 1..]);
    var kept := lines[..i] + lines[i + 1..];
    forall k | 0 <= k < |kept| ensures IsLine(kept[k], k == |kept| - 1) {
      if k < i {
        assert kept[k] == lines[k];
      } else {
        assert kept[k] == lines[k + 1];
      }
    }
    ReadAfterWrite(kept);
  }
}
