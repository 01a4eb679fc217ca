/**
 * The repository on disk as the agent sees it: each readable file is its
 * decoded text, read with `readlines()` (lines keep their trailing '\n') and
 * written back with `writelines()` (plain concatenation).
 */
module FileSystem {

  /** A path relative to the repository root: its directories, then its file name. */
  datatype Path = Path(dirs: seq<string>, name: string)

  /** The text of every readable file in the repository. */
  type Disk = map<Path, string>

  /** `writelines(lines)`: the file text is the lines one after the other. */
  function Concat(lines: seq<string>): string
  {
    if lines == [] then [] else lines[0] + Concat(lines[1..])
  }

  /** One entry of a `readlines()` result: not empty, '\n' only as its last character, and that one required unless it is the file's last line. */
  predicate IsLine(l: string, last: bool) {
    && l != []
    && (forall j :: 0 <= j < |l| - 1 ==> l[j] != '\n')
    && (!last ==> l[|l| - 1] == '\n')
  }

  predicate WellFormed(lines: seq<string>) {
    forall i :: 0 <= i < |lines| ==> IsLine(lines[i], i == |lines| - 1)
  }

  /** The position of the first '\n' of `t`, or `|t|` when there is none. */
  function NewlineIndex(t: string): (k: nat)
    ensures k <= |t|
    ensures k < |t| ==> t[k] == '\n'
    ensures forall j :: 0 <= j < k ==> t[j] != '\n'
  {
    if t == [] || t[0] == '\n' then 0 else 1 + NewlineIndex(t[1..])
  }

  /** `readlines()`: cut the text after every '\n'; the pieces are well formed and put back together give the text. */
  function ReadLines(text: string): (lines: seq<string>)
    ensures WellFormed(lines)
    ensures Concat(lines) == text
    decreases |text|
  {
    if text == [] then []
    else
      var k := NewlineIndex(text);
      if k == |text| then [text]
      else
        var rest := ReadLines(text[k + 1..]);
        var lines := [text[..k + 1]] + rest;
        assert lines[1..] == rest;
        assert text == text[..k + 1] + text[k + 1..];
        assert forall i :: 1 <= i < |lines| ==> lines[i] == rest[i - 1];
        lines
  }

  lemma ConcatAppend(a: seq<string>, b: seq<string>)
    ensures Concat(a + b) == Concat(a) + Concat(b)
  {
    if a == [] {
      assert a + b == b;
    } else {
      assert (a + b)[1..] == a[1..] + b;
      ConcatAppend(a[1..], b);
    }
  }

  /** Reading back what `writelines` wrote gives the same lines, as long as they are well formed. */
  lemma {:induction false} ReadAfterWrite(lines: seq<string>)
    requires WellFormed(lines)
    ensures ReadLines(Concat(lines)) == lines
    decreases |lines|
  {
    if lines != [] {
      var l := lines[0];
      var rest := lines[1..];
      var t := Concat(lines);
      assert t == l + Concat(rest);
      assert IsLine(l, |lines| == 1);
      assert forall i :: 0 <= i < |rest| ==> rest[i] == lines[i + 1];
      assert WellFormed(rest);
      var k := NewlineIndex(t);
      if l[|l| - 1] == '\n' {
        assert t[|l| - 1] == '\n';
        assert forall j :: 0 <= j < |l| - 1 ==> t[j] == l[j];
        assert k == |l| - 1;
        assert t[..k + 1] == l;
        assert t[k + 1..] == Concat(rest);
        ReadAfterWrite(rest);
      } else {
        assert rest == [];
        assert t == l;
        assert forall j :: 0 <= j < |l| ==> t[j] != '\n';
        assert k == |t|;
      }
    }
  }
}
