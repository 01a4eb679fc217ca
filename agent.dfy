/**
 * The agent's outer loop: find the code files, scan them, fix every finding,
 * run the tests, and go round again until a scan comes back clean with the
 * tests passing or the iteration budget is spent.
 */
module Agent {
  import opened Wrappers
  import opened Text
  import opened FileSystem
  import opened Scanner
  import opened Fixes
  import opened Runner

  // ---------------------------------------------------------------------------
  // Discovery and scanning.

  const Extensions: set<string> := {".py", ".js", ".ts", ".jsx", ".tsx", ".java", ".go", ".rs", ".c", ".cpp", ".h"}

  /** Directories the walk never enters, at any depth. */
  const PrunedDirs: set<string> := {"node_modules", ".git", "__pycache__", "venv", ".venv", "dist", "build", ".idea"}

  /** A file `discover_files` keeps: under no pruned directory, with a code extension, and readable. */
  predicate Discovered(p: Path, disk: Disk) {
    && (forall d :: d in p.dirs ==> d !in PrunedDirs)
    && (exists ext :: ext in Extensions && EndsWith(p.name, ext))
    && p in disk
  }

  /** The files `discover_files` returns, in walk order. */
  function Discover(tree: seq<Path>, disk: Disk): (files: seq<Path>)
    ensures forall p :: p in files <==> p in tree && Discovered(p, disk)
    ensures |files| <= |tree|
  {
    if tree == [] then []
    else
      var last := tree[|tree| - 1];
      assert tree == tree[..|tree| - 1] + [last];
      Discover(tree[..|tree| - 1], disk) + (if Discovered(last, disk) then [last] else [])
  }

  /**
   * `sub` is `full[idx[0]], full[idx[1]], ...` with the positions strictly
   * increasing: a subsequence of `full`, in the same order.
   */
  ghost predicate PicksInOrder<T>(sub: seq<T>, full: seq<T>, idx: seq<int>) {
    && |idx| == |sub|
    && (forall k :: 0 <= k < |idx| ==> 0 <= idx[k] < |full| && sub[k] == full[idx[k]])
    && (forall k, m :: 0 <= k < m < |idx| ==> idx[k] < idx[m])
  }

  /** Extending `full` by one element, kept or not, extends the picking. */
  lemma PicksStep<T>(sub: seq<T>, full: seq<T>, idx: seq<int>, x: T, keep: bool) returns (idx': seq<int>)
    requires PicksInOrder(sub, full, idx)
    ensures PicksInOrder(sub + (if keep then [x] else []), full + [x], idx')
    ensures forall i :: i in idx' <==> i in idx || (keep && i == |full|)
    ensures forall i :: i in idx ==> 0 <= i < |full|
  {
    idx' := idx + (if keep then [|full|] else []);
    var sub' := sub + (if keep then [x] else []);
    forall k | 0 <= k < |idx'| ensures 0 <= idx'[k] < |full + [x]| && sub'[k] == (full + [x])[idx'[k]] {
      if k < |idx| {
        assert idx'[k] == idx[k] && sub'[k] == sub[k];
      }
    }
    forall i | i in idx ensures 0 <= i < |full| {
      var k :| 0 <= k < |idx| && idx[k] == i;
    }
  }

  /** The files come out in walk order: exactly the discovered positions of the walk, in increasing order. */
  lemma {:induction false} DiscoverInWalkOrder(tree: seq<Path>, disk: Disk)
    ensures exists idx :: (PicksInOrder(Discover(tree, disk), tree, idx)
                           && forall i :: i in idx <==> 0 <= i < |tree| && Discovered(tree[i], disk))
  {
    if tree == [] {
      var none: seq<int> := [];
      assert PicksInOrder(Discover(tree, disk), tree, none);
    } else {
      var prefix := tree[..|tree| - 1];
      DiscoverInWalkOrder(prefix, disk);
      var idx :| PicksInOrder(Discover(prefix, disk), prefix, idx)
        && forall i :: i in idx <==> 0 <= i < |prefix| && Discovered(prefix[i], disk);
      var idx' := DiscoverStep(tree, disk, idx);
    }
  }

  /** The positions picked from the walk without its last entry, extended by that entry's position when it is kept. */
  lemma DiscoverStep(tree: seq<Path>, disk: Disk, idx: seq<int>) returns (idx': seq<int>)
    requires tree != []
    requires PicksInOrder(Discover(tree[..|tree| - 1], disk), tree[..|tree| - 1], idx)
    requires forall i :: i in idx <==> 0 <= i < |tree| - 1 && Discovered(tree[..|tree| - 1][i], disk)
    ensures PicksInOrder(Discover(tree, disk), tree, idx')
    ensures forall i :: i in idx' <==> 0 <= i < |tree| && Discovered(tree[i], disk)
  {
    var prefix := tree[..|tree| - 1];
    var last := tree[|tree| - 1];
    var keep := Discovered(last, disk);
    idx' := PicksStep(Discover(prefix, disk), prefix, idx, last, keep);
    assert prefix + [last] == tree;
    forall i ensures i in idx' <==> 0 <= i < |tree| && Discovered(tree[i], disk) {
      if 0 <= i < |prefix| {
        assert tree[i] == prefix[i];
      }
    }
  }

  /** `analyze_file`: the findings of a readable file, and none for a file that cannot be opened. */
  function Analyze(disk: Disk, p: Path): seq<Finding>
  {
    if p in disk then FileFindings(p, ReadLines(disk[p])) else []
  }

  /** The findings of all files, file after file. */
  function ScanAll(disk: Disk, files: seq<Path>): seq<Finding>
  {
    if files == [] then [] else ScanAll(disk, files[..|files| - 1]) + Analyze(disk, files[|files| - 1])
  }

  // ---------------------------------------------------------------------------
  // De-duplication by (file, line, type).

  type BugKey = (Path, int, Category)

  function Key(f: Finding): BugKey {
    (f.file, f.line, f.category)
  }

  /** The set of keys of a finding list, as `set((file, line, type) for ...)` builds it. */
  function KeysOf(bugs: seq<Finding>): set<BugKey>
  {
    if bugs == [] then {} else KeysOf(bugs[..|bugs| - 1]) + {Key(bugs[|bugs| - 1])}
  }

  /** A key occurs in the set exactly when some finding of the list has it. */
  lemma {:induction false} KeysOfHas(bugs: seq<Finding>, i: int)
    requires 0 <= i < |bugs|
    ensures Key(bugs[i]) in KeysOf(bugs)
    decreases |bugs|
  {
    if i < |bugs| - 1 {
      var prefix := bugs[..|bugs| - 1];
      assert prefix[i] == bugs[i];
      KeysOfHas(prefix, i);
    }
  }

  /** A key that no finding of the list has is not in its set. */
  lemma {:induction false} KeysOfMissing(bugs: seq<Finding>, k: BugKey)
    requires forall i :: 0 <= i < |bugs| ==> Key(bugs[i]) != k
    ensures k !in KeysOf(bugs)
  {
    if bugs != [] {
      var prefix := bugs[..|bugs| - 1];
      assert forall i :: 0 <= i < |prefix| ==> prefix[i] == bugs[i];
      KeysOfMissing(prefix, k);
    }
  }

  /** `len(set(...))` never exceeds the number of findings. */
  lemma {:induction false} KeysOfSize(bugs: seq<Finding>)
    ensures |KeysOf(bugs)| <= |bugs|
  {
    if bugs != [] {
      KeysOfSize(bugs[..|bugs| - 1]);
    }
  }

  /** The `seen` loop of `execute`: keep each finding whose key has not been seen earlier in the list. */
  function Dedup(bugs: seq<Finding>): seq<Finding>
  {
    if bugs == [] then []
    else
      var prefix := bugs[..|bugs| - 1];
      var b := bugs[|bugs| - 1];
      if Key(b) in KeysOf(prefix) then Dedup(prefix) else Dedup(prefix) + [b]
  }

  predicate DistinctKeys(bugs: seq<Finding>) {
    forall i, j :: 0 <= i < j < |bugs| ==> Key(bugs[i]) != Key(bugs[j])
  }

  /** No earlier finding of the list has the key of finding `i`. */
  predicate FirstWithKey(bugs: seq<Finding>, i: int) {
    0 <= i < |bugs| && forall j :: 0 <= j < i ==> Key(bugs[j]) != Key(bugs[i])
  }

  lemma SnocSplit<T>(xs: seq<T>)
    requires xs != []
    ensures xs == xs[..|xs| - 1] + [xs[|xs| - 1]]
  {
  }

  /** De-duplication loses no key. */
  lemma {:induction false} DedupKeys(bugs: seq<Finding>)
    ensures KeysOf(Dedup(bugs)) == KeysOf(bugs)
  {
    if bugs != [] {
      var prefix := bugs[..|bugs| - 1];
      var b := bugs[|bugs| - 1];
      DedupKeys(prefix);
      if Key(b) !in KeysOf(prefix) {
        var rest := Dedup(prefix);
        assert (rest + [b])[..|rest|] == rest;
      }
    }
  }

  /** No two kept findings share a key. */
  lemma {:induction false} DedupDistinctKeys(bugs: seq<Finding>)
    ensures DistinctKeys(Dedup(bugs))
  {
    if bugs != [] {
      var prefix := bugs[..|bugs| - 1];
      var b := bugs[|bugs| - 1];
      var rest := Dedup(prefix);
      DedupDistinctKeys(prefix);
      if Key(b) !in KeysOf(prefix) {
        DedupKeys(prefix);
        var out := rest + [b];
        forall i, j | 0 <= i < j < |out| ensures Key(out[i]) != Key(out[j]) {
          if j == |rest| {
            KeysOfHas(rest, i);
          } else {
            assert out[i] == rest[i] && out[j] == rest[j];
          }
        }
      }
    }
  }

  /** Every kept finding comes from the input. */
  lemma {:induction false} DedupSubset(bugs: seq<Finding>, f: Finding)
    requires f in Dedup(bugs)
    ensures f in bugs
  {
    var prefix := bugs[..|bugs| - 1];
    var b := bugs[|bugs| - 1];
    SnocSplit(bugs);
    if f != b || Key(b) in KeysOf(prefix) {
      DedupSubset(prefix, f);
    }
  }

  /** The first finding with each key is kept. */
  lemma {:induction false} DedupKeepsFirst(bugs: seq<Finding>, i: int)
    requires FirstWithKey(bugs, i)
    ensures bugs[i] in Dedup(bugs)
  {
    var prefix := bugs[..|bugs| - 1];
    var b := bugs[|bugs| - 1];
    if i < |bugs| - 1 {
      assert prefix[i] == bugs[i];
      assert FirstWithKey(prefix, i) by {
        forall j | 0 <= j < i ensures Key(prefix[j]) != Key(prefix[i]) {
          assert prefix[j] == bugs[j];
        }
      }
      DedupKeepsFirst(prefix, i);
    } else {
      assert forall j :: 0 <= j < |prefix| ==> prefix[j] == bugs[j];
      KeysOfMissing(prefix, Key(b));
    }
  }

  /**
   * The kept findings keep their input order: they are exactly the findings
   * at the first position of each key, in increasing order of position.
   */
  lemma {:induction false} DedupInOrder(bugs: seq<Finding>)
    ensures exists idx :: (PicksInOrder(Dedup(bugs), bugs, idx) && forall i :: i in idx <==> FirstWithKey(bugs, i))
  {
    if bugs == [] {
      var none: seq<int> := [];
      assert PicksInOrder(Dedup(bugs), bugs, none) && forall i :: i in none <==> FirstWithKey(bugs, i);
    } else {
      var prefix := bugs[..|bugs| - 1];
      DedupInOrder(prefix);
      var idx :| PicksInOrder(Dedup(prefix), prefix, idx) && forall i :: i in idx <==> FirstWithKey(prefix, i);
      var idx' := DedupStep(bugs, idx);
    }
  }

  /** The positions kept from the list without its last finding, extended by that finding's position when its key is new. */
  lemma DedupStep(bugs: seq<Finding>, idx: seq<int>) returns (idx': seq<int>)
    requires bugs != []
    requires PicksInOrder(Dedup(bugs[..|bugs| - 1]), bugs[..|bugs| - 1], idx)
    requires forall i :: i in idx <==> FirstWithKey(bugs[..|bugs| - 1], i)
    ensures PicksInOrder(Dedup(bugs), bugs, idx')
    ensures forall i :: i in idx' <==> FirstWithKey(bugs, i)
  {
    var prefix := bugs[..|bugs| - 1];
    var b := bugs[|bugs| - 1];
    var first := Key(b) !in KeysOf(prefix);
    idx' := PicksStep(Dedup(prefix), prefix, idx, b, first);
    assert prefix + [b] == bugs;
    assert forall j :: 0 <= j < |prefix| ==> prefix[j] == bugs[j];
    forall i ensures i in idx' <==> FirstWithKey(bugs, i) {
      if 0 <= i < |prefix| {
        assert FirstWithKey(bugs, i) == FirstWithKey(prefix, i);
      } else if i == |prefix| {
        if first {
          forall j | 0 <= j < |prefix| ensures Key(prefix[j]) != Key(b) {
            KeysOfHas(prefix, j);
          }
        } else if FirstWithKey(bugs, i) {
          KeysOfMissing(prefix, Key(b));
        }
      }
    }
  }

  /** A list whose keys are already distinct passes through unchanged. */
  lemma {:induction false} DedupDistinct(bugs: seq<Finding>)
    requires DistinctKeys(bugs)
    ensures Dedup(bugs) == bugs
  {
    if bugs != [] {
      var prefix := bugs[..|bugs| - 1];
      var b := bugs[|bugs| - 1];
      assert DistinctKeys(prefix) by {
        forall i, j | 0 <= i < j < |prefix| ensures Key(prefix[i]) != Key(prefix[j]) {
          assert prefix[i] == bugs[i] && prefix[j] == bugs[j];
        }
      }
      DedupDistinct(prefix);
      assert forall j :: 0 <= j < |prefix| ==> prefix[j] == bugs[j];
      KeysOfMissing(prefix, Key(b));
      SnocSplit(bugs);
    }
  }

  // ---------------------------------------------------------------------------
  // Applying the fixes of one iteration.

  /** `apply_fix` on the repository: `None` when the file cannot be opened or the line number is past its end. */
  function ApplyToDisk(disk: Disk, bug: Finding, replacement: string): (r: Option<Disk>)
    ensures r.Some? <==> bug.file in disk && bug.line <= |ReadLines(disk[bug.file])|
    ensures r.Some? ==> r.value == disk[bug.file := ApplyToText(disk[bug.file], bug.line, replacement).value]
  {
    if bug.file !in disk then None
    else
      match ApplyToText(disk[bug.file], bug.line, replacement)
      case Some(text) => Some(disk[bug.file := text])
      case None => None
  }

  datatype FixStatus = Fixed | FixFailed

  /** One entry of `fixes_applied`. */
  datatype FixRecord = FixRecord(
    file: Path,
    bugType: Category,
    lineNumber: LineNo,
    content: string,
    commitMessage: string,
    status: FixStatus,
    fixDetail: string)

  /** `[AI-AGENT] Fix {type} in {basename} line {n}`. */
  function CommitMessage(bug: Finding): string
  {
    "[AI-AGENT] Fix " + CategoryName(bug.category) + " in " + bug.file.name + " line " + NatToString(bug.line)
  }

  /** The record names the finding it fixes, with its commit message and the fix's note. */
  predicate Describes(r: FixRecord, bug: Finding) {
    && r.file == bug.file && r.bugType == bug.category && r.lineNumber == bug.line && r.content == bug.content
    && r.commitMessage == CommitMessage(bug) && r.fixDetail == GenerateFix(bug).note
  }

  /** The record of one fix: `Fixed` exactly when the edit was made. */
  function Record(bug: Finding, applied: bool): (r: FixRecord)
    ensures Describes(r, bug)
    ensures r.status == Fixed <==> applied
  {
    var status := if applied then Fixed else FixFailed;
    FixRecord(bug.file, bug.category, bug.line, bug.content, CommitMessage(bug), status, GenerateFix(bug).note)
  }

  /**
   * The fix loop of one iteration, part one: the repository after fixing each
   * finding in order on the repository the earlier fixes left.
   */
  function FixedDisk(disk: Disk, bugs: seq<Finding>): Disk
  {
    if bugs == [] then disk
    else
      var d := FixedDisk(disk, bugs[..|bugs| - 1]);
      var bug := bugs[|bugs| - 1];
      match ApplyToDisk(d, bug, Replacement(bug))
      case Some(d') => d'
      case None => d
  }

  /** What `apply_fix` does for finding `k` of the loop: `None` when it returns `False`. */
  function Attempt(disk: Disk, bugs: seq<Finding>, k: int): Option<Disk>
    requires 0 <= k < |bugs|
  {
    ApplyToDisk(FixedDisk(disk, bugs[..k]), bugs[k], Replacement(bugs[k]))
  }

  /** The fix loop, part two: the records it appends to `fixes_applied`, one per finding. */
  function FixRecords(disk: Disk, bugs: seq<Finding>): seq<FixRecord>
  {
    if bugs == [] then []
    else FixRecords(disk, bugs[..|bugs| - 1]) + [Record(bugs[|bugs| - 1], Attempt(disk, bugs, |bugs| - 1).Some?)]
  }

  /** The fixes rewrite files in place: no file appears or disappears. */
  lemma {:induction false} ApplyAllKeys(disk: Disk, bugs: seq<Finding>)
    ensures FixedDisk(disk, bugs).Keys == disk.Keys
  {
    if bugs != [] {
      ApplyAllKeys(disk, bugs[..|bugs| - 1]);
    }
  }

  /** A file that no finding names keeps its text. */
  lemma {:induction false} ApplyAllUntouched(disk: Disk, bugs: seq<Finding>, p: Path)
    requires p in disk && forall k :: 0 <= k < |bugs| ==> bugs[k].file != p
    ensures p in FixedDisk(disk, bugs) && FixedDisk(disk, bugs)[p] == disk[p]
  {
    if bugs != [] {
      var prefix := bugs[..|bugs| - 1];
      assert forall k :: 0 <= k < |prefix| ==> prefix[k] == bugs[k];
      ApplyAllUntouched(disk, prefix, p);
    }
  }

  /** One record per finding, in order. */
  lemma {:induction false} ApplyAllLength(disk: Disk, bugs: seq<Finding>)
    ensures |FixRecords(disk, bugs)| == |bugs|
  {
    if bugs != [] {
      ApplyAllLength(disk, bugs[..|bugs| - 1]);
    }
  }

  /**
   * Record `k` is the record of finding `k`: it describes the finding and says
   * `Fixed` exactly when `apply_fix` succeeded on the repository the earlier
   * fixes left.
   */
  lemma {:induction false} ApplyAllRecord(disk: Disk, bugs: seq<Finding>, k: int)
    requires 0 <= k < |bugs|
    ensures |FixRecords(disk, bugs)| == |bugs|
    ensures FixRecords(disk, bugs)[k] == Record(bugs[k], Attempt(disk, bugs, k).Some?)
  {
    ApplyAllLength(disk, bugs);
    var prefix := bugs[..|bugs| - 1];
    FixStepRecords(disk, bugs);
    if k < |prefix| {
      ApplyAllLength(disk, prefix);
      ApplyAllRecord(disk, prefix, k);
      AttemptPrefix(disk, bugs, k);
      assert FixRecords(disk, bugs)[k] == FixRecords(disk, prefix)[k];
    } else {
      assert bugs[..k] == prefix;
    }
  }

  /** Finding `k` is attempted on the same repository whatever follows it. */
  lemma AttemptPrefix(disk: Disk, bugs: seq<Finding>, k: int)
    requires 0 <= k < |bugs| - 1
    ensures Attempt(disk, bugs, k) == Attempt(disk, bugs[..|bugs| - 1], k)
  {
    var prefix := bugs[..|bugs| - 1];
    assert prefix[k] == bugs[k] && prefix[..k] == bugs[..k];
  }

  lemma LineWithNewline(x: string)
    requires '\n' !in x
    ensures IsLine(x + "\n", false) && IsLine(x + "\n", true)
  {
    assert forall j :: 0 <= j < |x| ==> (x + "\n")[j] == x[j];
  }

  lemma ConcatTwo(a: string, b: string)
    ensures Concat([a, b]) == a + b
  {
    assert [a, b][1..] == [b];
    assert [b][1..] == [];
    assert Concat([b]) == b + [] == b;
  }

  lemma ConcatThree(a: string, b: string, c: string)
    ensures Concat([a, b, c]) == a + b + c
  {
    assert [a, b, c][1..] == [b, c];
    ConcatTwo(b, c);
  }

  lemma AppendAssoc(w: string, x: string, y: string, z: string)
    ensures (w + x) + (y + z) == w + x + y + z
  {
  }

  /**
   * Line numbers go stale within one iteration: deleting the finding on line 1
   * (an unused import, say) shifts the file up, so the fix meant for line 2
   * is written over what was line 3. Line 2 keeps its tab and line 3 is lost,
   * and both records still say `Fixed`.
   */
  lemma StaleLineNumbers(disk: Disk, p: Path, l1: string, l2: string, l3: string, bugs: seq<Finding>)
    requires '\n' !in l1 && '\n' !in l2 && '\n' !in l3
    requires disk == map[p := Concat([l1 + "\n", l2 + "\n", l3 + "\n"])]
    requires |bugs| == 2
    requires bugs[0].file == p && bugs[0].line == 1 && bugs[0].category == Linting
    requires bugs[1].file == p && bugs[1].line == 2 && bugs[1].category == Indentation && bugs[1].content != []
    ensures p in FixedDisk(disk, bugs) && FixedDisk(disk, bugs)[p] == l2 + "\n" + Replacement(bugs[1]) + "\n"
    ensures Attempt(disk, bugs, 0).Some? && Attempt(disk, bugs, 1).Some?
  {
    var a, b, c := l1 + "\n", l2 + "\n", l3 + "\n";
    LineWithNewline(l1);
    LineWithNewline(l2);
    LineWithNewline(l3);
    DeleteFirst(a, b, c);
    var first, second := bugs[0], bugs[1];
    var d1 := disk[p := b + c];
    assert bugs[..0] == [] && bugs[..1][..0] == [] && bugs[..1][0] == first;
    assert Attempt(disk, bugs, 0) == Some(d1);
    assert FixedDisk(disk, bugs[..1]) == d1;
    var fix := Replacement(second);
    ReplaceSecond(b, c, fix);
    assert Attempt(disk, bugs, 1) == Some(d1[p := b + WrittenLine(fix)]);
    assert bugs[..|bugs| - 1] == bugs[..1];
    assert WrittenLine(fix) == fix + "\n";
    AppendAssoc(l2, "\n", fix, "\n");
  }

  /** Deleting line 1 of three leaves the other two. */
  lemma DeleteFirst(a: string, b: string, c: string)
    requires WellFormed([a, b, c])
    ensures ApplyToText(Concat([a, b, c]), 1, "") == Some(b + c)
  {
    ReadAfterWrite([a, b, c]);
    assert [a, b, c][0 := WrittenLine("")] == ["", b, c];
    ConcatThree("", b, c);
    assert "" + b + c == b + c;
  }

  /** Rewriting line 2 of two keeps line 1. */
  lemma ReplaceSecond(b: string, c: string, fix: string)
    requires WellFormed([b, c])
    ensures ApplyToText(b + c, 2, fix) == Some(b + WrittenLine(fix))
  {
    ConcatTwo(b, c);
    ReadAfterWrite([b, c]);
    assert [b, c][1 := WrittenLine(fix)] == [b, WrittenLine(fix)];
    ConcatTwo(b, WrittenLine(fix));
  }

  // ---------------------------------------------------------------------------
  // Iterations.

  datatype Status = Running | Passed | Failed

  function StatusText(s: Status): string
  {
    match s
    case Running => "RUNNING"
    case Passed => "PASSED"
    case Failed => "FAILED"
  }

  /** One entry of `cicd_runs`; `output` is only set when the tests pass. */
  datatype Run = Run(iteration: int, status: Status, testsPassed: bool, errors: seq<string>, output: Option<string>)

  /** Everything outside the repository text: the walk order, the names at the root, and the test results. */
  datatype Env = Env(tree: seq<Path>, entries: set<string>, tests: (Disk, Command) -> Option<CommandResult>)

  /** `run_tests` on the repository as it is now. */
  function TestsOn(env: Env, disk: Disk): (bool, string)
  {
    RunTests(env.entries, c => env.tests(disk, c))
  }

  /** The de-duplicated findings of one iteration. */
  function Found(env: Env, disk: Disk): seq<Finding>
  {
    Dedup(ScanAll(disk, Discover(env.tree, disk)))
  }

  /** What `execute` keeps: the repository, the two public lists, and `all_bugs_found`. */
  datatype State = State(disk: Disk, fixes: seq<FixRecord>, runs: seq<Run>, bugs: seq<Finding>)

  /** The record of a run that ends on a passing test. */
  function PassedRun(run: Run, output: string): Run {
    run.(status := Passed, testsPassed := true, output := Some(output))
  }

  /** The record of a run that ends on a failing test. */
  function FailedRun(run: Run, output: string): Run {
    run.(status := Failed, testsPassed := false, errors := run.errors + [output])
  }

  /** The record an iteration starts with. */
  function Started(i: int): Run {
    Run(i, Running, false, [], None)
  }

  /** Iteration number `i`: the new state, and whether the loop stops after it. */
  function Iteration(env: Env, s: State, i: int): (State, bool)
  {
    var found := Found(env, s.disk);
    if found == [] && TestsOn(env, s.disk).0 then
      (s.(runs := s.runs + [PassedRun(Started(i), TestsOn(env, s.disk).1)]), true)
    else
      var checked := if found == [] then FailedRun(Started(i), TestsOn(env, s.disk).1) else Started(i);
      (Repair(env, s, found, checked), false)
  }

  /** The rest of an iteration that does not stop: fix what was found, then run the tests again. */
  function Repair(env: Env, s: State, found: seq<Finding>, checked: Run): State
  {
    var disk := FixedDisk(s.disk, found);
    var (passed, output) := TestsOn(env, disk);
    var run := if passed then PassedRun(checked, output) else FailedRun(checked, output);
    State(disk, s.fixes + FixRecords(s.disk, found), s.runs + [run], s.bugs + found)
  }

  /** The loop of `execute` from `done` finished iterations: the final state and `total_iterations`. */
  function Execution(env: Env, s: State, done: nat, max: int): (State, nat)
    decreases max - done
  {
    if done >= max then (s, done)
    else
      var (next, stop) := Iteration(env, s, done + 1);
      if stop then (next, done + 1) else Execution(env, next, done + 1, max)
  }

  /** A finished run record: never left `RUNNING`, and `tests_passed` agrees with the status. */
  predicate Settled(run: Run) {
    run.status != Running && (run.testsPassed <==> run.status == Passed)
  }

  /** Settled run records numbered consecutively from `first`. */
  predicate Numbered(runs: seq<Run>, first: int) {
    forall j :: 0 <= j < |runs| ==> runs[j].iteration == first + j && Settled(runs[j])
  }

  /** Each fix record describes the finding at the same position of `all_bugs_found`. */
  predicate Aligned(s: State) {
    |s.fixes| == |s.bugs| && forall k :: 0 <= k < |s.bugs| ==> Describes(s.fixes[k], s.bugs[k])
  }

  /** One iteration appends exactly one settled run record, numbered `i`, and leaves the earlier ones alone. */
  lemma IterationRun(env: Env, s: State, i: int)
    ensures var t := Iteration(env, s, i).0;
      && |t.runs| == |s.runs| + 1 && t.runs[..|s.runs|] == s.runs
      && t.runs[|s.runs|].iteration == i && Settled(t.runs[|s.runs|])
  {
    var t := Iteration(env, s, i).0;
    assert t.runs[..|s.runs|] == s.runs;
  }

  /**
   * The loop stops after an iteration exactly when it found nothing and its
   * first test run passed; that iteration changes nothing but the run list,
   * and its record is `PASSED`.
   */
  lemma IterationStop(env: Env, s: State, i: int)
    ensures var (t, stop) := Iteration(env, s, i);
      && (stop <==> Found(env, s.disk) == [] && TestsOn(env, s.disk).0)
      && (stop ==> t.disk == s.disk && t.fixes == s.fixes && t.bugs == s.bugs && t.runs[|s.runs|].status == Passed)
  {
  }

  /**
   * An iteration that goes on to fix: the repository is the fix loop's result,
   * and the findings and their records are appended in the same order.
   */
  lemma IterationFixes(env: Env, s: State, i: int)
    ensures var (t, stop) := Iteration(env, s, i);
      var found := Found(env, s.disk);
      !stop ==> && t.disk == FixedDisk(s.disk, found)
                && t.fixes == s.fixes + FixRecords(s.disk, found)
                && t.bugs == s.bugs + found
  {
  }

  /**
   * With nothing found and a failing first test run, the tests run a second
   * time on the unchanged repository: the same output is recorded twice and
   * the loop goes on.
   */
  lemma ZeroBugFailure(env: Env, s: State, i: int)
    requires Found(env, s.disk) == [] && !TestsOn(env, s.disk).0
    ensures var (t, stop) := Iteration(env, s, i);
      var out := TestsOn(env, s.disk).1;
      && !stop && t.disk == s.disk && t.fixes == s.fixes && t.bugs == s.bugs
      && t.runs == s.runs + [Run(i, Failed, false, [out, out], None)]
  {
    assert FixedDisk(s.disk, []) == s.disk && FixRecords(s.disk, []) == [];
    assert s.fixes + [] == s.fixes && s.bugs + [] == s.bugs;
    var out := TestsOn(env, s.disk).1;
    assert [] + [out] + [out] == [out, out];
  }

  /** An iteration keeps the fix records aligned with the findings. */
  lemma {:induction false} IterationAligned(env: Env, s: State, i: int)
    requires Aligned(s)
    ensures Aligned(Iteration(env, s, i).0)
  {
    var (t, stop) := Iteration(env, s, i);
    IterationStop(env, s, i);
    if !stop {
      var found := Found(env, s.disk);
      IterationFixes(env, s, i);
      var records := FixRecords(s.disk, found);
      ApplyAllLength(s.disk, found);
      forall k | 0 <= k < |t.bugs| ensures Describes(t.fixes[k], t.bugs[k]) {
        if k < |s.bugs| {
          assert t.fixes[k] == s.fixes[k] && t.bugs[k] == s.bugs[k];
        } else {
          ApplyAllRecord(s.disk, found, k - |s.bugs|);
          assert t.fixes[k] == records[k - |s.bugs|] && t.bugs[k] == found[k - |s.bugs|];
        }
      }
    }
  }

  lemma NumberedCons(run: Run, rest: seq<Run>, first: int)
    requires run.iteration == first && Settled(run) && Numbered(rest, first + 1)
    ensures Numbered([run] + rest, first)
  {
    var all := [run] + rest;
    forall j | 0 <= j < |all| ensures all[j].iteration == first + j && Settled(all[j]) {
      if j > 0 {
        assert all[j] == rest[j - 1];
      }
    }
  }

  lemma SuffixCons<T>(xs: seq<T>, n: int)
    requires 0 <= n < |xs|
    ensures xs[n..] == [xs[n]] + xs[n + 1..]
  {
  }

  lemma PrefixOfPrefix<T>(xs: seq<T>, ys: seq<T>, n: int)
    requires 0 <= n <= |ys| <= |xs| && xs[..|ys|] == ys
    ensures xs[..n] == ys[..n]
  {
    assert xs[..n] == xs[..|ys|][..n];
  }

  /**
   * `total_iterations` counts the iterations run: it never falls below the
   * starting count, never passes `max_iterations` once below it, and nothing
   * happens when the bound is already reached.
   */
  lemma {:induction false} ExecutionCount(env: Env, s: State, done: nat, max: int)
    ensures var (r, n) := Execution(env, s, done, max);
      && done <= n
      && (done < max ==> n <= max)
      && (done >= max ==> r == s && n == done)
    decreases max - done
  {
    if done < max {
      var (next, stop) := Iteration(env, s, done + 1);
      if !stop {
        ExecutionCount(env, next, done + 1, max);
      }
    }
  }

  /** One settled run record per iteration, numbered `done + 1` onwards, after the records already there. */
  lemma {:induction false} ExecutionRuns(env: Env, s: State, done: nat, max: int)
    ensures var (r, n) := Execution(env, s, done, max);
      && |s.runs| <= |r.runs| && r.runs[..|s.runs|] == s.runs
      && |r.runs| - |s.runs| == n - done && Numbered(r.runs[|s.runs|..], done + 1)
    decreases max - done
  {
    ExecutionCount(env, s, done, max);
    if done < max {
      var (next, stop) := Iteration(env, s, done + 1);
      IterationRun(env, s, done + 1);
      var run := next.runs[|s.runs|];
      if stop {
        assert next.runs[|s.runs|..] == [run];
      } else {
        ExecutionRuns(env, next, done + 1, max);
        var r := Execution(env, next, done + 1, max).0;
        PrefixOfPrefix(r.runs, next.runs, |s.runs|);
        assert r.runs[|s.runs|] == run;
        SuffixCons(r.runs, |s.runs|);
        NumberedCons(run, r.runs[|s.runs| + 1..], done + 1);
      }
    }
  }

  /** Nothing left to find, the tests pass, and the last run record says `PASSED`. */
  predicate Halted(env: Env, r: State) {
    && Found(env, r.disk) == [] && TestsOn(env, r.disk).0
    && r.runs != [] && r.runs[|r.runs| - 1].status == Passed
  }

  /** An iteration that stops leaves the loop halted. */
  lemma StopHalts(env: Env, s: State, i: int)
    ensures Iteration(env, s, i).1 ==> Halted(env, Iteration(env, s, i).0)
  {
    IterationStop(env, s, i);
    IterationRun(env, s, i);
  }

  /**
   * The loop ends before `max_iterations` only on an iteration that found
   * nothing on the final repository and whose first test run passed; its
   * record is the last one and says `PASSED`.
   */
  lemma {:induction false} ExecutionStop(env: Env, s: State, done: nat, max: int)
    requires done < max
    ensures var (r, n) := Execution(env, s, done, max); n < max ==> Halted(env, r)
    decreases max - done
  {
    var (next, stop) := Iteration(env, s, done + 1);
    StopHalts(env, s, done + 1);
    if !stop && done + 1 < max {
      ExecutionStop(env, next, done + 1, max);
    } else if !stop {
      ExecutionCount(env, next, done + 1, max);
    }
  }

  /** The loop keeps every fix record aligned with its finding. */
  lemma {:induction false} ExecutionAligned(env: Env, s: State, done: nat, max: int)
    requires Aligned(s)
    ensures Aligned(Execution(env, s, done, max).0)
    decreases max - done
  {
    if done < max {
      var (next, stop) := Iteration(env, s, done + 1);
      IterationAligned(env, s, done + 1);
      if !stop {
        ExecutionAligned(env, next, done + 1, max);
      }
    }
  }

  /** The state of a freshly built agent on repository `disk`. */
  function Fresh(disk: Disk): State {
    State(disk, [], [], [])
  }

  /**
   * `execute` on a fresh agent: at most `max_iterations` iterations (none when
   * it is not positive), one settled record per iteration numbered from 1,
   * one fix record per finding, so `unique_bugs` is at most the number of fixes.
   */
  lemma ExecuteFresh(env: Env, disk: Disk, max: int)
    ensures var (r, n) := Execution(env, Fresh(disk), 0, max);
      && (max <= 0 ==> n == 0 && r == Fresh(disk))
      && (max > 0 ==> n <= max)
      && |r.runs| == n && Numbered(r.runs, 1)
      && Aligned(r)
      && |KeysOf(r.bugs)| <= |r.fixes|
  {
    var (r, n) := Execution(env, Fresh(disk), 0, max);
    ExecutionCount(env, Fresh(disk), 0, max);
    ExecutionRuns(env, Fresh(disk), 0, max);
    assert r.runs[0..] == r.runs;
    ExecutionAligned(env, Fresh(disk), 0, max);
    KeysOfSize(r.bugs);
  }

  /** What `execute` returns. */
  datatype Summary = Summary(totalIterations: nat, fixes: seq<FixRecord>, cicdRuns: seq<Run>, uniqueBugs: nat)

  /** The `seen` loop of `execute`: the first finding for each (file, line, type), in order. */
  method RemoveDuplicates(bugs: seq<Finding>) returns (unique: seq<Finding>)
    ensures unique == Dedup(bugs)
  {
    unique := [];
    var seen: set<BugKey> := {};
    var i := 0;
    while i < |bugs|
      invariant 0 <= i <= |bugs|
      invariant unique == Dedup(bugs[..i]) && seen == KeysOf(bugs[..i])
    {
      var key := Key(bugs[i]);
      assert bugs[..i + 1][..i] == bugs[..i];
      if key !in seen {
        seen := seen + {key};
        unique := unique + [bugs[i]];
      }
      i := i + 1;
    }
    assert bugs[..|bugs|] == bugs;
  }

  /**
   * The agent on one repository. The walk order, the names at the root and
   * the test results are fixed when it is made; the repository text and the
   * two public lists change as it runs.
   */
  class CodeAgent {
    const tree: seq<Path>
    const entries: set<string>
    const tests: (Disk, Command) -> Option<CommandResult>
    var disk: Disk
    var fixesApplied: seq<FixRecord>
    var cicdRuns: seq<Run>

    constructor(tree: seq<Path>, entries: set<string>, tests: (Disk, Command) -> Option<CommandResult>, disk: Disk)
      ensures this.tree == tree && this.entries == entries && this.tests == tests
      ensures this.disk == disk && fixesApplied == [] && cicdRuns == []
    {
      this.tree := tree;
      this.entries := entries;
      this.tests := tests;
      this.disk := disk;
      fixesApplied := [];
      cicdRuns := [];
    }

    function Environment(): Env {
      Env(tree, entries, tests)
    }

    /** The agent's state together with the `all_bugs_found` list of a running `execute`. */
    function Snapshot(bugs: seq<Finding>): State
      reads this
    {
      State(disk, fixesApplied, cicdRuns, bugs)
    }

    /** `discover_files`: walk the tree and keep the readable code files outside pruned directories. */
    method DiscoverFiles() returns (files: seq<Path>)
      ensures files == Discover(tree, disk)
    {
      files := [];
      var k := 0;
      while k < |tree|
        invariant 0 <= k <= |tree|
        invariant files == Discover(tree[..k], disk)
      {
        var p := tree[k];
        assert tree[..k + 1][..k] == tree[..k];
        if (forall d :: d in p.dirs ==> d !in PrunedDirs) && (exists ext :: ext in Extensions && EndsWith(p.name, ext)) && p in disk {
          files := files + [p];
        }
        k := k + 1;
      }
      assert tree[..|tree|] == tree;
    }

    /** `analyze_file`: scan a readable file line by line; a file that cannot be opened has no findings. */
    method AnalyzeFile(p: Path) returns (bugs: seq<Finding>)
      ensures bugs == Analyze(disk, p)
    {
      if p !in disk {
        return [];
      }
      bugs := AnalyzeLines(p, ReadLines(disk[p]));
    }

    /** Discover, scan every file, and drop the repeated (file, line, type) findings. */
    method Scan() returns (found: seq<Finding>)
      ensures found == Found(Environment(), disk)
    {
      var files := DiscoverFiles();
      var current := [];
      var k := 0;
      while k < |files|
        invariant 0 <= k <= |files|
        invariant current == ScanAll(disk, files[..k])
      {
        var bugs := AnalyzeFile(files[k]);
        assert files[..k + 1][..k] == files[..k];
        current := current + bugs;
        k := k + 1;
      }
      assert files[..|files|] == files;
      found := RemoveDuplicates(current);
    }

    /** `apply_fix`: overwrite entry `line - 1` of the file's lines and write them back; `false` when that fails. */
    method ApplyFix(bug: Finding, fix: string) returns (ok: bool)
      modifies this
      ensures ok <==> ApplyToDisk(old(disk), bug, fix).Some?
      ensures disk == if ok then ApplyToDisk(old(disk), bug, fix).value else old(disk)
      ensures fixesApplied == old(fixesApplied) && cicdRuns == old(cicdRuns)
    {
      if bug.file !in disk {
        return false;
      }
      var lines := ReadLines(disk[bug.file]);
      var index := bug.line - 1;
      if index >= |lines| {
        return false;
      }
      lines := lines[index := WrittenLine(fix)];
      disk := disk[bug.file := Concat(lines)];
      ok := true;
    }

    /** One turn of the fix loop: `generate_fix`, `apply_fix`, and the record of the outcome. */
    method FixOne(bug: Finding)
      modifies this
      ensures var out := ApplyToDisk(old(disk), bug, Replacement(bug));
        && disk == (if out.Some? then out.value else old(disk))
        && fixesApplied == old(fixesApplied) + [Record(bug, out.Some?)]
        && cicdRuns == old(cicdRuns)
    {
      var ok := ApplyFix(bug, GenerateFix(bug).replacement);
      fixesApplied := fixesApplied + [Record(bug, ok)];
    }

    /** The fix loop of one iteration: fix each finding in order and record the outcome. */
    method FixAll(bugs: seq<Finding>)
      modifies this
      ensures disk == FixedDisk(old(disk), bugs)
      ensures fixesApplied == old(fixesApplied) + FixRecords(old(disk), bugs)
      ensures cicdRuns == old(cicdRuns)
    {
      var i := 0;
      while i < |bugs|
        invariant 0 <= i <= |bugs|
        invariant disk == FixedDisk(old(disk), bugs[..i])
        invariant fixesApplied == old(fixesApplied) + FixRecords(old(disk), bugs[..i])
        invariant cicdRuns == old(cicdRuns)
      {
        ghost var done := FixRecords(old(disk), bugs[..i]);
        ghost var out := ApplyToDisk(disk, bugs[i], Replacement(bugs[i]));
        FixStep(old(disk), bugs, i);
        FixOne(bugs[i]);
        SeqAssoc(old(fixesApplied), done, [Record(bugs[i], out.Some?)]);
        i := i + 1;
      }
      assert bugs[..|bugs|] == bugs;
    }

    /** Iteration `i` of `execute`, with `all_bugs_found` passed in and out; `stop` is its `break`. */
    method Iterate(i: int, allBugs: seq<Finding>) returns (bugs: seq<Finding>, stop: bool)
      modifies this
      ensures (Snapshot(bugs), stop) == Iteration(Environment(), old(Snapshot(allBugs)), i)
    {
      ghost var s := Snapshot(allBugs);
      cicdRuns := cicdRuns + [Started(i)];
      var current := Scan();
      bugs := allBugs;
      var checked := Started(i);
      if current == [] {
        var (passed, output) := TestsOn(Environment(), disk);
        if passed {
          SnocUpdate(s.runs, Started(i), PassedRun(Started(i), output));
          cicdRuns := cicdRuns[|cicdRuns| - 1 := PassedRun(Started(i), output)];
          return bugs, true;
        }
        checked := FailedRun(Started(i), output);
        cicdRuns := cicdRuns[|cicdRuns| - 1 := checked];
      }
      bugs := bugs + current;
      Recheck(current, checked, s);
      stop := false;
    }

    /** Fix what was found, rerun the tests and settle the run record. */
    method Recheck(found: seq<Finding>, checked: Run, ghost s: State)
      requires disk == s.disk && fixesApplied == s.fixes && cicdRuns == s.runs + [checked]
      modifies this
      ensures Snapshot(s.bugs + found) == Repair(Environment(), s, found, checked)
    {
      FixAll(found);
      var (passed, output) := TestsOn(Environment(), disk);
      var run := if passed then PassedRun(checked, output) else FailedRun(checked, output);
      SnocUpdate(s.runs, checked, run);
      cicdRuns := cicdRuns[|cicdRuns| - 1 := run];
    }

    /** `execute`: iterate until a clean scan with passing tests, or `max_iterations` iterations. */
    method Execute(max: int) returns (summary: Summary)
      modifies this
      ensures var (r, n) := Execution(Environment(), old(Snapshot([])), 0, max);
        && disk == r.disk && fixesApplied == r.fixes && cicdRuns == r.runs
        && summary == Summary(n, r.fixes, r.runs, |KeysOf(r.bugs)|)
    {
      var target := Execution(Environment(), Snapshot([]), 0, max);
      var iteration: nat := 0;
      var allBugs: seq<Finding> := [];
      var stop := false;
      while iteration < max && !stop
        invariant !stop ==> Execution(Environment(), Snapshot(allBugs), iteration, max) == target
        invariant stop ==> (Snapshot(allBugs), iteration) == target
        decreases max - iteration
      {
        iteration := iteration + 1;
        allBugs, stop := Iterate(iteration, allBugs);
      }
      summary := Summary(iteration, fixesApplied, cicdRuns, |KeysOf(allBugs)|);
    }
  }

  lemma SeqAssoc<T>(a: seq<T>, b: seq<T>, c: seq<T>)
    ensures (a + b) + c == a + (b + c)
  {
  }

  lemma SnocUpdate<T>(xs: seq<T>, x: T, y: T)
    ensures (xs + [x])[|xs| := y] == xs + [y]
  {
  }

  /** One turn of the fix loop extends both halves of the loop's result by the finding at `i`. */
  lemma FixStep(disk: Disk, bugs: seq<Finding>, i: int)
    requires 0 <= i < |bugs|
    ensures var d := FixedDisk(disk, bugs[..i]);
      var out := ApplyToDisk(d, bugs[i], Replacement(bugs[i]));
      && FixedDisk(disk, bugs[..i + 1]) == (if out.Some? then out.value else d)
      && FixRecords(disk, bugs[..i + 1]) == FixRecords(disk, bugs[..i]) + [Record(bugs[i], out.Some?)]
  {
    var prefix := bugs[..i + 1];
    assert prefix[..i] == bugs[..i] && prefix[i] == bugs[i];
    FixStepDisk(disk, prefix);
    FixStepRecords(disk, prefix);
  }

  lemma FixStepDisk(disk: Disk, bugs: seq<Finding>)
    requires bugs != []
    ensures var d := FixedDisk(disk, bugs[..|bugs| - 1]);
      var out := ApplyToDisk(d, bugs[|bugs| - 1], Replacement(bugs[|bugs| - 1]));
      FixedDisk(disk, bugs) == (if out.Some? then out.value else d)
  {
  }

  lemma FixStepRecords(disk: Disk, bugs: seq<Finding>)
    requires bugs != []
    ensures var d := FixedDisk(disk, bugs[..|bugs| - 1]);
      var out := ApplyToDisk(d, bugs[|bugs| - 1], Replacement(bugs[|bugs| - 1]));
      FixRecords(disk, bugs) == FixRecords(disk, bugs[..|bugs| - 1]) + [Record(bugs[|bugs| - 1], out.Some?)]
  {
  }
}
