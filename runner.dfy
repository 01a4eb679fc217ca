/**
 * How the agent picks a test command from the files at the repository root,
 * and what it concludes from the command's result. The command is not run
 * here: its result (or `None` when it could not be started or timed out) is
 * an input.
 */
module Runner {
  import opened Wrappers

  datatype Language = JavaScript | Python | Java | Go | Rust | Unknown

  /** The string `detect_language` returns. */
  function LanguageName(l: Language): string
  {
    match l
    case JavaScript => "JavaScript/TypeScript"
    case Python => "Python"
    case Java => "Java"
    case Go => "Go"
    case Rust => "Rust"
    case Unknown => "Unknown"
  }

  /** The marker files of each language, in the order they are looked for. */
  const Markers: seq<(Language, set<string>)> := [
    (JavaScript, {"package.json"}),
    (Python, {"requirements.txt", "setup.py", "pyproject.toml"}),
    (Java, {"pom.xml"}),
    (Go, {"go.mod"}),
    (Rust, {"Cargo.toml"})]

  /** `detect_language`, given the names that exist at the repository root. */
  function DetectLanguage(entries: set<string>): Language
  {
    if "package.json" in entries then JavaScript
    else if "requirements.txt" in entries || "setup.py" in entries || "pyproject.toml" in entries then Python
    else if "pom.xml" in entries then Java
    else if "go.mod" in entries then Go
    else if "Cargo.toml" in entries then Rust
    else Unknown
  }

  /**
   * The detected language is the first one in `Markers` that has a marker at
   * the root, and Unknown exactly when no language has one.
   */
  lemma DetectLanguageByPrecedence(entries: set<string>)
    ensures DetectLanguage(entries) == Unknown <==>
      forall i :: 0 <= i < |Markers| ==> Markers[i].1 !! entries
    ensures DetectLanguage(entries) != Unknown ==>
      exists i :: 0 <= i < |Markers| && Markers[i].0 == DetectLanguage(entries) && !(Markers[i].1 !! entries) &&
                  forall j :: 0 <= j < i ==> Markers[j].1 !! entries
  {
    var lang := DetectLanguage(entries);
    var m := Markers;
    if lang == Unknown {
      forall i | 0 <= i < |m| ensures m[i].1 !! entries {
        assert i == 0 || i == 1 || i == 2 || i == 3 || i == 4;
      }
    } else {
      var i := if lang == JavaScript then 0 else if lang == Python then 1 else if lang == Java then 2
        else if lang == Go then 3 else 4;
      if i == 0 {
        assert "package.json" in m[0].1 * entries;
      } else if i == 1 {
        var x :| x in entries && x in {"requirements.txt", "setup.py", "pyproject.toml"};
        assert x in m[1].1 * entries;
      } else if i == 2 {
        assert "pom.xml" in m[2].1 * entries;
      } else if i == 3 {
        assert "go.mod" in m[3].1 * entries;
      } else {
        assert "Cargo.toml" in m[4].1 * entries;
      }
      assert Markers[i].0 == lang && !(Markers[i].1 !! entries);
      assert "package.json" in entries ==> lang == JavaScript;
    }
  }

  datatype Command = Pytest | PyCompile | NpmTest

  /** The shell line each command stands for. */
  function CommandLine(c: Command): string
  {
    match c
    case Pytest => "python -m pytest -v --tb=short 2>&1"
    case PyCompile => "python -m py_compile . 2>&1"
    case NpmTest => "npm test -- --passWithNoTests 2>&1"
  }

  /** What a finished command reports. */
  datatype CommandResult = CommandResult(returncode: int, stdout: string, stderr: string)

  /** Names at the root that make a Python project use pytest. */
  const PytestMarkers: set<string> := {"pytest.ini", "setup.py", "pyproject.toml", "tests", "test"}

  const NoTests := "No tests found - assumed pass"

  /**
   * `run_tests`: the verdict and the output, given the root entries and the
   * result each command would have.
   */
  function RunTests(entries: set<string>, run: Command -> Option<CommandResult>): (bool, string)
  {
    match DetectLanguage(entries)
    case Python =>
      if !(PytestMarkers !! entries) then
        (match run(Pytest)
         case Some(res) =>
           if res.returncode == 0 then (true, "All tests passed") else (false, res.stdout + "\n" + res.stderr)
         case None => (true, "No test runner found"))
      else
        (match run(PyCompile)
         case Some(res) => if res.returncode != 0 then (false, res.stderr) else (true, NoTests)
         case None => (true, NoTests))
    case JavaScript =>
      if "package.json" in entries then
        (match run(NpmTest)
         case Some(res) =>
           if res.returncode == 0 then (true, "All tests passed") else (false, res.stdout + "\n" + res.stderr)
         case None => (true, NoTests))
      else (true, NoTests)
    case _ => (true, NoTests)
  }

  /** The one command `run_tests` starts, if any. */
  function ChosenCommand(entries: set<string>): (c: Option<Command>)
    ensures c.None? <==> DetectLanguage(entries) in {Java, Go, Rust, Unknown}
  {
    match DetectLanguage(entries)
    case Python => if !(PytestMarkers !! entries) then Some(Pytest) else Some(PyCompile)
    case JavaScript => Some(NpmTest)
    case _ => None
  }

  /**
   * The tests fail exactly when the chosen command ran and exited non-zero;
   * the failure output is the command's stderr, after its stdout unless it was
   * the syntax check.
   */
  lemma RunTestsVerdict(entries: set<string>, run: Command -> Option<CommandResult>)
    ensures !RunTests(entries, run).0 <==>
      ChosenCommand(entries).Some? && run(ChosenCommand(entries).value).Some? &&
      run(ChosenCommand(entries).value).value.returncode != 0
    ensures !RunTests(entries, run).0 ==>
      var res := run(ChosenCommand(entries).value).value;
      RunTests(entries, run).1 ==
        if ChosenCommand(entries).value == PyCompile then res.stderr else res.stdout + "\n" + res.stderr
  {
  }

  /** The verdict depends on nothing but the result of the chosen command. */
  lemma RunTestsUsesChosenOnly(entries: set<string>, run1: Command -> Option<CommandResult>,
                               run2: Command -> Option<CommandResult>)
    requires ChosenCommand(entries).Some? ==> run1(ChosenCommand(entries).value) == run2(ChosenCommand(entries).value)
    ensures RunTests(entries, run1) == RunTests(entries, run2)
  {
  }
}
