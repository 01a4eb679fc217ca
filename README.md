# Autonomous DevOps Agent — a Dafny model of its repair loop

The Autonomous DevOps Agent takes a GitHub repository and repeats the same steps:

- It scans every code file line by line for a small set of "bugs":
  - a statement keyword without its colon;
  - a leading tab;
  - an unused import, a debug `print`, a confused comprehension or an incomplete import.
- It rewrites or deletes each offending line.
- It runs the project's tests.

It goes round again until a scan comes back clean with the tests passing, or until its iteration budget is spent. It then pushes a branch named after the team and reports the outcome.

This project models that core:

- **`Scanner`** models `CodeAgent.analyze_file` (backend/agent_logic.py).
  - Its line rules are written out as predicates, one for each regular expression of the LINTING, TYPE_ERROR and IMPORT tables.
  - `FileFindings` is the specification of one scan.
  - `AnalyzeLines` is the source's nested loops, with their `existing` look-ups, proved equal to it.
- **`Fixes`** models `generate_fix`, and `apply_fix` as an edit of a file's text.
  - The text is read with `readlines` and written with `writelines`; `FileSystem` models both.
- **`Runner`** models `detect_language` and the decision logic of `run_tests`. The result of each test command is an input.
- **`Agent`** models the rest of the agent:
  - `discover_files`, the per-iteration de-duplication, the fix loop and the `execute` loop, as specification functions (`Discover`, `Dedup`, `FixedDisk`/`FixRecords`, `Iteration`, `Execution`);
  - the class `CodeAgent`, whose fields (`disk`, `fixesApplied`, `cicdRuns`) its methods update in place. Each method is proved to leave exactly the state its specification function gives.
- **`Web`** models the pure helpers of the two HTTP entry points, `backend/main.py` and `api/index.py`. The two files are near-identical copies; `Entry` names the copy where they differ.
  - filename sanitising;
  - owner/repository extraction;
  - the clone guard;
  - token precedence and the token-source label;
  - request validation;
  - the branch name;
  - push-failure classification and messages;
  - the `rstrip('.git')` link quirk;
  - the branch-URL fallback;
  - the reported CI status;
  - the CORS origin list.
- **`Text`**, **`FileSystem`** and **`Wrappers`** hold the Python string operations the source relies on, the file-as-text model and `Option`.

Several behaviours of the code are stated as lemmas rather than smoothed over:

- **Deleted lines are removed.** A LINTING or IMPORT fix writes an empty entry back with `writelines`, so the physical line disappears. Later fixes in the same iteration then use stale line numbers: `Agent.StaleLineNumbers` shows the second fix landing on the wrong line.
- **Bare keywords carry their colon.** `else:`, `try:` and `finally:` include their colon, so a line holding only `else`, `try` or `finally` is never flagged, while `else: x = 1` is flagged and "fixed" to `else: x = 1:`.
- **A clean scan with failing tests runs the tests twice.** Both outputs are recorded, and the loop continues.
- **`replace('.git', '')` deletes `.git` anywhere** in the URL.
- **`rstrip('.git')` strips a character set.** It removes any trailing run of `.`, `g`, `i` and `t`, not the suffix `.git`.

## Model

| member | source | states |
|---|---|---|
| `FileSystem.ReadLines` | backend/agent_logic.py:108-109 | `readlines` splits a text into lines, each ending in its only newline except possibly the last; joined again they give back the text |
| `FileSystem.ReadAfterWrite` | backend/agent_logic.py:196-205 | writing well-formed lines with `writelines` and reading them back with `readlines` gives the same lines |
| `Text.RStripChars` | backend/main.py:413 | `rstrip(chars)` returns a prefix of its input; every removed character is in the set, and the kept part does not end in one |
| `Text.Split` | backend/main.py:212 | `split(sep)` returns at least one part, and no part contains the separator; joined with the separator the parts give back the input; there are two or more parts exactly when the separator occurs |
| `Text.ReplaceChar` | backend/main.py:509 | `replace(c, t)`: the one-character input `c` becomes `t` and any other one-character input is kept; an input without `c` is unchanged; when `t` lacks `c` the result lacks it too; every character of the result comes from the input or `t`; for a one-character `t` the length is kept and each position holds `t` where the input had `c` and the input's character elsewhere |
| `Text.ReplaceCharConcat` | backend/agent_logic.py:183 | replacing in a concatenation is replacing in each part; with the one-character cases of `ReplaceChar` this fixes the result for every input |
| `Scanner.AnalyzeLines` | backend/agent_logic.py:110-166 | the nested loops over lines, keywords and pattern tables, with their `existing` duplicate checks, produce exactly the specified findings of the file |
| `Scanner.Existing` | backend/agent_logic.py:123-124 | the `existing` scan is non-empty exactly when a finding with that line and category was already recorded |
| `Scanner.FileFindings` | backend/agent_logic.py:110-164 | the findings of one file, line after line; the specification `AnalyzeLines` is proved equal to, characterised by `FileFindingsFacts`, `FileFlags`, `FileFindingsOrdered` and `FileFindingsReason` |
| `Scanner.FileFindingsFacts` | backend/agent_logic.py:110-114 | every finding has a 1-based line number within the file; its content is that line stripped; the line is neither blank nor a comment |
| `Scanner.FileFlags` | backend/agent_logic.py:117-160 | a line carries a finding of a category exactly when the line is scanned and the category's rule flags it: for SYNTAX, a colon keyword opens the line, the right-stripped line does not end in `:`, and the line has no `#`; for INDENTATION, the line starts with a tab; for each table, one of its patterns matches |
| `Scanner.FileFindingsOrdered` | backend/agent_logic.py:117-164 | findings come in line order, and within a line in the order SYNTAX, INDENTATION, LINTING, TYPE_ERROR, IMPORT; no two findings share a line and a category |
| `Scanner.FileFindingsReason` | backend/agent_logic.py:117-164 | the description and pattern a finding records come from the first colon keyword, or the first table pattern in list order, that matches its line |
| `Scanner.BareOpenerNotFlagged` | backend/agent_logic.py:104-121 | a line that strips to `else`, `try` or `finally`, at any indentation and with or without its newline, gets no SYNTAX finding, because the keywords looked for are `else:`, `try:` and `finally:` |
| `Scanner.ElseWithStatementFlagged` | backend/agent_logic.py:117-121 | `else: x = 1` gets a SYNTAX finding: it opens with `else:` and does not end in a colon |
| `Scanner.HashSuppressesColonCheck` | backend/agent_logic.py:120 | any line containing a `#` anywhere, even inside a string, gets no SYNTAX finding |
| `Scanner.UnquotedImportNotFlagged` | backend/agent_logic.py:17 | `import os` without quotes matches none of the LINTING patterns, which expect a quote after `import ` |
| `Scanner.LintingShapes` | backend/agent_logic.py:16-25 | a LINTING finding needs a quote right after `import `, a `from os import` prefix, or a `print(...)` call on the line |
| `Fixes.Replacement` | backend/agent_logic.py:170-188 | LINTING and IMPORT fixes are empty (deletions); SYNTAX appends `:` to the content; INDENTATION is `replace('\t', '    ')` of the content and leaves no tab; TYPE_ERROR keeps the content unchanged; every character of a fix comes from the content, a colon or a space |
| `Fixes.IndentationFixAtTab` | backend/agent_logic.py:182-183 | at each tab of the content the INDENTATION fix puts four spaces and fixes the text on either side independently |
| `Fixes.GenerateFix` | backend/agent_logic.py:170-188 | the pair `generate_fix` returns: the replacement line of `Replacement` and the note of `FixNote`; no contract of its own |
| `Fixes.FixNote` | backend/agent_logic.py:175-188 | the note for each category, the LINTING one built from the lower-cased description; no contract of its own, it is used by `Agent.Record` |
| `Fixes.FixDropsIndentation` | backend/agent_logic.py:170-188 | for a finding of a scan, the fix is non-empty exactly for SYNTAX, INDENTATION and TYPE_ERROR, never starts with whitespace, and contains no newline |
| `Fixes.ContentShape` | backend/agent_logic.py:112 | a finding's content is non-empty, has no whitespace at either end, and has no newline |
| `Fixes.SyntaxFixClears` | backend/agent_logic.py:178-180 | the line a SYNTAX fix writes is never flagged for SYNTAX again |
| `Fixes.IndentationFixClears` | backend/agent_logic.py:182-183 | the line an INDENTATION fix writes is never flagged for INDENTATION again |
| `Fixes.SyntaxFixOfFinding` | backend/agent_logic.py:178-180 | a SYNTAX finding of a scan is fixed to its line's stripped text plus a colon |
| `Fixes.ElseFixAddsSecondColon` | backend/agent_logic.py:178-180 | the SYNTAX finding of an `else: x = 1` line is "fixed" to `else: x = 1:` |
| `Fixes.WrittenLine` | backend/agent_logic.py:199-202 | an empty fix stores an empty entry; any other fix is stored with one newline after it |
| `Fixes.ApplyToText` | backend/agent_logic.py:190-210 | the edit succeeds exactly when the line number is within the file's lines |
| `Fixes.RereadAfterEdit` | backend/agent_logic.py:196-205 | after a non-empty fix, reading the file back gives the old lines with only entry `line - 1` replaced by the fix and a newline |
| `Fixes.RereadAfterDelete` | backend/agent_logic.py:198-205 | after an empty fix, reading the file back gives the old lines without entry `line - 1`: every later line moves up by one |
| `Runner.DetectLanguage` | backend/agent_logic.py:212-227 | `detect_language` on the names at the root; its meaning is stated by `DetectLanguageByPrecedence` |
| `Runner.RunTests` | backend/agent_logic.py:229-265 | `run_tests`'s verdict and output from the result of each command; its meaning is stated by `RunTestsVerdict` and `RunTestsUsesChosenOnly` |
| `Runner.DetectLanguageByPrecedence` | backend/agent_logic.py:212-227 | the language is the first, in the order package.json, Python markers, pom.xml, go.mod, Cargo.toml, whose marker exists; Unknown exactly when none does |
| `Runner.ChosenCommand` | backend/agent_logic.py:229-262 | no test command is started exactly for Java, Go, Rust and Unknown |
| `Runner.RunTestsVerdict` | backend/agent_logic.py:229-265 | the tests fail exactly when the chosen command ran and exited non-zero; the failure output is its stderr for the syntax check, else stdout, a newline and stderr |
| `Runner.RunTestsUsesChosenOnly` | backend/agent_logic.py:229-265 | the verdict depends only on the result of the one command chosen |
| `Agent.Discover` | backend/agent_logic.py:75-96 | a file is returned exactly when it is in the walk, lies under no pruned directory, has one of the code extensions and can be read |
| `Agent.DiscoverInWalkOrder` | backend/agent_logic.py:75-96 | the files come out in walk order: they are the walk's entries at a strictly increasing list of positions, and a position is in that list exactly when its entry is discovered |
| `Agent.CodeAgent.DiscoverFiles` | backend/agent_logic.py:75-96 | the walk loop returns `Discover` of the walk and the current repository, whose membership and order `Discover` and `DiscoverInWalkOrder` state |
| `Agent.CodeAgent.AnalyzeFile` | backend/agent_logic.py:98-168 | the findings of a readable file are its scan; a file that cannot be read gives none |
| `Agent.CodeAgent.Scan` | backend/agent_logic.py:290-309 | the discovery, analysis and de-duplication steps give the iteration's findings |
| `Agent.Dedup` | backend/agent_logic.py:300-309 | the specification of the `seen` loop; characterised by `DedupInOrder`, `DedupKeys`, `DedupDistinctKeys`, `DedupKeepsFirst`, `DedupSubset` and `DedupDistinct` |
| `Agent.RemoveDuplicates` | backend/agent_logic.py:300-309 | the loop with its `seen` set returns `Dedup` of its input |
| `Agent.DedupInOrder` | backend/agent_logic.py:300-309 | the kept findings are the input's findings at a strictly increasing list of positions, and a position is in that list exactly when no earlier finding has its (file, line, type) key |
| `Agent.DedupKeys` | backend/agent_logic.py:300-309 | de-duplication keeps every key that occurs |
| `Agent.DedupDistinctKeys` | backend/agent_logic.py:300-309 | after de-duplication no two findings share a key |
| `Agent.DedupKeepsFirst` | backend/agent_logic.py:300-309 | the first finding with each key survives |
| `Agent.DedupSubset` | backend/agent_logic.py:300-309 | every kept finding was among the input |
| `Agent.DedupDistinct` | backend/agent_logic.py:300-309 | a list whose keys are already distinct is left unchanged |
| `Agent.KeysOfSize` | backend/agent_logic.py:372 | there are no more distinct keys than findings |
| `Agent.ApplyToDisk` | backend/agent_logic.py:190-210 | `apply_fix` succeeds exactly when the file exists and the line is within it; then only that file changes, to the edited text |
| `Agent.CodeAgent.ApplyFix` | backend/agent_logic.py:190-210 | returns true exactly when the edit can be made; the repository is then edited in place, and otherwise unchanged; the two lists are untouched |
| `Agent.Record` | backend/agent_logic.py:341-349 | a fix record names the finding's file, type, line and content, with its commit message and fix note; its status is Fixed exactly when the fix was applied |
| `Agent.CodeAgent.FixOne` | backend/agent_logic.py:333-349 | one pass of the fix loop: generate, apply, and append one record |
| `Agent.CodeAgent.FixAll` | backend/agent_logic.py:333-349 | the fix loop leaves the repository and the records the specification of the whole loop gives |
| `Agent.FixedDisk` | backend/agent_logic.py:333-349 | the repository after the fix loop, each fix applied to what the earlier ones left; characterised by `ApplyAllKeys`, `ApplyAllUntouched` and `ApplyAllRecord` |
| `Agent.FixRecords` | backend/agent_logic.py:333-349 | the records the fix loop appends; characterised by `ApplyAllLength` and `ApplyAllRecord` |
| `Agent.ApplyAllKeys` | backend/agent_logic.py:333-349 | fixes rewrite files in place: the set of files is unchanged |
| `Agent.ApplyAllUntouched` | backend/agent_logic.py:333-349 | a file no finding names keeps its text |
| `Agent.ApplyAllLength` | backend/agent_logic.py:333-349 | the loop appends exactly one record per finding |
| `Agent.ApplyAllRecord` | backend/agent_logic.py:333-349 | record `k` describes finding `k`, with status Fixed exactly when its edit, made on the repository the earlier fixes left, succeeded |
| `Agent.StaleLineNumbers` | backend/agent_logic.py:198-200 | after a LINTING deletion of line 1, the INDENTATION fix meant for line 2 overwrites the old line 3; both edits report success |
| `Agent.Iteration` | backend/agent_logic.py:277-366 | one pass of the `while` body, and whether it breaks; characterised by `IterationRun`, `IterationStop`, `IterationFixes`, `ZeroBugFailure` and `IterationAligned` |
| `Agent.Repair` | backend/agent_logic.py:329-366 | the fix-and-retest half of a pass that does not break; characterised through `IterationFixes` and `IterationRun` |
| `Agent.Execution` | backend/agent_logic.py:271-372 | the whole loop up to the budget; characterised by `ExecutionCount`, `ExecutionRuns`, `ExecutionStop`, `ExecutionAligned` and `ExecuteFresh` |
| `Agent.IterationRun` | backend/agent_logic.py:276-283 | each iteration appends exactly one run record, numbered by the iteration, that ends PASSED or FAILED with `tests_passed` agreeing; earlier records are unchanged |
| `Agent.IterationStop` | backend/agent_logic.py:311-321 | the loop stops exactly after a scan with no findings whose tests pass; nothing but the run list changes then, and the run is PASSED |
| `Agent.IterationFixes` | backend/agent_logic.py:328-349 | an iteration that does not stop applies every finding's fix and appends its records and its findings |
| `Agent.ZeroBugFailure` | backend/agent_logic.py:322-366 | a clean scan whose tests fail leaves the repository alone, runs the tests again, records both outputs as errors, and does not stop |
| `Agent.IterationAligned` | backend/agent_logic.py:328-349 | an iteration keeps each fix record describing the finding at the same position of the accumulated findings |
| `Agent.ExecutionCount` | backend/agent_logic.py:271-276 | the loop never runs more iterations than the budget; with the budget spent it changes nothing |
| `Agent.ExecutionRuns` | backend/agent_logic.py:276-283 | the loop keeps the earlier run records and adds one settled record per iteration, numbered consecutively |
| `Agent.ExecutionStop` | backend/agent_logic.py:311-321 | a loop that ends before its budget ends on a clean scan whose tests passed |
| `Agent.ExecutionAligned` | backend/agent_logic.py:328-349 | fix records stay aligned with the accumulated findings over the whole loop |
| `Agent.ExecuteFresh` | backend/agent_logic.py:271-372 | for a fresh agent: zero iterations and nothing changed when the budget is at most 0, otherwise at most the budget; one run record per iteration numbered from 1; `unique_bugs` is at most the number of fix records |
| `Agent.CodeAgent.constructor` | backend/agent_logic.py:9-13 | a new agent starts with no fix records and no run records |
| `Agent.CodeAgent.Iterate` | backend/agent_logic.py:277-366 | one pass of the `while` body leaves the agent in the state the specification of an iteration gives, and reports whether the loop breaks |
| `Agent.CodeAgent.Recheck` | backend/agent_logic.py:351-366 | the test run after the fixes settles the current run record as the specification says |
| `Agent.CodeAgent.Execute` | backend/agent_logic.py:271-372 | the loop leaves the repository, `fixes_applied` and `cicd_runs` as the specification of the whole loop gives, and returns `total_iterations`, the two lists and the number of distinct (file, line, type) keys |
| `Web.ServedIterations` | backend/main.py:494 | the backend entry point runs at least one and at most 5 iterations (at most 3 serverless) |
| `Web.SanitizeFilename` | backend/main.py:102-104 | the length is kept; each forbidden character `<>:"/\|?*` becomes `_`, and every other character stays; no forbidden character is left |
| `Web.SanitizeIdempotent` | api/index.py:91-93 | sanitising twice is sanitising once |
| `Web.LocalRepoName` | backend/main.py:512-513 | the local directory name contains none of the characters `sanitize_filename` replaces (`<>:"/\|?*`), so in particular no `/` and no `:` |
| `Web.UrlParts` | backend/main.py:212 | after trailing `/` are removed and every `.git` is deleted, the segments contain no `/`; there are two or more exactly when a `/` remains |
| `Web.RepoInfo` | backend/main.py:210-215 | no owner and repository exactly when no `/` remains after the trailing ones are removed; otherwise the last two segments, neither containing `/` |
| `Web.GitDeletedEverywhere` | api/index.py:198-203 | `.git` is deleted inside a name too: `o/a.gitx` gives owner `o` and repository `ax` |
| `Web.CloneTarget` | api/index.py:99-104 | the clone guard passes only non-empty owner and repository names |
| `Web.CloneTargetAgrees` | backend/main.py:106-115 | the clone guard passes exactly the URLs for which `get_repo_info_from_url` finds two non-empty segments, and it finds the same ones |
| `Web.GithubToken` | backend/main.py:36-51 | the request's token if non-empty, else the environment's; empty only when both are |
| `Web.TokenPrecedence` | backend/main.py:497-505 | the token-source label follows the same order: user token exactly when the request has one, environment exactly when only the environment has one, none when the token is empty |
| `Web.Validate` | backend/main.py:487-491 | a missing field is rejected first with 400 "All fields are required"; a request is accepted exactly when all fields are present and the URL starts with `http://` or `https://`; every rejection is a 400 |
| `Web.BranchPart` | backend/main.py:509 | a name in the branch has the name's length; each space becomes `_` and every other character is upper-cased; no space is left |
| `Web.BranchName` | api/index.py:463 | the branch is `TEAM_LEADER_AI_Fix`: it starts with the team part and `_`, the leader part fills the positions between that and `_AI_Fix`, it ends with `_AI_Fix`, its length is the two names' lengths plus 8, and it has no spaces |
| `Web.ClassifyPush` | backend/main.py:419-429 | an empty token gives the credentials message; otherwise `404` or `not found` gives not-found; only then `Permission denied` or `403` gives the permission message |
| `Web.NotFoundBeforePermission` | api/index.py:390-393 | an error text saying both `403` and `not found` is reported as a missing repository |
| `Web.PushMessage` | backend/main.py:419-429 | the message for each failure kind; its meaning is stated by `PushMessageCarriesError` |
| `Web.PushOutcome` | backend/main.py:406-429 | a link exactly when the push exited 0, and then it is the push link with "Successfully pushed"; on failure the message is the one for the kind `ClassifyPush` reads from stderr, with stderr as the error text, or from stdout when stderr is empty; without a token that message ends with the error text |
| `Web.PushLink` | backend/main.py:410-413 | the link after a successful push: the fork's branch page for a user token, else the URL through `rstrip('.git')`; never empty for a validated URL (`PushLinkNonEmpty`) |
| `Web.ErrorText` | backend/main.py:416 | the push's stderr when there is any, else its stdout; `PushOutcome` states that this text is what the failure is classified on and what its message carries |
| `Web.PushLinkNonEmpty` | backend/main.py:410-413 | the link after a successful push to a validated URL is never empty, since `rstrip('.git')` keeps at least the scheme |
| `Web.PushReported` | backend/main.py:577-586 | for a validated URL the status reads "Pushed successfully" exactly when the push went through, the branch URL is then the push link, and otherwise the status ends with the push's message |
| `Web.PushMessageCarriesError` | api/index.py:386-395 | only the credentials and generic messages carry the error text, at their end; the generic one is `Push failed: ` and the error |
| `Web.RStripGitQuirk` | backend/main.py:413 | `https://github.com/acme/tooling.git` loses `g.git` and becomes `https://github.com/acme/toolin` |
| `Web.RStripAppended` | backend/main.py:602 | appending characters from the stripped set never changes what `rstrip` returns |
| `Web.BranchUrl` | backend/main.py:590-604 | a non-empty push link is always the branch URL |
| `Web.FallbackWithoutToken` | api/index.py:533-543 | without a push link or a user token, the branch URL is the `rstrip('.git')` of the URL, not a branch page |
| `Web.PushStatus` | backend/main.py:578-586 | `push_status` from the push link and message; its meaning is stated by `PushStatusWording` |
| `Web.PushStatusWording` | api/index.py:519-529 | the push status is "Pushed successfully" exactly when there is a push link; otherwise it ends with the push message |
| `Web.CicdStatus` | backend/main.py:609-611 | the status of the last run record, PASSED with none; its meaning after `execute` is stated by `CicdStatusAfterExecute` |
| `Web.CicdStatusAfterExecute` | backend/main.py:609-611 | after `execute`, the reported status is PASSED or FAILED, never RUNNING; PASSED whenever the loop ended early; FAILED only after the whole budget was used |
| `Web.AllowedOrigins` | api/index.py:21-27 | both localhost origins are always allowed; the Vercel origin is present exactly when `VERCEL_URL` is set; no entry is empty |
| `Web.NoWildcard` | api/index.py:29-31 | the list is never empty, so the `["*"]` fallback is never used |

## Left out

- Subprocesses are left out. The `pytest`, `py_compile` and `npm test` runs are not modelled, and neither are their timeouts. Each command's result is an input: a function from the repository and the command to an optional result. So two runs on the same repository give the same result, and flaky tests are not modelled.
- File I/O is modelled as text:
  - The repository is a map from paths to file text.
  - `os.walk` is its order of paths, given as an input.
  - The `f.read(1)` readability probe is membership in the map.
  - Encoding errors, `errors='ignore'` and newline translation are not modelled.
  - Exceptions from `open` are covered only through a path missing from the map.
- Timestamps are left out: `get_timestamp`, `time.time`, `time.sleep` and the `round`ed duration. Run records carry no timestamp.
- Printing is left out.
- The regular-expression engine is not modelled. Each pattern of the LINTING, TYPE_ERROR and IMPORT tables is a hand-written predicate for that one pattern.
- Character classes are approximated:
  - `\w` is ASCII letters, digits and `_` (`\s`, `strip()` and `isspace()` use the full whitespace set of `str.isspace`, written out in `Text.IsSpace`);
  - `upper()`/`lower()` change only ASCII letters.
- The SYNTAX and INDENTATION tables of `bug_patterns` are never consulted by `analyze_file`, so they are not modelled as matchers.
- The Git and GitHub plumbing is left out:
  - clone with branch fallback, ZIP download and extraction, `force_delete_directory` and temporary directories;
  - the `git` steps of `commit_and_push` (remote set-up, status, commit, push). Whether the push exited 0 and what it printed are inputs of `Web.PushOutcome`;
  - `fork_repository` and `get_authenticated_user`, which are network clients. The user the GitHub API reports is a parameter of `Web.BranchUrl`.
- The framework glue is left out: the FastAPI app and its endpoints `/` and `/health`, the registration of the CORS middleware, the `results.json` write and `uvicorn`.
- An absent `github_token` in the request body is the empty string. The source treats `None` and `""` alike.
- The two entry points' `execute` calls run on a fresh agent; `Web.ServedIterations` and `Web.CicdStatusAfterExecute` state that case.
- ReplaceAll: its contract only states which characters survive. The exact result of deleting every `.git` is pinned by `Web.GitDeletedEverywhere` on a concrete URL, not for all inputs.
- BranchUrl: its contract states only the push-link case. The fallbacks are stated by `Web.FallbackWithoutToken` and by the function's definition.
