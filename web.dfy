/**
 * The small pure helpers of the two HTTP entry points: the local server
 * (`backend/main.py`) and the serverless function (`api/index.py`). They are
 * near-identical copies; where they differ, `Entry` says which one is meant.
 */
module Web {
  import opened Wrappers
  import opened Text
  import opened FileSystem
  import opened Agent

  datatype Entry = Backend | Serverless

  /** The fixed `max_iterations` each entry point hands to `execute`. */
  function MaxIterations(e: Entry): int
  {
    match e
    case Backend => 5
    case Serverless => 3
  }

  /** An entry point runs the agent at least once and never for more than its budget of iterations. */
  lemma ServedIterations(e: Entry, env: Env, disk: Disk)
    ensures 1 <= Execution(env, Fresh(disk), 0, MaxIterations(e)).1 <= MaxIterations(e) <= 5
  {
    var max := MaxIterations(e);
    ExecuteFresh(env, disk, max);
    var (next, stop) := Iteration(env, Fresh(disk), 1);
    if !stop {
      ExecutionCount(env, next, 1, max);
    }
  }

  // ---------------------------------------------------------------------------
  // File names.

  /** The characters `sanitize_filename` replaces. */
  const Forbidden: set<char> := {'<', '>', ':', '"', '/', '\\', '|', '?', '*'}

  function SanitizeChar(c: char): char {
    if c in Forbidden then '_' else c
  }

  /** `sanitize_filename`: each forbidden character becomes `_`, every other one stays. */
  function SanitizeFilename(name: string): (r: string)
    ensures |r| == |name|
    ensures forall i :: 0 <= i < |name| ==> r[i] == SanitizeChar(name[i])
    ensures forall c :: c in r ==> c !in Forbidden
  {
    if name == [] then [] else [SanitizeChar(name[0])] + SanitizeFilename(name[1..])
  }

  /** A name without forbidden characters passes through unchanged. */
  lemma SanitizeClean(name: string)
    requires forall c :: c in name ==> c !in Forbidden
    ensures SanitizeFilename(name) == name
  {
    var r := SanitizeFilename(name);
    assert forall i :: 0 <= i < |name| ==> r[i] == name[i] by {
      forall i | 0 <= i < |name| ensures r[i] == name[i] {
        assert name[i] in name;
      }
    }
  }

  /** Sanitising twice is sanitising once. */
  lemma SanitizeIdempotent(name: string)
    ensures SanitizeFilename(SanitizeFilename(name)) == SanitizeFilename(name)
  {
    SanitizeClean(SanitizeFilename(name));
  }

  /** The directory name `analyze_repo` clones into: the last `/` segment, without `.git`, sanitised. */
  function LocalRepoName(url: string): (r: string)
    ensures '/' !in r && ':' !in r
    ensures forall c :: c in r ==> c !in Forbidden
  {
    var parts := Split(url, '/');
    SanitizeFilename(ReplaceAll(parts[|parts| - 1], ".git", ""))
  }

  // ---------------------------------------------------------------------------
  // Owner and repository from a URL.

  /** What `get_repo_info_from_url` and `clone_with_token` split: trailing `/` dropped, every `.git` deleted. */
  function UrlParts(url: string): (parts: seq<string>)
    ensures |parts| >= 1
    ensures forall i :: 0 <= i < |parts| ==> '/' !in parts[i]
    ensures |parts| >= 2 <==> '/' in RStripChars(url, {'/'})
  {
    var trimmed := RStripChars(url, {'/'});
    Split(ReplaceAll(trimmed, ".git", ""), '/')
  }

  /** `get_repo_info_from_url`: the last two segments, or `(None, None)` when there is only one. */
  function RepoInfo(url: string): (r: Option<(string, string)>)
    ensures r.None? <==> '/' !in RStripChars(url, {'/'})
    ensures r.Some? ==> '/' !in r.value.0 && '/' !in r.value.1
    ensures r.Some? ==> var parts := UrlParts(url); r.value == (parts[|parts| - 2], parts[|parts| - 1])
  {
    var parts := UrlParts(url);
    if |parts| >= 2 then Some((parts[|parts| - 2], parts[|parts| - 1])) else None
  }

  /**
   * The guard at the top of `clone_with_token`: `None` where it returns
   * `(False, "Invalid repository URL")` before any clone is tried.
   */
  function CloneTarget(url: string): (r: Option<(string, string)>)
    ensures r.Some? ==> r.value.0 != "" && r.value.1 != ""
  {
    var parts := UrlParts(url);
    var owner := if |parts| >= 2 then parts[|parts| - 2] else "";
    var repo := parts[|parts| - 1];
    if owner == "" || repo == "" then None else Some((owner, repo))
  }

  /** The guard lets a URL through exactly when `get_repo_info_from_url` finds two non-empty segments, and gives the same ones. */
  lemma CloneTargetAgrees(url: string)
    ensures CloneTarget(url).Some? <==> RepoInfo(url).Some? && RepoInfo(url).value.0 != "" && RepoInfo(url).value.1 != ""
    ensures CloneTarget(url).Some? ==> CloneTarget(url) == RepoInfo(url)
  {
  }

  /** `.git` is deleted wherever it occurs, not only as a suffix: `o/a.gitx` names repository `ax`. */
  lemma GitDeletedEverywhere(url: string)
    requires url == "o/a.gitx"
    ensures RepoInfo(url) == Some(("o", "ax"))
  {
    assert url[|url| - 1] == 'x';
    assert RStripChars(url, {'/'}) == url;
    DeleteGit(url);
    SplitTwo("o/ax");
  }

  lemma DeleteGit(url: string)
    requires url == "o/a.gitx"
    ensures ReplaceAll(url, ".git", "") == "o/ax"
  {
    assert url[..4] != ".git" && url[1..][..4] != ".git" && url[2..][..4] != ".git";
    assert url[3..][..4] == ".git" && url[3..][4..] == "x";
    assert url[1..][1..] == url[2..] && url[2..][1..] == url[3..];
    calc {
      ReplaceAll(url, ".git", "");
      "o" + ReplaceAll(url[1..], ".git", "");
      "o" + ("/" + ReplaceAll(url[2..], ".git", ""));
      "o" + ("/" + ("a" + ReplaceAll(url[3..], ".git", "")));
      "o" + ("/" + ("a" + ("" + ReplaceAll("x", ".git", ""))));
    }
  }

  lemma SplitTwo(s: string)
    requires s == "o/ax"
    ensures Split(s, '/') == ["o", "ax"]
  {
    var ax := s[2..];
    assert s[1..][1..] == ax && ax == "ax" && ax[1..] == "x" && ax[1..][1..] == "";
    assert Split(ax[1..][1..], '/') == [""];
    assert Split(ax[1..], '/') == ["x"];
    assert Split(ax, '/') == ["ax"];
    var rest := Split(s[1..], '/');
    assert s[1..][0] == '/';
    assert rest == [[]] + ["ax"] == ["", "ax"];
    assert rest[1..] == ["ax"] && |rest| == 2;
    assert [s[0]] + rest[0] == "o";
    assert Split(s, '/') == [[s[0]] + rest[0]] + rest[1..];
  }

  // ---------------------------------------------------------------------------
  // Tokens.

  /** `get_github_token`: the request's token, else `GITHUB_TOKEN`, else empty. */
  function GithubToken(request: string, environment: string): (t: string)
    ensures t == "" <==> request == "" && environment == ""
    ensures request != "" ==> t == request
    ensures request == "" ==> t == environment
  {
    if request != "" then request else if environment != "" then environment else ""
  }

  datatype TokenSource = UserToken | EnvironmentToken | NoToken

  /** `is_user_token` and the `token_source` chain of `analyze_repo`. */
  function SourceOf(request: string, token: string): TokenSource
  {
    if request != "" then UserToken else if token != "" then EnvironmentToken else NoToken
  }

  function SourceLabel(s: TokenSource): string
  {
    match s
    case UserToken => "User provided token"
    case EnvironmentToken => "Environment variable (GITHUB_TOKEN)"
    case NoToken => "No token - pushing directly to original repository"
  }

  /** The label follows the same three-way order as the token itself. */
  lemma TokenPrecedence(request: string, environment: string)
    ensures var t := GithubToken(request, environment);
      && (SourceOf(request, t) == UserToken <==> request != "")
      && (SourceOf(request, t) == EnvironmentToken <==> request == "" && environment != "" && t == environment)
      && (SourceOf(request, t) == NoToken <==> t == "")
  {
  }

  // ---------------------------------------------------------------------------
  // Requests.

  /** The body of `POST /analyze`; an absent token is the empty string. */
  datatype Request = Request(repoUrl: string, teamName: string, leaderName: string, githubToken: string)

  datatype HttpError = HttpError(status: int, detail: string)

  /** The two checks at the top of `analyze_repo`, in order. */
  function Validate(req: Request): (r: Option<HttpError>)
    ensures r.Some? ==> r.value.status == 400
    ensures r == Some(HttpError(400, "All fields are required")) <==>
      req.repoUrl == "" || req.teamName == "" || req.leaderName == ""
    ensures r == None <==>
      && req.repoUrl != "" && req.teamName != "" && req.leaderName != ""
      && (StartsWith(req.repoUrl, "http://") || StartsWith(req.repoUrl, "https://"))
  {
    if req.repoUrl == "" || req.teamName == "" || req.leaderName == "" then
      Some(HttpError(400, "All fields are required"))
    else if !StartsWith(req.repoUrl, "http://") && !StartsWith(req.repoUrl, "https://") then
      Some(HttpError(400, "Invalid repository URL"))
    else None
  }

  /** A name in the branch: upper case, spaces turned into `_`, nothing else changed. */
  function BranchPart(name: string): (r: string)
    ensures ' ' !in r
    ensures |r| == |name|
    ensures forall i :: 0 <= i < |name| ==> r[i] == if name[i] == ' ' then '_' else UpperChar(name[i])
  {
    ReplaceChar(Upper(name), ' ', "_")
  }

  /** `TEAM_LEADER_AI_Fix`. */
  function BranchName(team: string, leader: string): (b: string)
    ensures ' ' !in b
    ensures EndsWith(b, "_AI_Fix")
    ensures StartsWith(b, BranchPart(team) + "_")
    ensures |b| == |team| + |leader| + 8
    ensures b[|team| + 1 .. |b| - 7] == BranchPart(leader)
  {
    var b := BranchPart(team) + "_" + BranchPart(leader) + "_AI_Fix";
    assert b[|b| - 7..] == "_AI_Fix";
    assert b[..|BranchPart(team) + "_"|] == BranchPart(team) + "_";
    b
  }

  // ---------------------------------------------------------------------------
  // Pushing.

  /** What `git push` printed: standard error when there is any, else standard output. */
  function ErrorText(stderr: string, stdout: string): string
  {
    if stderr != "" then stderr else stdout
  }

  datatype PushFailure = NoCredentials | RepoNotFound | NoPermission | OtherFailure

  /** The failure branch of `commit_and_push`, checked in order. */
  function ClassifyPush(token: string, error: string): (k: PushFailure)
    ensures k == NoCredentials <==> token == ""
    ensures k == RepoNotFound <==> token != "" && (Occurs("404", error) || Occurs("not found", error))
    ensures k == NoPermission <==>
      && token != "" && !Occurs("404", error) && !Occurs("not found", error)
      && (Occurs("Permission denied", error) || Occurs("403", error))
  {
    if token == "" then NoCredentials
    else if Occurs("404", error) || Occurs("not found", error) then RepoNotFound
    else if Occurs("Permission denied", error) || Occurs("403", error) then NoPermission
    else OtherFailure
  }

  /** The message `commit_and_push` returns for a failed push. */
  function PushMessage(k: PushFailure, targetOwner: string, originalOwner: string, repo: string, error: string): string
  {
    match k
    case NoCredentials =>
      "Push to " + targetOwner + "/" + repo
        + " failed. You may need to provide GitHub credentials or a valid GitHub token. Error: " + error
    case RepoNotFound =>
      "Repository not found in " + targetOwner + "'s account. Please fork the repository first: https://github.com/"
        + originalOwner + "/" + repo + "/fork"
    case NoPermission =>
      "Permission denied. Make sure your token has push access to " + targetOwner + "/" + repo
    case OtherFailure => "Push failed: " + error
  }

  /** Only the first and the last kind of message carry the error text; the last is nothing but it. */
  lemma PushMessageCarriesError(k: PushFailure, targetOwner: string, originalOwner: string, repo: string, error: string)
    ensures k == NoCredentials || k == OtherFailure ==> EndsWith(PushMessage(k, targetOwner, originalOwner, repo, error), error)
    ensures k == OtherFailure ==> PushMessage(k, targetOwner, originalOwner, repo, error) == "Push failed: " + error
  {
    var m := PushMessage(k, targetOwner, originalOwner, repo, error);
    if k == NoCredentials || k == OtherFailure {
      assert m[|m| - |error|..] == error;
    }
  }

  /** A 403 whose text also says "not found" is reported as a missing repository: the not-found check comes first. */
  lemma NotFoundBeforePermission(token: string, error: string)
    requires token != "" && error == "403 not found"
    ensures ClassifyPush(token, error) == RepoNotFound
  {
    assert StartsWith(error[4..], "not found");
    assert error[1..][1..] == error[2..] && error[2..][1..] == error[3..] && error[3..][1..] == error[4..];
    assert Occurs("not found", error[3..]);
    assert Occurs("not found", error[2..]);
    assert Occurs("not found", error[1..]);
  }

  /** `"https://" + owner + ...` for the branch page on GitHub. */
  function TreeUrl(owner: string, repo: string, branch: string): string
  {
    "https://github.com/" + owner + "/" + repo + "/tree/" + branch
  }

  /** The characters `rstrip('.git')` removes. */
  const GitChars: set<char> := {'.', 'g', 'i', 't'}

  /** The link after a successful push: the fork's branch for a user token, else the URL passed through `rstrip('.git')`. */
  function PushLink(isUserToken: bool, targetOwner: string, repo: string, branch: string, url: string): string
  {
    if isUserToken then TreeUrl(targetOwner, repo, branch) else RStripChars(url, GitChars)
  }

  /** A URL that passed validation keeps at least its scheme through `rstrip('.git')`, so the push link is never empty. */
  lemma PushLinkNonEmpty(isUserToken: bool, targetOwner: string, repo: string, branch: string, url: string)
    requires StartsWith(url, "http://") || StartsWith(url, "https://")
    ensures PushLink(isUserToken, targetOwner, repo, branch, url) != ""
  {
    if !isUserToken {
      var r := RStripChars(url, GitChars);
      assert url[3] == 'p' && url[3] !in GitChars;
      assert |r| > 3;
    }
  }

  /**
   * What `commit_and_push` returns once `git push` has finished: the link and
   * "Successfully pushed" when it exited 0; otherwise no link and the message
   * for the failure kind read from the push's error text.
   */
  function PushOutcome(pushed: bool, token: string, isUserToken: bool, targetOwner: string, originalOwner: string,
                       repo: string, branch: string, url: string, stderr: string, stdout: string): (r: (Option<string>, string))
    ensures r.0.Some? <==> pushed
    ensures pushed ==> r.0.value == PushLink(isUserToken, targetOwner, repo, branch, url) && r.1 == "Successfully pushed"
    ensures !pushed && stderr != "" ==> r.1 == PushMessage(ClassifyPush(token, stderr), targetOwner, originalOwner, repo, stderr)
    ensures !pushed && stderr == "" ==> r.1 == PushMessage(ClassifyPush(token, stdout), targetOwner, originalOwner, repo, stdout)
    ensures !pushed && token == "" ==> EndsWith(r.1, if stderr != "" then stderr else stdout)
  {
    if pushed then (Some(PushLink(isUserToken, targetOwner, repo, branch, url)), "Successfully pushed")
    else
      var error := ErrorText(stderr, stdout);
      var k := ClassifyPush(token, error);
      PushMessageCarriesError(k, targetOwner, originalOwner, repo, error);
      (None, PushMessage(k, targetOwner, originalOwner, repo, error))
  }

  /**
   * How the response reports a push to a validated URL: success exactly when
   * the push went through, with the push link as `branch_url`; otherwise the
   * status ends with the push's message.
   */
  lemma PushReported(e: Entry, pushed: bool, token: string, isUserToken: bool, targetOwner: string, originalOwner: string,
                     repo: string, branch: string, url: string, stderr: string, stdout: string, user: Option<string>)
    requires StartsWith(url, "http://") || StartsWith(url, "https://")
    ensures var (link, message) := PushOutcome(pushed, token, isUserToken, targetOwner, originalOwner, repo, branch, url, stderr, stdout);
      && (PushStatus(e, link, message) == "Pushed successfully" <==> pushed)
      && (pushed ==> BranchUrl(link, url, branch, isUserToken, user) == PushLink(isUserToken, targetOwner, repo, branch, url))
      && (!pushed ==> EndsWith(PushStatus(e, link, message), message))
  {
    var (link, message) := PushOutcome(pushed, token, isUserToken, targetOwner, originalOwner, repo, branch, url, stderr, stdout);
    PushLinkNonEmpty(isUserToken, targetOwner, repo, branch, url);
    PushStatusWording(e, link, message);
  }

  /** Appending characters that `rstrip` removes does not change its result. */
  lemma {:induction false} RStripAppended(s: string, t: string, chars: set<char>)
    requires forall c :: c in t ==> c in chars
    ensures RStripChars(s + t, chars) == RStripChars(s, chars)
    decreases |t|
  {
    if t != [] {
      var u := s + t;
      var t' := t[..|t| - 1];
      assert u[|u| - 1] == t[|t| - 1] && t[|t| - 1] in t;
      assert u[..|u| - 1] == s + t';
      assert forall c :: c in t' ==> c in t;
      RStripAppended(s, t', chars);
      assert RStripChars(u, chars) == RStripChars(s + t', chars);
    } else {
      assert s + t == s;
    }
  }

  /**
   * `rstrip('.git')` strips a character set, not a suffix: a repository whose
   * name ends in one of `.`, `g`, `i`, `t` loses more than `.git`.
   */
  lemma RStripGitQuirk(url: string)
    requires url == "https://github.com/acme/tooling.git"
    ensures RStripChars(url, GitChars) == "https://github.com/acme/toolin"
  {
    var kept := "https://github.com/acme/toolin";
    assert url == kept + "g.git";
    RStripAppended(kept, "g.git", GitChars);
  }

  /**
   * The `branch_url` of the response: the push link when there is one;
   * otherwise a branch page built from the URL, the URL passed through
   * `rstrip('.git')` when there was no user token, or that plus `/tree/...`
   * when the URL has no owner and repository. `user` is what the GitHub API
   * reported for the token.
   */
  function BranchUrl(pushLink: Option<string>, url: string, branch: string, isUserToken: bool, user: Option<string>): (r: string)
    ensures pushLink.Some? && pushLink.value != "" ==> r == pushLink.value
  {
    if pushLink.Some? && pushLink.value != "" then pushLink.value
    else
      var info := RepoInfo(url);
      if info.Some? && info.value.0 != "" && info.value.1 != "" then
        var (owner, repo) := info.value;
        if isUserToken then
          if user.Some? && user.value != "" then TreeUrl(user.value, repo, branch) else TreeUrl(owner, repo, branch)
        else RStripChars(url, GitChars)
      else RStripChars(url, GitChars) + "/tree/" + branch
  }

  /** Without a push link and a user token, the response links to the stripped URL, never to a branch. */
  lemma FallbackWithoutToken(url: string, branch: string, user: Option<string>)
    requires var info := RepoInfo(url); info.Some? && info.value.0 != "" && info.value.1 != ""
    ensures BranchUrl(None, url, branch, false, user) == RStripChars(url, GitChars)
  {
  }

  /** `push_status`: the two entry points word a failure differently. */
  function PushStatus(e: Entry, pushLink: Option<string>, message: string): string
  {
    if pushLink.Some? && pushLink.value != "" then "Pushed successfully"
    else match e
      case Backend => "Push failed: " + message
      case Serverless => "Push skipped: " + message
  }

  /** The status reports success exactly when there is a push link; otherwise it ends with the push message. */
  lemma PushStatusWording(e: Entry, pushLink: Option<string>, message: string)
    ensures PushStatus(e, pushLink, message) == "Pushed successfully" <==> pushLink.Some? && pushLink.value != ""
    ensures !(pushLink.Some? && pushLink.value != "") ==> EndsWith(PushStatus(e, pushLink, message), message)
  {
    var st := PushStatus(e, pushLink, message);
    if !(pushLink.Some? && pushLink.value != "") {
      assert st[4] == ' ' != "Pushed successfully"[4];
      assert st[|st| - |message|..] == message;
    }
  }

  // ---------------------------------------------------------------------------
  // The response.

  /** `cicd_status`: the status of the last run, `PASSED` when there is none. */
  function CicdStatus(runs: seq<Run>): string
  {
    if runs == [] then "PASSED" else StatusText(runs[|runs| - 1].status)
  }

  /**
   * After `execute` the reported status is `PASSED` or `FAILED`, never
   * `RUNNING`; it is `PASSED` whenever the loop stopped early, and `FAILED`
   * only after the whole budget was used.
   */
  lemma CicdStatusAfterExecute(env: Env, disk: Disk, max: int)
    ensures var (r, n) := Execution(env, Fresh(disk), 0, max);
      && (CicdStatus(r.runs) == "PASSED" || CicdStatus(r.runs) == "FAILED")
      && (0 <= n < max ==> CicdStatus(r.runs) == "PASSED")
      && (CicdStatus(r.runs) == "FAILED" ==> n == max)
  {
    var (r, n) := Execution(env, Fresh(disk), 0, max);
    ExecuteFresh(env, disk, max);
    if r.runs != [] {
      assert Settled(r.runs[|r.runs| - 1]);
    }
    if 0 <= n < max {
      ExecutionStop(env, Fresh(disk), 0, max);
    }
  }

  // ---------------------------------------------------------------------------
  // CORS.

  /** `allowed_origins` of the serverless entry point, after dropping the missing Vercel entry. */
  function AllowedOrigins(vercelUrl: string): (origins: seq<string>)
    ensures "http://localhost:3000" in origins && "http://localhost:8000" in origins
    ensures ("https://" + vercelUrl) in origins <==> vercelUrl != ""
    ensures forall o :: o in origins ==> o != ""
  {
    ["http://localhost:3000", "http://localhost:8000"] + (if vercelUrl != "" then ["https://" + vercelUrl] else [])
  }

  /** What the middleware is given: the list, or `["*"]` when it is empty. */
  function CorsOrigins(origins: seq<string>): seq<string>
  {
    if origins != [] then origins else ["*"]
  }

  /** The wildcard fallback is never taken. */
  lemma NoWildcard(vercelUrl: string)
    ensures CorsOrigins(AllowedOrigins(vercelUrl)) == AllowedOrigins(vercelUrl)
    ensures "*" !in CorsOrigins(AllowedOrigins(vercelUrl))
  {
  }
}
