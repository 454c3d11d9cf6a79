/**
 * The clone loop: every project is attempted once, in order, and the outcome
 * of each attempt only decides which line is reported for it.
 */
module Cloning {
  import opened Model
  import opened ClonePlans

  /** What one clone attempt returned. */
  datatype CloneResult = Cloned | CloneFailed(error: string)

  /**
   * The clone primitive, seen from outside: the result of the attempt with a
   * given number (counting from 0) for a URL and target directory.
   */
  type CloneOracle = (nat, string, string) -> CloneResult

  /** One iteration of the loop: what was cloned where, and what was reported. */
  datatype Attempt = Attempt(path: string, url: string, result: CloneResult, report: string)

  const SuccessPrefix: string := "Cloning into '"
  const FailurePrefix: string := "Failed to clone into '"

  /** The line printed above the progress bar after an attempt. */
  function ReportLine(path: string, result: CloneResult): (line: string)
    ensures result.Cloned? ==>
      && |line| == |SuccessPrefix| + |path| + 4
      && line[..|SuccessPrefix|] == SuccessPrefix
      && line[|SuccessPrefix|..|SuccessPrefix| + |path|] == path
      && line[|SuccessPrefix| + |path|..] == "'..."
    ensures result.CloneFailed? ==>
      && |line| == |FailurePrefix| + |path| + 3 + |result.error| + 1
      && line[..|FailurePrefix|] == FailurePrefix
      && line[|FailurePrefix|..|FailurePrefix| + |path|] == path
      && line[|FailurePrefix| + |path|..|FailurePrefix| + |path| + 3] == "': "
      && line[|line| - |result.error| - 1..] == result.error + "\n"
  {
    match result
    case Cloned => SuccessPrefix + path + "'..."
    case CloneFailed(e) => FailurePrefix + path + "': " + e + "\n"
  }

  /** A report line tells success from failure by its first words. */
  lemma ReportShowsOutcome(path: string, result: CloneResult)
    ensures result.CloneFailed? <==> FailurePrefix <= ReportLine(path, result)
    ensures result.Cloned? <==> SuccessPrefix <= ReportLine(path, result)
    ensures result.CloneFailed? ==> FailurePrefix + path + "': " <= ReportLine(path, result)
  {
    var line := ReportLine(path, result);
    if result.Cloned? {
      assert line[1] == 'l' && FailurePrefix[1] == 'a';
    } else {
      assert line[0] == 'F' && SuccessPrefix[0] == 'C';
    }
  }

  /** The loop from attempt number `first` on, as a fold over the projects. */
  function CloneFrom(destination: string, projects: seq<Project>, first: nat, clone: CloneOracle): (attempts: seq<Attempt>)
    ensures |attempts| == |projects|
    ensures forall i :: 0 <= i < |projects| ==>
      var path := ClonePath(destination, projects[i]);
      var result := clone(first + i, projects[i].httpUrlToRepo, path);
      attempts[i] == Attempt(path, projects[i].httpUrlToRepo, result, ReportLine(path, result))
    decreases |projects|
  {
    if |projects| == 0 then []
    else
      var p := projects[0];
      var path := ClonePath(destination, p);
      var result := clone(first, p.httpUrlToRepo, path);
      [Attempt(path, p.httpUrlToRepo, result, ReportLine(path, result))]
        + CloneFrom(destination, projects[1..], first + 1, clone)
  }

  /** The whole loop, attempts numbered from 0. */
  function CloneAll(destination: string, projects: seq<Project>, clone: CloneOracle): seq<Attempt> {
    CloneFrom(destination, projects, 0, clone)
  }

  /** What each attempt targeted, dropping outcomes and reports. */
  function Targets(attempts: seq<Attempt>): (entries: seq<CloneEntry>)
    ensures |entries| == |attempts|
    ensures forall i :: 0 <= i < |attempts| ==> entries[i] == CloneEntry(attempts[i].path, attempts[i].url)
  {
    seq(|attempts|, i requires 0 <= i < |attempts| => CloneEntry(attempts[i].path, attempts[i].url))
  }

  /** The loop attempts exactly the clone plan, entry by entry. */
  lemma LoopFollowsPlan(destination: string, projects: seq<Project>, clone: CloneOracle)
    ensures Targets(CloneAll(destination, projects, clone)) == ClonePlan(destination, projects)
  {
  }

  /**
   * Isolation: which clones are attempted does not depend on how any attempt
   * went, so a failure never keeps a later project from being attempted.
   */
  lemma AttemptsIgnoreOutcomes(destination: string, projects: seq<Project>, c1: CloneOracle, c2: CloneOracle)
    ensures Targets(CloneAll(destination, projects, c1)) == Targets(CloneAll(destination, projects, c2))
  {
  }

  /** A failed attempt is reported with that project's target directory. */
  lemma FailureReported(destination: string, projects: seq<Project>, clone: CloneOracle, i: int)
    requires 0 <= i < |projects|
    requires clone(i, projects[i].httpUrlToRepo, ClonePath(destination, projects[i])).CloneFailed?
    ensures CloneAll(destination, projects, clone)[i].result.CloneFailed?
    ensures FailurePrefix + ClonePath(destination, projects[i]) + "': " <= CloneAll(destination, projects, clone)[i].report
  {
  }

  /** Running the loop over a concatenation runs it over each part in turn. */
  lemma CloneFromAppend(destination: string, a: seq<Project>, b: seq<Project>, first: nat, clone: CloneOracle)
    ensures CloneFrom(destination, a + b, first, clone)
      == CloneFrom(destination, a, first, clone) + CloneFrom(destination, b, first + |a|, clone)
  {
  }

  /** The first k attempts depend only on the first k projects. */
  lemma PrefixAttempts(destination: string, projects: seq<Project>, k: nat, clone: CloneOracle)
    requires k <= |projects|
    ensures CloneAll(destination, projects[..k], clone) == CloneAll(destination, projects, clone)[..k]
  {
  }

  /** The attempts over the first k projects target the first k plan entries. */
  lemma PrefixFollowsPlan(destination: string, projects: seq<Project>, k: nat, clone: CloneOracle)
    requires k <= |projects|
    ensures Targets(CloneAll(destination, projects[..k], clone)) == ClonePlan(destination, projects)[..k]
  {
    ClonePlanAppend(destination, projects[..k], projects[k..]);
    assert projects[..k] + projects[k..] == projects;
    LoopFollowsPlan(destination, projects[..k], clone);
  }
}
