/**
 * Where each project is cloned: `destination/namespace.full_path/name`, one
 * entry per project in project order, with no deduplication.
 */
module ClonePlans {
  import opened Model

  /** One planned clone: the target directory and the repository URL. */
  datatype CloneEntry = CloneEntry(path: string, url: string)

  /** `format!("{}/{}/{}", destination, p.namespace.full_path, p.name)`. */
  function ClonePath(destination: string, p: Project): string {
    destination + "/" + p.namespace.fullPath + "/" + p.name
  }

  /** The clone plan, one entry per project, in project order. */
  function ClonePlan(destination: string, projects: seq<Project>): (plan: seq<CloneEntry>)
    ensures |plan| == |projects|
    ensures forall i :: 0 <= i < |projects| ==>
      plan[i] == CloneEntry(ClonePath(destination, projects[i]), projects[i].httpUrlToRepo)
    decreases |projects|
  {
    if |projects| == 0 then []
    else
      var entry := CloneEntry(ClonePath(destination, projects[0]), projects[0].httpUrlToRepo);
      [entry] + ClonePlan(destination, projects[1..])
  }

  /** Planning a concatenation plans each part in turn. */
  lemma ClonePlanAppend(destination: string, a: seq<Project>, b: seq<Project>)
    ensures ClonePlan(destination, a + b) == ClonePlan(destination, a) + ClonePlan(destination, b)
  {
  }

  /**
   * Two projects with the same namespace path and name keep two entries, and
   * the two entries share a target directory.
   */
  lemma DuplicatesKept(destination: string, projects: seq<Project>, i: int, j: int)
    requires 0 <= i < j < |projects|
    requires projects[i].namespace.fullPath == projects[j].namespace.fullPath
    requires projects[i].name == projects[j].name
    ensures |ClonePlan(destination, projects)| == |projects|
    ensures ClonePlan(destination, projects)[i].path == ClonePlan(destination, projects)[j].path
  {
  }

  /** The part of `s` after its last '/', or all of `s` when it has none. */
  function AfterLastSlash(s: string): string
    decreases |s|
  {
    if |s| == 0 || s[|s| - 1] == '/' then "" else AfterLastSlash(s[..|s| - 1]) + [s[|s| - 1]]
  }

  /** A tail without '/' is exactly what follows the last '/'. */
  lemma {:induction false} AfterLastSlashOf(x: string, n: string)
    requires '/' !in n
    ensures AfterLastSlash(x + "/" + n) == n
    decreases |n|
  {
    if |n| > 0 {
      var init := n[..|n| - 1];
      assert (x + "/" + n)[..|x + "/" + n| - 1] == x + "/" + init;
      assert '/' !in init by {
        assert forall k :: 0 <= k < |init| ==> init[k] == n[k];
      }
      AfterLastSlashOf(x, init);
      assert n == init + [n[|n| - 1]];
    }
  }

  /** Splitting at the last '/' is unambiguous when the tail has no '/'. */
  lemma LastSlashSplit(x: string, n: string, y: string, m: string)
    requires '/' !in n && '/' !in m
    requires x + "/" + n == y + "/" + m
    ensures x == y && n == m
  {
    var s := x + "/" + n;
    AfterLastSlashOf(x, n);
    AfterLastSlashOf(y, m);
    assert x == s[..|x|] == y;
  }

  /**
   * GitLab project names never contain '/'. Under that rule two projects get
   * the same target directory exactly when they share namespace path and name.
   */
  lemma SamePathIffSameLocation(destination: string, a: Project, b: Project)
    requires '/' !in a.name && '/' !in b.name
    ensures ClonePath(destination, a) == ClonePath(destination, b)
      <==> a.namespace.fullPath == b.namespace.fullPath && a.name == b.name
  {
    if ClonePath(destination, a) == ClonePath(destination, b) {
      var x := destination + "/" + a.namespace.fullPath;
      var y := destination + "/" + b.namespace.fullPath;
      LastSlashSplit(x, a.name, y, b.name);
      assert a.namespace.fullPath == x[|destination| + 1..];
      assert b.namespace.fullPath == y[|destination| + 1..];
    }
  }
}
