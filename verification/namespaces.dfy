/**
 * Namespace planning and the directories created for it (src/main.rs, the
 * HashSet of group paths plus the username, and the `mkdir` loop over it).
 */
module Namespaces {
  import opened Model

  /** `format!("{}/{}", parent, child)`. */
  function Slash(parent: string, child: string): string {
    parent + "/" + child
  }

  /** Under a fixed parent, different children give different paths. */
  lemma SlashInjective(parent: string, a: string, b: string)
    requires Slash(parent, a) == Slash(parent, b)
    ensures a == b
  {
    assert a == Slash(parent, a)[|parent| + 1..];
    assert b == Slash(parent, b)[|parent| + 1..];
  }

  /** The distinct full paths of the groups. */
  function GroupPaths(groups: seq<Group>): set<string> {
    set g | g in groups :: g.fullPath
  }

  /**
   * The namespaces to mirror: every group's full path and the user's own
   * namespace, duplicates collapsed.
   */
  function NamespacePlan(user: User, groups: seq<Group>): (plan: set<string>)
    ensures user.username in plan
    ensures forall g :: g in groups ==> g.fullPath in plan
    ensures forall n :: n in plan ==> n == user.username || exists g :: g in groups && g.fullPath == n
  {
    GroupPaths(groups) + {user.username}
  }

  /** No two groups share a full path, as GitLab guarantees. */
  predicate DistinctPaths(groups: seq<Group>) {
    forall i, j :: 0 <= i < j < |groups| ==> groups[i].fullPath != groups[j].fullPath
  }

  /** Adding one group to the list adds its path to the set of paths. */
  lemma GroupPathsSnoc(groups: seq<Group>, g: Group)
    ensures GroupPaths(groups + [g]) == GroupPaths(groups) + {g.fullPath}
  {
  }

  /** With distinct full paths, there are as many paths as groups. */
  lemma {:induction false} DistinctGroupPathsCount(groups: seq<Group>)
    requires DistinctPaths(groups)
    ensures |GroupPaths(groups)| == |groups|
    decreases |groups|
  {
    if |groups| > 0 {
      var last := |groups| - 1;
      var init := groups[..last];
      assert groups == init + [groups[last]];
      DistinctGroupPathsCount(init);
      GroupPathsSnoc(init, groups[last]);
      assert groups[last].fullPath !in GroupPaths(init);
    }
  }

  /**
   * The plan holds one namespace per distinct group path, plus one for the
   * user unless the username is itself a group path.
   */
  lemma PlanSize(user: User, groups: seq<Group>)
    ensures |NamespacePlan(user, groups)| == |GroupPaths(groups)| + (if user.username in GroupPaths(groups) then 0 else 1)
  {
  }

  /**
   * With distinct group paths, as GitLab guarantees, that is one namespace per
   * group plus one for the user unless the username is a group path.
   */
  lemma PlanSizeDistinct(user: User, groups: seq<Group>)
    requires DistinctPaths(groups)
    ensures |NamespacePlan(user, groups)| == |groups| + (if user.username in GroupPaths(groups) then 0 else 1)
  {
    PlanSize(user, groups);
    DistinctGroupPathsCount(groups);
  }

  /**
   * The plan built as the program builds it: group paths collected one at a
   * time into a set, then the username inserted.
   */
  method BuildNamespacePlan(user: User, groups: seq<Group>) returns (namespaces: set<string>)
    ensures namespaces == NamespacePlan(user, groups)
  {
    namespaces := {};
    for i := 0 to |groups|
      invariant namespaces == GroupPaths(groups[..i])
    {
      assert groups[..i + 1] == groups[..i] + [groups[i]];
      GroupPathsSnoc(groups[..i], groups[i]);
      namespaces := namespaces + {groups[i].fullPath};
    }
    assert groups[..|groups|] == groups;
    namespaces := namespaces + {user.username};
  }

  /** `walk` visits every element of `s` and nothing else, as iterating a set does. */
  predicate Enumerates(walk: seq<string>, s: set<string>) {
    && |walk| == |s|
    && (forall x :: x in walk ==> x in s)
    && (forall x :: x in s ==> x in walk)
  }

  /** The directory requested for each planned namespace. */
  function NamespaceDirs(destination: string, plan: set<string>): (dirs: set<string>)
    ensures forall n :: n in plan ==> Slash(destination, n) in dirs
    ensures forall d :: d in dirs ==> exists n :: n in plan && d == Slash(destination, n)
  {
    set n | n in plan :: Slash(destination, n)
  }

  /** One directory per namespace: no two namespaces share a directory. */
  lemma {:induction false} NamespaceDirsCount(destination: string, plan: set<string>)
    ensures |NamespaceDirs(destination, plan)| == |plan|
    decreases plan
  {
    if plan != {} {
      var n :| n in plan;
      var rest := plan - {n};
      NamespaceDirsCount(destination, rest);
      assert NamespaceDirs(destination, plan) == NamespaceDirs(destination, rest) + {Slash(destination, n)};
      assert Slash(destination, n) !in NamespaceDirs(destination, rest) by {
        if Slash(destination, n) in NamespaceDirs(destination, rest) {
          var m :| m in rest && Slash(destination, n) == Slash(destination, m);
          SlashInjective(destination, n, m);
        }
      }
    }
  }

  /**
   * The `mkdir` loop: the set is walked in an unspecified order and one
   * directory is requested per namespace. The result lists the requests.
   */
  method MaterializeNamespaces(destination: string, plan: set<string>) returns (created: seq<string>)
    ensures |created| == |plan|
    ensures forall i, j :: 0 <= i < j < |created| ==> created[i] != created[j]
    ensures forall d :: d in created <==> d in NamespaceDirs(destination, plan)
  {
    created := [];
    var remaining := plan;
    while remaining != {}
      invariant remaining <= plan
      invariant |created| + |remaining| == |plan|
      invariant forall i, j :: 0 <= i < j < |created| ==> created[i] != created[j]
      invariant forall d :: d in created <==> d in NamespaceDirs(destination, plan - remaining)
      decreases |remaining|
    {
      var n :| n in remaining;
      var dir := Slash(destination, n);
      assert dir !in created by {
        if dir in created {
          var m :| m in plan - remaining && dir == Slash(destination, m);
          SlashInjective(destination, n, m);
        }
      }
      assert NamespaceDirs(destination, plan - (remaining - {n})) == NamespaceDirs(destination, plan - remaining) + {dir};
      created := created + [dir];
      remaining := remaining - {n};
    }
    assert plan - remaining == plan;
  }
}
