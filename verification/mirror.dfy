/**
 * One run of the program (`main` in src/main.rs), with the GitLab queries and
 * the clone primitive supplied from outside: resolve the access level and the
 * token, fetch the catalog, create the namespace directories, and optionally
 * clone every project.
 */
module Mirror {
  import opened Wrappers
  import opened Model
  import opened AccessLevels
  import opened Namespaces
  import opened ClonePlans
  import opened Cloning

  /** The command-line options. */
  datatype Args = Args(
    accessLevel: u8,
    clone: bool,
    destination: string,
    host: string,
    personalAccessToken: Option<string>,
    sshPrivateKey: string)

  /** The options when no flag is given. */
  const DefaultArgs: Args := Args(0, false, ".", "gitlab.com", None, "~/.ssh/id_rsa")

  /** What the three GitLab queries return: the user, the groups, the projects. */
  datatype Catalog = Catalog(user: User, groups: seq<Group>, projects: seq<Project>)

  /** The GitLab side: host, token and minimum access level to a catalog or an error. */
  type Fetcher = (string, string, AccessLevel) -> Result<Catalog, string>

  /** The filesystem side: whether creating a directory (with its parents) succeeds. */
  type DirCreator = string -> bool

  /** The order in which a hash set of directories is iterated. */
  type IterationOrder = set<string> -> seq<string>

  /** An iteration order that walks every set exactly through its elements. */
  ghost predicate WalksSets(order: IterationOrder) {
    forall s :: Enumerates(order(s), s)
  }

  /** Why a run stops early. */
  datatype RunError =
    | ConversionFailed(conversion: ConversionError)
    | PromptFailed(message: string)
    | RemoteFailed(message: string)
      /** The first namespace directory, in iteration order, that could not be created. */
    | DirectoryFailed(dir: string)
      /** The clone loop panicked creating `path`, after making `attempts`. */
    | ClonePanicked(path: string, attempts: seq<Attempt>)

  /** The access level and catalog a run works on. */
  datatype Session = Session(level: AccessLevel, catalog: Catalog)

  /** What a successful run did. */
  datatype RunReport = RunReport(level: AccessLevel, namespaceDirs: set<string>, clones: seq<Attempt>)

  /** The token: the flag's when given, otherwise whatever the prompt returned. */
  function ResolveToken(flag: Option<string>, prompted: Result<string, string>): (token: Result<string, string>)
    ensures flag.Some? ==> token == Ok(flag.value)
    ensures flag.None? ==> token == prompted
  {
    match flag
    case Some(p) => Ok(p)
    case None => prompted
  }

  /**
   * The steps before any directory is made: the access level (which cannot
   * fail), the token, then the catalog fetched with both.
   */
  function FetchCatalog(args: Args, prompted: Result<string, string>, fetch: Fetcher): (r: Result<Session, RunError>)
    ensures r.Err? ==> !r.error.ConversionFailed?
    ensures var token := ResolveToken(args.personalAccessToken, prompted);
      && (token.Err? ==> r == Err(PromptFailed(token.error)))
      && (token.Ok? ==>
        var level := IntoAccessLevel(args.accessLevel).value;
        var fetched := fetch(args.host, token.value, level);
        && (fetched.Err? ==> r == Err(RemoteFailed(fetched.error)))
        && (fetched.Ok? ==> r == Ok(Session(level, fetched.value))))
  {
    match IntoAccessLevel(args.accessLevel)
    case Err(e) => Err(ConversionFailed(e))
    case Ok(level) =>
      match ResolveToken(args.personalAccessToken, prompted)
      case Err(message) => Err(PromptFailed(message))
      case Ok(token) =>
        match fetch(args.host, token, level)
        case Err(message) => Err(RemoteFailed(message))
        case Ok(catalog) => Ok(Session(level, catalog))
  }

  /**
   * Creating directories one after another and stopping at the first failure,
   * as both the namespace loop and the clone loop do: the number created.
   */
  function FirstFailingDir(paths: seq<string>, mkdir: DirCreator): (k: nat)
    ensures k <= |paths|
    ensures forall i :: 0 <= i < k ==> mkdir(paths[i])
    ensures k < |paths| ==> !mkdir(paths[k])
    decreases |paths|
  {
    if |paths| == 0 || !mkdir(paths[0]) then 0
    else 1 + FirstFailingDir(paths[1..], mkdir)
  }

  /** The directory of each project, in project order. */
  function ProjectDirs(destination: string, projects: seq<Project>): (paths: seq<string>)
    ensures |paths| == |projects|
    ensures forall i :: 0 <= i < |projects| ==> paths[i] == ClonePath(destination, projects[i])
  {
    seq(|projects|, i requires 0 <= i < |projects| => ClonePath(destination, projects[i]))
  }

  /**
   * The clone loop: every project in order, each directory made before the
   * clone, stopping with a panic at the first directory that cannot be made.
   */
  function CloneStage(destination: string, projects: seq<Project>, mkdir: DirCreator, clone: CloneOracle): (r: Result<seq<Attempt>, RunError>)
    ensures r.Ok? <==> forall i :: 0 <= i < |projects| ==> mkdir(ClonePath(destination, projects[i]))
    ensures r.Ok? ==> r.value == CloneAll(destination, projects, clone)
    ensures r.Ok? ==> Targets(r.value) == ClonePlan(destination, projects)
    ensures r.Err? ==> r.error.ClonePanicked?
    ensures r.Err? && r.error.ClonePanicked? ==>
      var n := |r.error.attempts|;
      && n < |projects|
      && r.error.attempts == CloneAll(destination, projects[..n], clone)
      && Targets(r.error.attempts) == ClonePlan(destination, projects)[..n]
      && r.error.path == ClonePath(destination, projects[n])
      && !mkdir(r.error.path)
  {
    var k := FirstFailingDir(ProjectDirs(destination, projects), mkdir);
    var attempts := CloneAll(destination, projects[..k], clone);
    PrefixFollowsPlan(destination, projects, k, clone);
    assert k == |projects| ==> projects[..k] == projects;
    if k < |projects| then
      Err(ClonePanicked(ClonePath(destination, projects[k]), attempts))
    else
      Ok(attempts)
  }

  /**
   * A run. Before any directory is made it stops on a failed prompt or fetch.
   * It walks the namespace directories in the set's iteration order and stops
   * at the first that cannot be created; the clone loop panics at the first
   * project whose directory cannot be created. Failed clones are only
   * reported and never stop the run.
   */
  function Run(args: Args, prompted: Result<string, string>, fetch: Fetcher, order: IterationOrder, mkdir: DirCreator, clone: CloneOracle): (r: Result<RunReport, RunError>)
    requires WalksSets(order)
    ensures FetchCatalog(args, prompted, fetch).Err? ==> r == Err(FetchCatalog(args, prompted, fetch).error)
    ensures FetchCatalog(args, prompted, fetch).Ok? ==>
      var session := FetchCatalog(args, prompted, fetch).value;
      var projects := session.catalog.projects;
      var dirs := NamespaceDirs(args.destination, NamespacePlan(session.catalog.user, session.catalog.groups));
      && (r.Ok? <==>
        && (forall d :: d in dirs ==> mkdir(d))
        && (args.clone ==> forall i :: 0 <= i < |projects| ==> mkdir(ClonePath(args.destination, projects[i]))))
      && (r.Err? ==> r.error.DirectoryFailed? || r.error.ClonePanicked?)
      && (r.Err? && r.error.DirectoryFailed? ==>
        var walk := order(dirs);
        && r.error.dir in dirs
        && !mkdir(r.error.dir)
        && exists k :: 0 <= k < |walk| && walk[k] == r.error.dir && forall i :: 0 <= i < k ==> mkdir(walk[i]))
      && (r.Err? && r.error.ClonePanicked? ==>
        var n := |r.error.attempts|;
        && args.clone
        && (forall d :: d in dirs ==> mkdir(d))
        && n < |projects|
        && r.error.attempts == CloneAll(args.destination, projects[..n], clone)
        && Targets(r.error.attempts) == ClonePlan(args.destination, projects)[..n]
        && r.error.path == ClonePath(args.destination, projects[n])
        && !mkdir(r.error.path))
      && (r.Ok? ==>
        && r.value.level == session.level
        && r.value.namespaceDirs == dirs
        && (args.clone ==> r.value.clones == CloneAll(args.destination, projects, clone))
        && (args.clone ==> Targets(r.value.clones) == ClonePlan(args.destination, projects))
        && (!args.clone ==> r.value.clones == []))
  {
    match FetchCatalog(args, prompted, fetch)
    case Err(e) => Err(e)
    case Ok(session) =>
      var catalog := session.catalog;
      var dirs := NamespaceDirs(args.destination, NamespacePlan(catalog.user, catalog.groups));
      var walk := order(dirs);
      assert Enumerates(walk, dirs);
      var k := FirstFailingDir(walk, mkdir);
      if k < |walk| then
        Err(DirectoryFailed(walk[k]))
      else
        assert forall d :: d in dirs ==> mkdir(d) by {
          forall d | d in dirs ensures mkdir(d) {
            var i :| 0 <= i < |walk| && walk[i] == d;
          }
        }
        if !args.clone then
          Ok(RunReport(session.level, dirs, []))
        else
          match CloneStage(args.destination, catalog.projects, mkdir, clone)
          case Err(e) => Err(e)
          case Ok(attempts) => Ok(RunReport(session.level, dirs, attempts))
  }

  /**
   * Isolation at the level of a run: a clone that fails is recorded as failed
   * and reported with that project's directory, and the run still succeeds.
   */
  lemma RunReportsFailure(args: Args, prompted: Result<string, string>, fetch: Fetcher, order: IterationOrder, mkdir: DirCreator, clone: CloneOracle, i: int)
    requires WalksSets(order)
    requires Run(args, prompted, fetch, order, mkdir, clone).Ok? && args.clone
    requires 0 <= i < |FetchCatalog(args, prompted, fetch).value.catalog.projects|
    ensures var p := FetchCatalog(args, prompted, fetch).value.catalog.projects[i];
      var path := ClonePath(args.destination, p);
      var attempt := Run(args, prompted, fetch, order, mkdir, clone).value.clones[i];
      clone(i, p.httpUrlToRepo, path).CloneFailed? ==>
        attempt.result.CloneFailed? && FailurePrefix + path + "': " <= attempt.report
  {
    var projects := FetchCatalog(args, prompted, fetch).value.catalog.projects;
    var p := projects[i];
    if clone(i, p.httpUrlToRepo, ClonePath(args.destination, p)).CloneFailed? {
      FailureReported(args.destination, projects, clone, i);
    }
  }

  /** Whether the run succeeds does not depend on how any clone went. */
  lemma StatusIgnoresClones(args: Args, prompted: Result<string, string>, fetch: Fetcher, order: IterationOrder, mkdir: DirCreator, c1: CloneOracle, c2: CloneOracle)
    requires WalksSets(order)
    ensures Run(args, prompted, fetch, order, mkdir, c1).Ok? == Run(args, prompted, fetch, order, mkdir, c2).Ok?
  {
  }

  /** With no flags: Guest access, the mirror rooted at ".", nothing cloned. */
  lemma DefaultRun(prompted: Result<string, string>, fetch: Fetcher, order: IterationOrder, mkdir: DirCreator, clone: CloneOracle)
    requires WalksSets(order)
    ensures var r := Run(DefaultArgs, prompted, fetch, order, mkdir, clone);
      r.Ok? ==> r.value.level == Guest && r.value.clones == []
  {
  }
}
