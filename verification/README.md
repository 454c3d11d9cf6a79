# mir — a Dafny model of the mirroring core

`mir` mirrors the group hierarchy of a GitLab account onto the local
filesystem. It can also clone every accessible project into the matching
directory. Most of the program is orchestration around the GitLab REST client,
`git2` and the filesystem. This project models the decision procedures inside
`main` as pure Dafny functions and proves properties about them:

- mapping the number of `-A` flags onto the access scale Guest < Reporter <
  Developer < Maintainer < Owner (`access_levels.dfy`);
- the namespace plan: the set of group full paths plus the user's own
  namespace, and the `destination/namespace` directories requested for it
  (`namespaces.dfy`);
- the clone plan: one `destination/namespace.full_path/name` entry per
  project, in order, with no deduplication (`clone_plans.dfy`);
- the clone loop, as a fold over the projects. An oracle gives the outcome of
  each clone. Every project is attempted once, and a failure only changes the
  line reported for that project (`cloning.dfy`);
- the credentials callback. It chooses plaintext user/token or an SSH key
  file, and expands a leading `~` component of the key path the way Rust's
  `Path::strip_prefix` and `PathBuf::join` do (`paths.dfy`, `credentials.dfy`);
- the transfer-progress callback. It chooses the phase, length and position
  of the single progress bar and always lets the transfer continue
  (`progress.dfy`);
- one run of `main`. The token prompt's answer, the GitLab queries, directory
  creation and the clone primitive are passed in as parameters
  (`mirror.dfy`).

The records of `src/model.rs` are the datatypes of `model.dfy`. `wrappers.dfy`
holds `Option` and `Result`.

Notes on the program's behaviour:

- For SSH the credential carries the username taken from the remote URL, not
  the GitLab account's username.
- When both the home directory and the URL username are missing, the home
  directory error is the one reported, because the key path is resolved first.
- The namespace plan has one entry per distinct group full path, plus the
  username unless it equals one of them (`Namespaces.PlanSize`). Because
  GitLab keeps group full paths distinct, that is `|groups| + 1` or `|groups|`
  entries (`Namespaces.PlanSizeDistinct`).
- Two projects with the same target directory are both attempted. The second
  clone's outcome is whatever the clone primitive returns. Nothing is
  overwritten by the loop itself.
- A run stops on a failed token prompt, a failed GitLab query or a namespace
  directory that cannot be created. A project directory that cannot be created
  panics the clone loop. A failed clone never stops the run.

## Model

| member | source | states |
|---|---|---|
| AccessLevels.IntoAccessLevel | src/main.rs:52-62 | The conversion never takes its error arm. Counts 0 and 1 give Guest, counts from 5 up give Owner, and a count n in 1..5 gives the level of ordinal n. |
| AccessLevels.Clamp | src/main.rs:53 | Like Rust's `Ord::clamp`, the result lies in [min, max]. A value inside the range is kept, one below goes to min and one above goes to max. |
| AccessLevels.IntoAccessLevelMonotone | src/main.rs:53-58 | More `-A` flags never select a lower access level. Here "lower" is `AtMost`, which `AccessLevels.AtMostIsTotalOrder` shows is a total order on the five levels. |
| AccessLevels.OrdinalRoundTrip | src/main.rs:53-58 | Every level is selected by exactly its ordinal number of flags. |
| AccessLevels.SameLevelIffSameClamp | src/main.rs:53-58 | Two flag counts select the same level if and only if they clamp to the same number in 1..5. |
| AccessLevels.HelpTextLevels | src/main.rs:24-31 | No flag selects Guest, `-A` to `-AAAAA` select Guest through Owner, and 9 or 255 flags select Owner. |
| Paths.UnsplitSegments | src/main.rs:113-114 | Splitting a path on '/' and joining the pieces again returns the original string. |
| Paths.SegmentsUnsplit | src/main.rs:113-114 | Joining pieces that contain no '/' and splitting the result returns the same pieces. |
| Paths.FirstSegmentTilde | src/main.rs:114 | The first '/'-piece of a path is `~` exactly when the path is "~" or starts with "~/". |
| Paths.StripTilde | src/main.rs:114 | `strip_prefix("~")` succeeds exactly for paths whose first component is `~`. The remainder is the path's pieces after `~`, with empty and "." pieces dropped at both ends, glued with '/'. It never starts with '/'. |
| Paths.TrimmedRunOf | src/main.rs:114 | The pieces `strip_prefix` keeps after `~` form one run: all pieces before and after it are empty or ".", and its first and last pieces are real names. |
| Paths.Join | src/main.rs:115-119 | Joining a relative suffix keeps the base as a prefix and the suffix as a tail. A '/' is inserted between them exactly when the base is non-empty and does not already end with '/'. An absolute suffix replaces the base. |
| Paths.StripTildeTidy | src/main.rs:114 | For "~/" followed by a path with real components at both ends, the remainder is exactly that path. |
| Paths.UnsplitIsTidy | src/main.rs:114 | Pieces without '/' whose first and last are real names glue into a path that `strip_prefix` keeps unchanged after "~/". |
| Namespaces.SlashInjective | src/main.rs:93 | Under a fixed destination, different namespaces give different directory strings. |
| Namespaces.NamespacePlan | src/main.rs:87-91 | The plan always contains the username and every group's full path, and nothing else. |
| Namespaces.DistinctGroupPathsCount | src/main.rs:87-90 | When the groups' full paths are distinct, the set of paths has one element per group. |
| Namespaces.PlanSize | src/main.rs:87-91 | The plan has one entry per distinct group full path, plus one for the user unless the username equals a group path. |
| Namespaces.PlanSizeDistinct | src/main.rs:87-91 | When the groups' full paths are distinct, the plan has one entry per group, plus one for the user unless the username equals a group path. |
| Namespaces.BuildNamespacePlan | src/main.rs:87-91 | Collecting group paths into a set one by one and then inserting the username yields exactly the namespace plan. |
| Namespaces.NamespaceDirs | src/main.rs:92-95 | Every planned namespace n yields the directory destination + "/" + n, and every directory comes from a planned namespace. |
| Namespaces.NamespaceDirsCount | src/main.rs:92-95 | The directory set has as many elements as the plan, so no two namespaces share a directory. |
| Namespaces.MaterializeNamespaces | src/main.rs:92-96 | Walking the set in any order requests one directory per namespace, each exactly once, and the requested directories are exactly the planned ones. |
| ClonePlans.ClonePlan | src/main.rs:151-152 | There is one entry per project, in project order. Entry i has path destination/full_path/name of project i and that project's URL. |
| ClonePlans.ClonePlanAppend | src/main.rs:151-152 | The plan of a concatenation of project lists is the concatenation of their plans. |
| ClonePlans.DuplicatesKept | src/main.rs:151-152 | Two projects with the same namespace path and name keep two entries, and both entries have the same path. |
| ClonePlans.SamePathIffSameLocation | src/main.rs:152 | When names contain no '/', as GitLab enforces, two projects share a target path if and only if they share namespace path and name. |
| Cloning.ReportShowsOutcome | src/main.rs:155-160 | A report line starts with "Failed to clone into '" exactly when the clone failed, and with "Cloning into '" exactly when it succeeded. A failure line names the target path. |
| Cloning.ReportLine | src/main.rs:156-158 | A success line is "Cloning into '", the target path, then "'...". A failure line is "Failed to clone into '", the target path, "': ", the error text, then a newline. |
| Cloning.CloneFrom | src/main.rs:151-162 | The loop makes one attempt per project, in order. Attempt i clones project i's URL into its target path with attempt number first + i and reports that attempt's outcome. |
| Cloning.LoopFollowsPlan | src/main.rs:151-155 | The sequence of (path, URL) pairs the loop attempts is exactly the clone plan. |
| Cloning.AttemptsIgnoreOutcomes | src/main.rs:151-162 | The attempted clones are the same whatever each clone returns, so a failure never prevents a later attempt. |
| Cloning.FailureReported | src/main.rs:157-159 | A failed clone of project i is recorded as failed and reported with "Failed to clone into '" followed by that project's path. |
| Cloning.CloneFromAppend | src/main.rs:151-162 | Running the loop over a concatenation runs it over the first part and then over the second, with attempt numbers continuing. |
| Cloning.PrefixAttempts | src/main.rs:151-162 | The first k attempts depend only on the first k projects. |
| Cloning.PrefixFollowsPlan | src/main.rs:151-162 | The attempts over the first k projects target exactly the first k entries of the clone plan. |
| Credentials.ResolveKeyPath | src/main.rs:112-120 | A key path whose first component is not `~` is used unchanged. A `~` path fails exactly when the home directory is unknown. Otherwise it is the home directory joined with what `strip_prefix("~")` leaves, so it starts with the home directory. |
| Credentials.ResolveTidyKeyPath | src/main.rs:113-120 | "~/" followed by a path with real components at both ends resolves to home + "/" + that path. |
| Credentials.BareTildeResolves | src/main.rs:113-120 | A key path that is `~` followed only by empty or "." pieces resolves to the home directory with one '/' appended. |
| Credentials.SelectCredential | src/main.rs:107-134 | If plaintext is allowed, the result is (GitLab username, token), even when SSH is also allowed. Otherwise, if SSH is allowed, the result is a key file with the URL username and the resolved key path. A missing home directory for a `~` path is reported first, then a missing URL username. If neither type is allowed, the error names the requested types. |
| Credentials.CredentialUsername | src/main.rs:108-127 | A plaintext credential is returned exactly when plaintext is allowed, and carries the account's username and token. An SSH credential carries the URL's username. |
| Credentials.SshKeyUnderHome | src/main.rs:112-127 | With only SSH allowed, a key path "~/" + rest, where rest has real components at both ends, is offered as home + "/" + rest with the URL username. |
| Progress.PhaseOf | src/main.rs:136 | The bar is in the receiving phase exactly while received objects are fewer than total objects. |
| Progress.LabelRoundTrip | src/main.rs:137-141 | The two phase labels are distinct, so the phase can be read back from the bar's message. |
| Progress.TransferProgress | src/main.rs:135-146 | The callback always returns true. The message names the current phase. Length and position are total/received objects while receiving, and total/indexed deltas while resolving. |
| Progress.BarWithinLength | src/main.rs:136-144 | When indexed deltas do not exceed total deltas, the position never exceeds the length. While receiving, the bar is never full. |
| Progress.PhasesSwitchOnce | src/main.rs:136-144 | Given reports with a fixed object total and a received count that never falls, once the bar shows "Resolving deltas" it never returns to "Receiving objects". |
| Mirror.Run | src/main.rs:64-166 | A failed prompt or GitLab query ends the run with that error. A run succeeds exactly when every planned namespace directory and, in clone mode, every project directory can be created. Otherwise the run reports one of two failures. The first is the first namespace directory, in the set's iteration order, that cannot be created, when all directories walked before it were created. The second is the project directory the clone loop panicked on, with the clone loop's attempts over the projects before it. On success it records the clamped level and the directory of every planned namespace. In clone mode its attempts are exactly the clone loop's over all projects: each has the outcome and report line of its clone, and together they follow the clone plan. Otherwise it clones nothing. |
| Mirror.ResolveToken | src/main.rs:67-70 | The token given on the command line is used as is. Without one, the prompt's answer is used, and a prompt failure is the token's failure. |
| Mirror.FetchCatalog | src/main.rs:64-86 | The access-level conversion never fails the run. A prompt failure ends the run before GitLab is queried. Otherwise the catalog comes from querying the host with the token at the clamped level, and a query failure ends the run. |
| Mirror.FirstFailingDir | src/main.rs:92-95 | Creating directories in order and stopping at the first failure gets through exactly the leading directories that can be created, and stops at the first one that cannot. Both the namespace loop and the clone loop (lines 151-154) use it. |
| Mirror.ProjectDirs | src/main.rs:151-152 | The directories the clone loop creates are, in project order, the target path of each project. |
| Mirror.CloneStage | src/main.rs:151-162 | The clone loop finishes exactly when every project directory can be created. Its attempts are then the clone fold over all projects, so each has its clone's outcome and report line, and they follow the clone plan. Otherwise it panics on the first project whose directory cannot be created, holding the fold's attempts over the projects before it. |
| Mirror.StatusIgnoresClones | src/main.rs:151-165 | Whether the run succeeds does not depend on the outcome of any clone. |
| Mirror.RunReportsFailure | src/main.rs:151-160 | In a successful clone-mode run, a failed clone of project i is recorded as failed and reported with "Failed to clone into '" followed by that project's path. |
| Mirror.DefaultRun | src/main.rs:19-46 | With no flags, a successful run uses Guest access and clones nothing. |

## Left out

- GitLab REST calls, authentication and pagination (`Gitlab::new`, `api::paged`, `query`). They belong to a foreign library. `Mirror.Run` receives them as one function from host, token and access level to a catalog or an error.
- The `git2` clone transport, `Cred` construction and pack handling. They are foreign calls. The clone is an oracle from attempt number, URL and path to an outcome. The callback's choice of credential is modelled, but its construction is not. Nothing connects the transport's credential requests to a particular clone attempt.
- Filesystem effects (`fs::create_dir_all`). Directory creation is an oracle that says whether creating a path succeeds. Directories already made before a failure, and the I/O error text, are not modelled.
- Console output other than the per-project clone report: the `mkdir '…'` lines, progress-bar styling, `finish` and `finish_and_clear`.
- The interactive token prompt (`rpassword`). Its answer, a token or an error message, is a parameter.
- Command-line parsing (`clap`). The options are a record with the documented defaults.
- `dirs::home_dir`. The home directory is an `Option<string>` parameter.
- HashSet iteration order. `Mirror.Run` takes it as a parameter that walks every set exactly through its elements. `Namespaces.MaterializeNamespaces` picks its next element nondeterministically.
- The texts of the credential errors. The message for unsupported credential types depends on the `Debug` rendering of git2's flag set, so the error carries the requested set instead.
- Paths are Unix paths only. Windows prefixes and separators are not modelled.
- Progress counters are unbounded naturals. git's `usize` counters widen to `u64` without loss.
- The panic message of the clone loop ("failed to create the directory '…'"). The error carries the path instead.
- Mirror.Run: `DirectoryFailed` carries the directory that could not be created. The program's `io::Error` does not name it; only the `mkdir '…'` line printed just before the failure shows it.
