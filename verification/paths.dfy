/**
 * The slice of Rust's `std::path` behaviour that the SSH key lookup relies
 * on, for Unix paths held as strings: splitting on '/', whether the first
 * component is `~`, what `strip_prefix("~")` leaves behind, and `join`.
 */
module Paths {
  import opened Wrappers

  /**
   * The '/'-separated pieces of `s`, empty ones included: "a//b/" splits into
   * "a", "", "b", "". There is always at least one piece.
   */
  function Segments(s: string): (segs: seq<string>)
    ensures |segs| >= 1
    ensures forall i :: 0 <= i < |segs| ==> '/' !in segs[i]
    decreases |s|
  {
    if |s| == 0 then [""]
    else
      var rest := Segments(s[1..]);
      if s[0] == '/' then [""] + rest
      else [[s[0]] + rest[0]] + rest[1..]
  }

  /** The pieces glued back together with '/' between them. */
  function Unsplit(segs: seq<string>): string
    decreases |segs|
  {
    if |segs| == 0 then ""
    else if |segs| == 1 then segs[0]
    else segs[0] + "/" + Unsplit(segs[1..])
  }

  /** Splitting and gluing again gives back the original string. */
  lemma {:induction false} UnsplitSegments(s: string)
    ensures Unsplit(Segments(s)) == s
    decreases |s|
  {
    if |s| > 0 {
      var rest := Segments(s[1..]);
      UnsplitSegments(s[1..]);
      assert s == [s[0]] + s[1..];
      if s[0] == '/' {
        assert ([""] + rest)[1..] == rest;
      } else {
        var segs := Segments(s);
        assert segs == [[s[0]] + rest[0]] + rest[1..];
        if |rest| > 1 {
          assert segs[1..] == rest[1..];
        }
      }
    }
  }

  /** A string without '/' is a single piece. */
  lemma {:induction false} SegmentsNoSlash(a: string)
    requires '/' !in a
    ensures Segments(a) == [a]
    decreases |a|
  {
    if |a| > 0 {
      assert '/' !in a[1..] by {
        forall k | 0 <= k < |a[1..]| ensures a[1..][k] != '/' {
          assert a[1..][k] == a[k + 1];
        }
      }
      SegmentsNoSlash(a[1..]);
      assert a == [a[0]] + a[1..];
    }
  }

  /** The first '/' of a string ends its first piece. */
  lemma {:induction false} SegmentsSplit(a: string, b: string)
    requires '/' !in a
    ensures Segments(a + "/" + b) == [a] + Segments(b)
    decreases |a|
  {
    var s := a + "/" + b;
    if |a| == 0 {
      assert s[1..] == b;
    } else {
      assert '/' !in a[1..] by {
        forall k | 0 <= k < |a[1..]| ensures a[1..][k] != '/' {
          assert a[1..][k] == a[k + 1];
        }
      }
      SegmentsSplit(a[1..], b);
      assert s[1..] == a[1..] + "/" + b;
      assert a == [a[0]] + a[1..];
    }
  }

  /** Gluing pieces that hold no '/' and splitting again gives the pieces back. */
  lemma {:induction false} SegmentsUnsplit(segs: seq<string>)
    requires |segs| >= 1
    requires forall i :: 0 <= i < |segs| ==> '/' !in segs[i]
    ensures Segments(Unsplit(segs)) == segs
    decreases |segs|
  {
    if |segs| == 1 {
      SegmentsNoSlash(segs[0]);
    } else {
      SegmentsUnsplit(segs[1..]);
      SegmentsSplit(segs[0], Unsplit(segs[1..]));
      assert segs == [segs[0]] + segs[1..];
    }
  }

  /** The pieces Rust's component iterator skips at either end of a path. */
  predicate Skipped(seg: string) {
    seg == "" || seg == "."
  }

  /** Drops skipped pieces from the front. */
  function TrimFront(segs: seq<string>): (r: seq<string>)
    ensures |r| <= |segs| && r == segs[|segs| - |r|..]
    ensures |r| > 0 ==> !Skipped(r[0])
    ensures forall i :: 0 <= i < |segs| - |r| ==> Skipped(segs[i])
    decreases |segs|
  {
    if |segs| > 0 && Skipped(segs[0]) then TrimFront(segs[1..]) else segs
  }

  /** Drops skipped pieces from the back. */
  function TrimBack(segs: seq<string>): (r: seq<string>)
    ensures |r| <= |segs| && r == segs[..|r|]
    ensures |r| > 0 ==> !Skipped(r[|r| - 1])
    ensures forall i :: |r| <= i < |segs| ==> Skipped(segs[i])
    decreases |segs|
  {
    if |segs| > 0 && Skipped(segs[|segs| - 1]) then TrimBack(segs[..|segs| - 1]) else segs
  }

  /**
   * The first component of `path` is exactly `~`: the path is "~" itself or
   * starts with "~/". "~user/key", "/~/key" and "./~/key" do not qualify.
   */
  predicate TildeLed(path: string) {
    path == "~" || (|path| >= 2 && path[..2] == "~/")
  }

  /** The first piece is "~" exactly when the path is led by a `~` component. */
  lemma FirstSegmentTilde(path: string)
    ensures Segments(path)[0] == "~" <==> TildeLed(path)
  {
  }

  /** A glued string begins with its first piece. */
  lemma UnsplitStartsWithFirst(segs: seq<string>)
    requires |segs| >= 1
    ensures segs[0] <= Unsplit(segs)
  {
  }

  /**
   * `segs[i..j]` is what remains of a path's pieces once its first piece is
   * taken off and skipped pieces are trimmed from both ends: only skipped
   * pieces lie between the first piece and `i` and from `j` on, and a
   * non-empty run starts and ends with real components.
   */
  predicate TrimmedRun(segs: seq<string>, i: int, j: int) {
    && 1 <= i <= j <= |segs|
    && (forall k :: 1 <= k < i ==> Skipped(segs[k]))
    && (forall k :: j <= k < |segs| ==> Skipped(segs[k]))
    && (i < j ==> !Skipped(segs[i]) && !Skipped(segs[j - 1]))
  }

  /**
   * `Path::strip_prefix("~")`: present exactly when the first component is
   * `~`, and then the rest of the path with skipped pieces trimmed from both
   * ends, as `Components::as_path` leaves it. It never starts with '/'.
   */
  function StripTilde(path: string): (suffix: Option<string>)
    ensures suffix.Some? <==> TildeLed(path)
    ensures suffix.Some? ==> exists i, j :: TrimmedRun(Segments(path), i, j) && suffix.value == Unsplit(Segments(path)[i..j])
    ensures suffix.Some? ==> |suffix.value| == 0 || suffix.value[0] != '/'
  {
    FirstSegmentTilde(path);
    var segs := Segments(path);
    if segs[0] == "~" then
      var kept := TrimBack(TrimFront(segs[1..]));
      TrimmedRunOf(segs);
      NoLeadingSlash(kept);
      assert TrimmedRun(segs, RunStart(segs), RunEnd(segs));
      Some(Unsplit(kept))
    else
      None
  }

  /** Where the trimmed run of pieces after the first begins. */
  function RunStart(segs: seq<string>): int
    requires |segs| >= 1
  {
    |segs| - |TrimFront(segs[1..])|
  }

  /** Where the trimmed run of pieces after the first ends. */
  function RunEnd(segs: seq<string>): int
    requires |segs| >= 1
  {
    RunStart(segs) + |TrimBack(TrimFront(segs[1..]))|
  }

  /** Trimming the pieces after the first leaves a trimmed run of them. */
  lemma TrimmedRunOf(segs: seq<string>)
    requires |segs| >= 1
    ensures TrimmedRun(segs, RunStart(segs), RunEnd(segs))
    ensures TrimBack(TrimFront(segs[1..])) == segs[RunStart(segs)..RunEnd(segs)]
  {
    var front := TrimFront(segs[1..]);
    var kept := TrimBack(front);
    var i := RunStart(segs);
    TrimFrontSlice(segs);
    assert front == segs[i..];
    assert RunEnd(segs) == i + |kept|;
    RunOfTrims(segs, front, kept, i);
  }

  /**
   * A suffix `front` of the pieces, preceded only by skipped pieces and cut
   * back to `kept` by dropping only skipped pieces, is a trimmed run.
   */
  lemma RunOfTrims(segs: seq<string>, front: seq<string>, kept: seq<string>, i: int)
    requires 1 <= i <= |segs| && front == segs[i..]
    requires forall k :: 1 <= k < i ==> Skipped(segs[k])
    requires |front| > 0 ==> !Skipped(front[0])
    requires |kept| <= |front| && kept == front[..|kept|]
    requires |kept| > 0 ==> !Skipped(kept[|kept| - 1])
    requires forall t :: |kept| <= t < |front| ==> Skipped(front[t])
    ensures TrimmedRun(segs, i, i + |kept|) && kept == segs[i..i + |kept|]
  {
    var j := i + |kept|;
    forall k | j <= k < |segs|
      ensures Skipped(segs[k])
    {
      assert segs[k] == front[k - i];
    }
    if |kept| > 0 {
      assert segs[i] == front[0];
      assert segs[j - 1] == kept[|kept| - 1];
    }
  }

  /** The front-trimmed pieces are a suffix, preceded only by skipped pieces. */
  lemma TrimFrontSlice(segs: seq<string>)
    requires |segs| >= 1
    ensures TrimFront(segs[1..]) == segs[RunStart(segs)..]
    ensures forall k :: 1 <= k < RunStart(segs) ==> Skipped(segs[k])
  {
    var rest := segs[1..];
    forall k | 1 <= k < RunStart(segs)
      ensures Skipped(segs[k])
    {
      assert segs[k] == rest[k - 1];
    }
  }

  /** Pieces without '/' whose first is not empty glue into a string not starting with '/'. */
  lemma NoLeadingSlash(segs: seq<string>)
    requires forall k :: 0 <= k < |segs| ==> '/' !in segs[k]
    requires |segs| > 0 ==> segs[0] != ""
    ensures |Unsplit(segs)| == 0 || Unsplit(segs)[0] != '/'
  {
    if |segs| > 0 {
      UnsplitStartsWithFirst(segs);
      assert Unsplit(segs)[0] == segs[0][0];
    }
  }

  /**
   * `PathBuf::join`: an absolute `suffix` replaces `base`; otherwise it is
   * appended, after a '/' unless `base` is empty or already ends in one.
   */
  function Join(base: string, suffix: string): (joined: string)
    ensures |suffix| > 0 && suffix[0] == '/' ==> joined == suffix
    ensures |suffix| == 0 || suffix[0] != '/' ==> |joined| - |base| - |suffix| in {0, 1}
    ensures |suffix| == 0 || suffix[0] != '/' ==> base <= joined && joined[|joined| - |suffix|..] == suffix
    ensures |suffix| == 0 || suffix[0] != '/' ==>
      (|joined| == |base| + |suffix| + 1 <==> |base| > 0 && base[|base| - 1] != '/')
    ensures (|suffix| == 0 || suffix[0] != '/') && |base| > 0 ==> joined[|joined| - |suffix| - 1] == '/'
  {
    if |suffix| > 0 && suffix[0] == '/' then suffix
    else if |base| > 0 && base[|base| - 1] != '/' then base + "/" + suffix
    else base + suffix
  }

  /** Joining nothing onto a base without a trailing '/' just adds one. */
  lemma JoinEmpty(base: string)
    requires |base| > 0 && base[|base| - 1] != '/'
    ensures Join(base, "") == base + "/"
  {
    var joined := Join(base, "");
    assert joined[..|base|] == base;
  }

  /** A relative path whose first and last pieces are real components. */
  predicate Tidy(rest: string) {
    var segs := Segments(rest);
    !Skipped(segs[0]) && !Skipped(segs[|segs| - 1])
  }

  /** For "~/" followed by a tidy path, the suffix is exactly that path. */
  lemma StripTildeTidy(rest: string)
    requires Tidy(rest)
    ensures StripTilde("~/" + rest) == Some(rest)
  {
    SegmentsSplit("~", rest);
    assert "~/" + rest == "~" + "/" + rest;
    var segs := Segments("~/" + rest);
    assert segs[1..] == Segments(rest);
    UnsplitSegments(rest);
  }

  /** Pieces without '/' that begin and end with real components glue into a tidy path. */
  lemma UnsplitIsTidy(segs: seq<string>)
    requires |segs| >= 1
    requires forall i :: 0 <= i < |segs| ==> '/' !in segs[i]
    requires !Skipped(segs[0]) && !Skipped(segs[|segs| - 1])
    ensures Tidy(Unsplit(segs))
  {
    SegmentsUnsplit(segs);
    TidyWhenEndsReal(Unsplit(segs), segs);
  }

  /** A path whose pieces begin and end with real components is tidy. */
  lemma TidyWhenEndsReal(path: string, segs: seq<string>)
    requires Segments(path) == segs && |segs| >= 1
    requires !Skipped(segs[0]) && !Skipped(segs[|segs| - 1])
    ensures Tidy(path)
  {
  }
}
