/**
 * Screenshot capture parameters, similarity scoring and the reference
 * assertion of python/playgodot/screenshot.py. Images arrive already decoded
 * and converted to RGB; the score is exact real arithmetic.
 */
module Screenshot {
  import opened Wrappers
  import opened Json
  import Client

  /** The largest per-channel difference two pixels may have and still count as equal. */
  const Tolerance: int := 5

  datatype Rgb = Rgb(r: int, g: int, b: int)

  /** A decoded image: `rows[y][x]` is the pixel in column x of row y. */
  datatype Image = Image(width: nat, height: nat, rows: seq<seq<Rgb>>)

  /** The pixel grid has the dimensions the image reports. */
  ghost predicate WellFormed(img: Image)
  {
    |img.rows| == img.height && forall y :: 0 <= y < |img.rows| ==> |img.rows[y]| == img.width
  }

  datatype ScreenshotError =
    | ZeroDivision                                   // both images have no pixels
    | ReferenceNotFound(path: string)                // "Reference screenshot not found: {path}"
    | NotMatching(similarity: real, threshold: real) // "Screenshot doesn't match reference. ..."

  datatype MatchOutcome = Matched | ReferenceCaptured

  function Abs(x: int): nat
  {
    if x < 0 then -x else x
  }

  /** Some channel of the two pixels differs by more than the tolerance. */
  predicate Differs(p: Rgb, q: Rgb)
  {
    Abs(p.r - q.r) > Tolerance || Abs(p.g - q.g) > Tolerance || Abs(p.b - q.b) > Tolerance
  }

  /** The differing pixels among the first `n` of two rows. */
  function RowDiff(ra: seq<Rgb>, rb: seq<Rgb>, n: nat): (d: nat)
    requires n <= |ra| && n <= |rb|
    ensures d <= n
  {
    if n == 0 then 0 else RowDiff(ra, rb, n - 1) + (if Differs(ra[n - 1], rb[n - 1]) then 1 else 0)
  }

  /** The differing pixels among the first `m` rows of two images of the same size. */
  function GridDiff(a: Image, b: Image, m: nat): (d: nat)
    requires WellFormed(a) && WellFormed(b) && a.width == b.width && a.height == b.height
    requires m <= a.height
    ensures d <= m * a.width
  {
    if m == 0 then 0 else GridDiff(a, b, m - 1) + RowDiff(a.rows[m - 1], b.rows[m - 1], a.width)
  }

  /** The score for `diff` differing pixels out of `total`. */
  function Similarity(diff: nat, total: nat): real
    requires total > 0
  {
    1.0 - diff as real / total as real
  }

  /** What `compare` returns for two decoded images. */
  function Score(expected: Image, actual: Image): Result<real, ScreenshotError>
    requires WellFormed(expected) && WellFormed(actual)
  {
    if expected.width != actual.width || expected.height != actual.height then Ok(0.0)
    else if expected.width * expected.height == 0 then Err(ZeroDivision)
    else Ok(Similarity(GridDiff(expected, actual, expected.height), expected.width * expected.height))
  }

  /**
   * `compare`: scans the images row by row, counting the pixels where some
   * channel differs by more than the tolerance.
   */
  method Compare(expected: Image, actual: Image) returns (r: Result<real, ScreenshotError>)
    requires WellFormed(expected) && WellFormed(actual)
    ensures r == Score(expected, actual)
  {
    if expected.width != actual.width || expected.height != actual.height {
      return Ok(0.0);
    }
    var diffPixels := 0;
    var totalPixels := expected.width * expected.height;
    var y := 0;
    while y < expected.height
      invariant 0 <= y <= expected.height
      invariant diffPixels == GridDiff(expected, actual, y)
    {
      var x := 0;
      while x < expected.width
        invariant 0 <= x <= expected.width
        invariant diffPixels == GridDiff(expected, actual, y) + RowDiff(expected.rows[y], actual.rows[y], x)
      {
        var p1 := expected.rows[y][x];
        var p2 := actual.rows[y][x];
        if Abs(p1.r - p2.r) > Tolerance || Abs(p1.g - p2.g) > Tolerance || Abs(p1.b - p2.b) > Tolerance {
          diffPixels := diffPixels + 1;
        }
        x := x + 1;
      }
      y := y + 1;
    }
    if totalPixels == 0 {
      return Err(ZeroDivision);
    }
    assert diffPixels == GridDiff(expected, actual, expected.height);
    r := Ok(1.0 - diffPixels as real / totalPixels as real);
  }

  /** The positions `(x, y)` of the differing pixels in the first `n` columns of row `y`. */
  ghost function RowPositions(a: Image, b: Image, y: nat, n: nat): set<(nat, nat)>
    requires WellFormed(a) && WellFormed(b) && a.width == b.width && a.height == b.height
    requires y < a.height && n <= a.width
  {
    set x: nat | x < n && Differs(a.rows[y][x], b.rows[y][x]) :: (x, y)
  }

  /** The positions `(x, y)` of the differing pixels in the first `m` rows. */
  ghost function GridPositions(a: Image, b: Image, m: nat): set<(nat, nat)>
    requires WellFormed(a) && WellFormed(b) && a.width == b.width && a.height == b.height
    requires m <= a.height
  {
    set y: nat, x: nat | y < m && x < a.width && Differs(a.rows[y][x], b.rows[y][x]) :: (x, y)
  }

  /** The positions of all differing pixels. */
  ghost function DiffPositions(a: Image, b: Image): set<(nat, nat)>
    requires WellFormed(a) && WellFormed(b) && a.width == b.width && a.height == b.height
  {
    GridPositions(a, b, a.height)
  }

  lemma {:induction false} RowCount(a: Image, b: Image, y: nat, n: nat)
    requires WellFormed(a) && WellFormed(b) && a.width == b.width && a.height == b.height
    requires y < a.height && n <= a.width
    ensures |RowPositions(a, b, y, n)| == RowDiff(a.rows[y], b.rows[y], n)
  {
    if n > 0 {
      RowCount(a, b, y, n - 1);
      var prev := RowPositions(a, b, y, n - 1);
      var last := n - 1;
      if Differs(a.rows[y][last], b.rows[y][last]) {
        assert RowPositions(a, b, y, n) == prev + {(last, y)};
        assert (last, y) !in prev;
      } else {
        assert RowPositions(a, b, y, n) == prev;
      }
    } else {
      assert RowPositions(a, b, y, n) == {};
    }
  }

  lemma {:induction false} GridCount(a: Image, b: Image, m: nat)
    requires WellFormed(a) && WellFormed(b) && a.width == b.width && a.height == b.height
    requires m <= a.height
    ensures |GridPositions(a, b, m)| == GridDiff(a, b, m)
  {
    if m > 0 {
      GridCount(a, b, m - 1);
      RowCount(a, b, m - 1, a.width);
      var prev := GridPositions(a, b, m - 1);
      var row := RowPositions(a, b, m - 1, a.width);
      assert GridPositions(a, b, m) == prev + row;
      assert prev !! row;
    } else {
      assert GridPositions(a, b, m) == {};
    }
  }

  /**
   * The count `compare` accumulates is exactly the number of positions
   * where some channel differs by more than the tolerance.
   */
  lemma DiffCountIsPositions(a: Image, b: Image)
    requires WellFormed(a) && WellFormed(b) && a.width == b.width && a.height == b.height
    ensures |DiffPositions(a, b)| == GridDiff(a, b, a.height)
    ensures DiffPositions(a, b) <= set y: nat, x: nat | y < a.height && x < a.width :: (x, y)
  {
    GridCount(a, b, a.height);
  }

  /** Images of different sizes score exactly 0. */
  lemma SizeMismatchScoresZero(a: Image, b: Image)
    requires WellFormed(a) && WellFormed(b)
    requires a.width != b.width || a.height != b.height
    ensures Score(a, b) == Ok(0.0)
  {
  }

  /** Whenever a score is computed it lies between 0 and 1. */
  lemma ScoreInUnitInterval(a: Image, b: Image)
    requires WellFormed(a) && WellFormed(b)
    ensures Score(a, b).Ok? ==> 0.0 <= Score(a, b).value <= 1.0
  {
    if a.width == b.width && a.height == b.height && a.width * a.height > 0 {
      var d := GridDiff(a, b, a.height);
      var t := a.width * a.height;
      assert d <= t;
      assert d as real / t as real <= 1.0;
    }
  }

  /** Only two images without pixels fail to score, and they divide by zero. */
  lemma ScoreFailsOnlyWhenEmpty(a: Image, b: Image)
    requires WellFormed(a) && WellFormed(b)
    ensures Score(a, b).Err? <==> a.width == b.width && a.height == b.height && a.width * a.height == 0
    ensures Score(a, b).Err? ==> Score(a, b).error == ZeroDivision
  {
  }

  lemma {:induction false} RowDiffSame(ra: seq<Rgb>, n: nat)
    requires n <= |ra|
    ensures RowDiff(ra, ra, n) == 0
  {
    if n > 0 {
      RowDiffSame(ra, n - 1);
    }
  }

  lemma {:induction false} GridDiffSame(a: Image, m: nat)
    requires WellFormed(a) && m <= a.height
    ensures GridDiff(a, a, m) == 0
  {
    if m > 0 {
      GridDiffSame(a, m - 1);
      RowDiffSame(a.rows[m - 1], a.width);
    }
  }

  /** An image with at least one pixel scores exactly 1 against itself. */
  lemma IdenticalScoresOne(a: Image)
    requires WellFormed(a) && a.width * a.height > 0
    ensures Score(a, a) == Ok(1.0)
  {
    GridDiffSame(a, a.height);
  }

  lemma {:induction false} RowWithinTolerance(ra: seq<Rgb>, rb: seq<Rgb>, n: nat)
    requires n <= |ra| && n <= |rb|
    requires forall x :: 0 <= x < n ==> !Differs(ra[x], rb[x])
    ensures RowDiff(ra, rb, n) == 0
  {
    if n > 0 {
      RowWithinTolerance(ra, rb, n - 1);
    }
  }

  lemma {:induction false} GridWithinTolerance(a: Image, b: Image, m: nat)
    requires WellFormed(a) && WellFormed(b) && a.width == b.width && a.height == b.height
    requires m <= a.height
    requires forall y, x :: 0 <= y < a.height && 0 <= x < a.width ==> !Differs(a.rows[y][x], b.rows[y][x])
    ensures GridDiff(a, b, m) == 0
  {
    if m > 0 {
      GridWithinTolerance(a, b, m - 1);
      RowWithinTolerance(a.rows[m - 1], b.rows[m - 1], a.width);
    }
  }

  /** Images whose every channel is within the tolerance everywhere score exactly 1. */
  lemma WithinToleranceScoresOne(a: Image, b: Image)
    requires WellFormed(a) && WellFormed(b) && a.width == b.width && a.height == b.height
    requires a.width * a.height > 0
    requires forall y, x :: 0 <= y < a.height && 0 <= x < a.width ==> !Differs(a.rows[y][x], b.rows[y][x])
    ensures Score(a, b) == Ok(1.0)
  {
    GridWithinTolerance(a, b, a.height);
  }

  lemma {:induction false} RowAllDiffer(ra: seq<Rgb>, rb: seq<Rgb>, n: nat)
    requires n <= |ra| && n <= |rb|
    requires forall x :: 0 <= x < n ==> Differs(ra[x], rb[x])
    ensures RowDiff(ra, rb, n) == n
  {
    if n > 0 {
      RowAllDiffer(ra, rb, n - 1);
    }
  }

  lemma {:induction false} GridAllDiffer(a: Image, b: Image, m: nat)
    requires WellFormed(a) && WellFormed(b) && a.width == b.width && a.height == b.height
    requires m <= a.height
    requires forall y, x :: 0 <= y < a.height && 0 <= x < a.width ==> Differs(a.rows[y][x], b.rows[y][x])
    ensures GridDiff(a, b, m) == m * a.width
  {
    if m > 0 {
      GridAllDiffer(a, b, m - 1);
      RowAllDiffer(a.rows[m - 1], b.rows[m - 1], a.width);
    }
  }

  /** Images differing at every pixel (a black and a white one, say) score exactly 0. */
  lemma AllDifferentScoresZero(a: Image, b: Image)
    requires WellFormed(a) && WellFormed(b) && a.width == b.width && a.height == b.height
    requires a.width * a.height > 0
    requires forall y, x :: 0 <= y < a.height && 0 <= x < a.width ==> Differs(a.rows[y][x], b.rows[y][x])
    ensures Score(a, b) == Ok(0.0)
  {
    GridAllDiffer(a, b, a.height);
    var t := a.width * a.height;
    assert GridDiff(a, b, a.height) == t;
    assert t as real / t as real == 1.0;
  }

  lemma {:induction false} RowDiffSymmetric(ra: seq<Rgb>, rb: seq<Rgb>, n: nat)
    requires n <= |ra| && n <= |rb|
    ensures RowDiff(ra, rb, n) == RowDiff(rb, ra, n)
  {
    if n > 0 {
      RowDiffSymmetric(ra, rb, n - 1);
    }
  }

  lemma {:induction false} GridDiffSymmetric(a: Image, b: Image, m: nat)
    requires WellFormed(a) && WellFormed(b) && a.width == b.width && a.height == b.height
    requires m <= a.height
    ensures GridDiff(a, b, m) == GridDiff(b, a, m)
  {
    if m > 0 {
      GridDiffSymmetric(a, b, m - 1);
      RowDiffSymmetric(a.rows[m - 1], b.rows[m - 1], a.width);
    }
  }

  /** The score does not depend on which image is the reference. */
  lemma ScoreSymmetric(a: Image, b: Image)
    requires WellFormed(a) && WellFormed(b)
    ensures Score(a, b) == Score(b, a)
  {
    if a.width == b.width && a.height == b.height {
      GridDiffSymmetric(a, b, a.height);
    }
  }

  /** More differing pixels out of the same total give a strictly lower score. */
  lemma SimilarityStrictlyDecreasing(d1: nat, d2: nat, total: nat)
    requires 0 < total && d1 < d2
    ensures Similarity(d2, total) < Similarity(d1, total)
  {
    assert d1 as real / total as real < d2 as real / total as real;
  }

  /**
   * If a second candidate differs from the reference at strictly more
   * positions than a first one, it scores strictly lower.
   */
  lemma MoreDifferencesScoreLower(ref: Image, a: Image, b: Image)
    requires WellFormed(ref) && WellFormed(a) && WellFormed(b)
    requires a.width == ref.width && a.height == ref.height && b.width == ref.width && b.height == ref.height
    requires ref.width * ref.height > 0
    requires |DiffPositions(ref, a)| < |DiffPositions(ref, b)|
    ensures Score(ref, b).value < Score(ref, a).value
  {
    DiffCountIsPositions(ref, a);
    DiffCountIsPositions(ref, b);
    var t := ref.width * ref.height;
    SimilarityStrictlyDecreasing(GridDiff(ref, a, ref.height), GridDiff(ref, b, ref.height), t);
  }

  /**
   * In particular, a candidate that differs from the reference wherever a
   * first one does, and somewhere else too, scores strictly lower.
   */
  lemma MoreDifferingPositionsScoreLower(ref: Image, a: Image, b: Image)
    requires WellFormed(ref) && WellFormed(a) && WellFormed(b)
    requires a.width == ref.width && a.height == ref.height && b.width == ref.width && b.height == ref.height
    requires ref.width * ref.height > 0
    requires DiffPositions(ref, a) < DiffPositions(ref, b)
    ensures Score(ref, b).value < Score(ref, a).value
  {
    StrictSubsetSmaller(DiffPositions(ref, a), DiffPositions(ref, b));
    MoreDifferencesScoreLower(ref, a, b);
  }

  lemma StrictSubsetSmaller<T>(s: set<T>, u: set<T>)
    requires s < u
    ensures |s| < |u|
  {
    assert u - s != {} by {
      if u - s == {} {
        assert false;
      }
    }
    var e :| e in u - s;
    SubsetNoLarger(s, u - {e});
    assert |u - {e}| == |u| - 1;
  }

  lemma {:induction false} SubsetNoLarger<T>(s: set<T>, u: set<T>)
    requires s <= u
    ensures |s| <= |u|
    decreases |s|
  {
    if s != {} {
      var x :| x in s;
      SubsetNoLarger(s - {x}, u - {x});
    }
  }

  /** The verdict of `assert_matches` on a computed score. */
  function Verdict(score: Result<real, ScreenshotError>, threshold: real): (r: Result<MatchOutcome, ScreenshotError>)
    ensures score.Ok? ==> (r.Ok? <==> score.value >= threshold)
    ensures score.Ok? && r.Ok? ==> r.value == Matched
    ensures score.Ok? && r.Err? ==> r.error == NotMatching(score.value, threshold)
    ensures score.Err? ==> r == Err(score.error)
  {
    match score
    case Err(e) => Err(e)
    case Ok(s) => if s < threshold then Err(NotMatching(s, threshold)) else Ok(Matched)
  }

  /**
   * `assert_matches`: a missing reference is captured when `update` is set and
   * reported otherwise; an existing one is compared with the current screenshot.
   */
  method AssertMatches(referencePath: string, referenceExists: bool, threshold: real, update: bool,
                       reference: Image, current: Image) returns (r: Result<MatchOutcome, ScreenshotError>)
    requires WellFormed(reference) && WellFormed(current)
    ensures !referenceExists && update ==> r == Ok(ReferenceCaptured)
    ensures !referenceExists && !update ==> r == Err(ReferenceNotFound(referencePath))
    ensures referenceExists ==> r == Verdict(Score(reference, current), threshold)
  {
    if !referenceExists {
      if update {
        return Ok(ReferenceCaptured);
      }
      return Err(ReferenceNotFound(referencePath));
    }
    var similarity := Compare(reference, current);
    match similarity {
      case Err(e) =>
        r := Err(e);
      case Ok(s) =>
        if s < threshold {
          r := Err(NotMatching(s, threshold));
        } else {
          r := Ok(Matched);
        }
    }
  }

  /** An unchanged screen matches its reference at every threshold up to 1. */
  lemma IdenticalMatches(a: Image, threshold: real)
    requires WellFormed(a) && a.width * a.height > 0 && threshold <= 1.0
    ensures Verdict(Score(a, a), threshold) == Ok(Matched)
  {
    IdenticalScoresOne(a);
  }

  /** A screen whose size changed fails every positive threshold. */
  lemma ResizedFails(a: Image, b: Image, threshold: real)
    requires WellFormed(a) && WellFormed(b) && (a.width != b.width || a.height != b.height)
    requires threshold > 0.0
    ensures Verdict(Score(a, b), threshold) == Err(NotMatching(0.0, threshold))
  {
  }

  /** The parameters `capture` sends: a `node` member only for a non-empty node path. */
  function CaptureParams(node: Option<string>): (params: map<string, Json>)
    ensures "node" in params <==> node.Some? && node.value != ""
    ensures "node" in params ==> params["node"] == JStr(node.value)
    ensures params.Keys <= {"node"}
  {
    if node.Some? && node.value != "" then map["node" := JStr(node.value)] else map[]
  }

  /**
   * The request `capture` sends is a JSON-RPC request for "screenshot" whose
   * `params` member exists exactly when a non-empty node path is given.
   */
  lemma CaptureRequest(id: nat, node: Option<string>)
    ensures Client.ReadCall(Client.RequestObject(id, "screenshot", Some(CaptureParams(node)))) ==
      Some(Client.Call(JNum(id as real), "screenshot",
                       if node.Some? && node.value != "" then Some(JObj(map["node" := JStr(node.value)])) else None))
  {
    Client.RequestIsJsonRpc(id, "screenshot", Some(CaptureParams(node)));
  }
}
