/**
 * The page frame's path logic: the breadcrumb trail derived from the current
 * path, and which navigation entry is highlighted.
 */
module Layout {
  import opened JsStrings

  /** `s.split('/')`: the pieces between slashes, empty ones included; never an empty list. */
  function Split(s: string): (pieces: seq<string>)
    ensures |pieces| >= 1
    decreases |s|
  {
    if s == "" then [""]
    else if s[0] == '/' then [""] + Split(s[1..])
    else
      var rest := Split(s[1..]);
      [[s[0]] + rest[0]] + rest[1..]
  }

  /** `.filter(Boolean)` on strings: drops the empty ones. */
  function NonEmpty(xs: seq<string>): (r: seq<string>)
    ensures forall k | 0 <= k < |r| :: r[k] != ""
    ensures |r| <= |xs|
  {
    if xs == [] then [] else (if xs[0] != "" then [xs[0]] else []) + NonEmpty(xs[1..])
  }

  /** The path's segments: what the breadcrumbs are built from. */
  function Segments(pathname: string): seq<string> {
    NonEmpty(Split(pathname))
  }

  predicate SlashFree(s: string) {
    forall k | 0 <= k < |s| :: s[k] != '/'
  }

  /** `"/" + segs.join("/")` built left to right, as the loop accumulates it; empty for no segments. */
  function JoinedPath(segs: seq<string>): string {
    if segs == [] then "" else JoinedPath(segs[..|segs| - 1]) + "/" + segs[|segs| - 1]
  }

  /** The href of breadcrumb `i`: `/` for the first, then the path of the first `i` segments. */
  function CrumbHref(segs: seq<string>, i: nat): string
    requires i <= |segs|
  {
    if i == 0 then "/" else JoinedPath(segs[..i])
  }

  datatype Crumb = Crumb(name: string, href: string)

  const HomeCrumb: Crumb := Crumb("Home", "/")

  /** `getBreadcrumbs()`: the home crumb, then one crumb per non-empty segment. */
  method GetBreadcrumbs(pathname: string) returns (crumbs: seq<Crumb>)
    ensures var segs := Segments(pathname);
      && |crumbs| == 1 + |segs|
      && crumbs[0] == HomeCrumb
      && forall i | 0 <= i < |segs| :: crumbs[i + 1] == Crumb(Capitalize(segs[i]), CrumbHref(segs, i + 1))
  {
    var segs := Segments(pathname);
    crumbs := [HomeCrumb];
    var currentPath := "";
    for i := 0 to |segs|
      invariant |crumbs| == 1 + i
      invariant crumbs[0] == HomeCrumb
      invariant currentPath == JoinedPath(segs[..i])
      invariant forall k | 0 <= k < i :: crumbs[k + 1] == Crumb(Capitalize(segs[k]), CrumbHref(segs, k + 1))
    {
      CrumbHrefStep(segs, i);
      currentPath := currentPath + "/" + segs[i];
      crumbs := crumbs + [Crumb(Capitalize(segs[i]), currentPath)];
    }
  }

  /** One more segment extends the accumulated path by `/` and that segment. */
  lemma CrumbHrefStep(segs: seq<string>, i: nat)
    requires i < |segs|
    ensures CrumbHref(segs, i + 1) == JoinedPath(segs[..i]) + "/" + segs[i]
    ensures JoinedPath(segs[..i + 1]) == CrumbHref(segs, i + 1)
  {
    assert segs[..i + 1][..i] == segs[..i] && segs[..i + 1][i] == segs[i];
  }

  /** A slash-free string is one piece. */
  lemma {:induction false} SplitSlashFree(s: string)
    requires SlashFree(s)
    ensures Split(s) == [s]
    decreases |s|
  {
    if s != "" {
      SplitSlashFree(s[1..]);
      assert [s[0]] + s[1..] == s;
    }
  }

  /** Splitting at a slash splits the two sides separately. */
  lemma {:induction false} SplitAtSlash(a: string, b: string)
    ensures Split(a + "/" + b) == Split(a) + Split(b)
    decreases |a|
  {
    if a == "" {
      assert a + "/" + b == "/" + b;
      assert ("/" + b)[1..] == b;
    } else {
      var s := a + "/" + b;
      assert s[0] == a[0];
      assert s[1..] == a[1..] + "/" + b;
      SplitAtSlash(a[1..], b);
    }
  }

  lemma {:induction false} NonEmptyAppend(xs: seq<string>, ys: seq<string>)
    ensures NonEmpty(xs + ys) == NonEmpty(xs) + NonEmpty(ys)
    decreases |xs|
  {
    if xs == [] {
      assert xs + ys == ys;
    } else {
      assert (xs + ys)[0] == xs[0];
      assert (xs + ys)[1..] == xs[1..] + ys;
      NonEmptyAppend(xs[1..], ys);
    }
  }

  /** Every segment of a path is non-empty and holds no slash. */
  lemma {:induction false} SegmentsAreProper(pathname: string)
    ensures forall k | 0 <= k < |Segments(pathname)| :: Segments(pathname)[k] != "" && SlashFree(Segments(pathname)[k])
    decreases |pathname|
  {
    SplitPiecesSlashFree(pathname);
    NonEmptyKeepsProperty(Split(pathname));
  }

  lemma {:induction false} SplitPiecesSlashFree(s: string)
    ensures forall k | 0 <= k < |Split(s)| :: SlashFree(Split(s)[k])
    decreases |s|
  {
    if s != "" {
      SplitPiecesSlashFree(s[1..]);
      var rest := Split(s[1..]);
      if s[0] != '/' {
        assert SlashFree(rest[0]);
        var first := [s[0]] + rest[0];
        assert forall k | 0 <= k < |first| :: first[k] != '/' by {
          forall k | 0 <= k < |first| ensures first[k] != '/' {
            if k > 0 {
              assert first[k] == rest[0][k - 1];
            }
          }
        }
        assert Split(s) == [first] + rest[1..];
        assert forall k | 1 <= k < |Split(s)| :: Split(s)[k] == rest[k];
      } else {
        assert forall k | 1 <= k < |Split(s)| :: Split(s)[k] == rest[k - 1];
      }
    }
  }

  lemma {:induction false} NonEmptyKeepsProperty(xs: seq<string>)
    requires forall k | 0 <= k < |xs| :: SlashFree(xs[k])
    ensures forall k | 0 <= k < |NonEmpty(xs)| :: SlashFree(NonEmpty(xs)[k])
    decreases |xs|
  {
    if xs != [] {
      assert forall k | 0 <= k < |xs[1..]| :: xs[1..][k] == xs[k + 1];
      NonEmptyKeepsProperty(xs[1..]);
      var head := if xs[0] != "" then [xs[0]] else [];
      assert NonEmpty(xs) == head + NonEmpty(xs[1..]);
    }
  }

  /**
   * The path of proper segments splits back into those segments: so the
   * href of breadcrumb `i` is the path of exactly the first `i` segments.
   */
  lemma {:induction false} SegmentsOfJoinedPath(segs: seq<string>)
    requires forall k | 0 <= k < |segs| :: segs[k] != "" && SlashFree(segs[k])
    ensures Segments(JoinedPath(segs)) == segs
    decreases |segs|
  {
    if segs != [] {
      var init, last := segs[..|segs| - 1], segs[|segs| - 1];
      assert forall k | 0 <= k < |init| :: init[k] == segs[k];
      SegmentsOfJoinedPath(init);
      SplitAtSlash(JoinedPath(init), last);
      SplitSlashFree(last);
      NonEmptyAppend(Split(JoinedPath(init)), [last]);
      assert NonEmpty([last]) == [last] by {
        assert [last][1..] == [];
      }
      assert init + [last] == segs;
    }
  }

  /** Breadcrumb `i` links to the path made of the first `i` segments of the current path. */
  lemma CrumbHrefNamesPrefix(pathname: string, i: nat)
    requires i <= |Segments(pathname)|
    ensures Segments(CrumbHref(Segments(pathname), i)) == Segments(pathname)[..i]
  {
    var segs := Segments(pathname);
    SegmentsAreProper(pathname);
    if i == 0 {
      assert Split("/") == ["", ""] by {
        assert "/"[1..] == "";
      }
      assert NonEmpty(["", ""]) == [] by {
        assert ["", ""][1..] == [""];
        assert [""][1..] == [];
      }
    } else {
      assert forall k | 0 <= k < i :: segs[..i][k] == segs[k];
      SegmentsOfJoinedPath(segs[..i]);
    }
  }

  /** Each breadcrumb's href is a proper prefix of the next one's. */
  lemma CrumbHrefsNest(segs: seq<string>, i: nat)
    requires forall k | 0 <= k < |segs| :: segs[k] != ""
    requires i < |segs|
    ensures CrumbHref(segs, i) < CrumbHref(segs, i + 1)
  {
    assert segs[..i + 1][..i] == segs[..i];
    if i == 0 {
      assert segs[..1][..0] == [];
      assert JoinedPath(segs[..1]) == "/" + segs[0];
    }
  }

  /** The side navigation's targets. */
  const NavigationHrefs: seq<string> := ["/dashboard", "/users", "/applications", "/roles"]

  /**
   * `location.pathname === item.href`: a navigation entry is highlighted
   * exactly when the path is its href, so a page below it does not highlight it.
   */
  predicate IsActive(pathname: string, href: string)
    ensures href < pathname ==> !IsActive(pathname, href)
  {
    pathname == href
  }

  /** No path highlights two navigation entries. */
  lemma AtMostOneActive(pathname: string, i: nat, j: nat)
    requires i < |NavigationHrefs| && j < |NavigationHrefs|
    requires IsActive(pathname, NavigationHrefs[i]) && IsActive(pathname, NavigationHrefs[j])
    ensures i == j
  {
    var n := NavigationHrefs;
    assert |n[0]| == 10 && |n[1]| == 6 && |n[2]| == 13 && |n[3]| == 6;
    assert n[1][1] == 'u' && n[3][1] == 'r';
  }
}
