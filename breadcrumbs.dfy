/**
 * Breadcrumbs: derived from the URL path unless explicit items are given,
 * optionally headed by a home crumb; every crumb but the last links to its
 * path.
 */
module Breadcrumbs {
  import opened Js
  import opened Lists

  /** A breadcrumb item; `hasIcon` stands for the home icon. */
  datatype Crumb = Crumb(caption: string, path: Option<string>, hasIcon: bool)

  function NonEmpty(): string -> bool
  {
    x => x != ""
  }

  /** `pathname.split('/').filter((x) => x)`: the non-empty segments, in order. */
  function Segments(pathname: string): (r: seq<string>)
    ensures forall i :: 0 <= i < |r| ==> r[i] != "" && '/' !in r[i]
  {
    var parts := Split(pathname, '/');
    var r := Filter(parts, NonEmpty());
    assert forall i :: 0 <= i < |r| ==> r[i] in parts;
    r
  }

  /** The path of crumb i: '/' and the first i+1 segments joined by '/'. */
  function CrumbPath(segs: seq<string>, i: nat): string
    requires i < |segs|
  {
    "/" + Join(segs[..i + 1], "/")
  }

  /** `name.slice(1).replace(/-/g, ' ')`. */
  function DashesToSpaces(s: string): (r: string)
    ensures |r| == |s|
    ensures forall k :: 0 <= k < |s| ==> r[k] == if s[k] == '-' then ' ' else s[k]
  {
    seq(|s|, k requires 0 <= k < |s| => if s[k] == '-' then ' ' else s[k])
  }

  /** A segment's label: its first character uppercased, every later '-' a space. */
  function CrumbLabel(seg: string): (r: string)
    ensures |r| == |seg|
    ensures seg != "" ==> r[0] == UpperChar(seg[0])
    ensures forall k :: 1 <= k < |seg| ==> r[k] == if seg[k] == '-' then ' ' else seg[k]
  {
    if seg == "" then "" else [UpperChar(seg[0])] + DashesToSpaces(seg[1..])
  }

  /** `generateBreadcrumbsFromRoute`: one crumb per segment. */
  function Generate(pathname: string): (r: seq<Crumb>)
    ensures |r| == |Segments(pathname)|
    ensures forall i :: 0 <= i < |r| ==>
      r[i] == Crumb(CrumbLabel(Segments(pathname)[i]), Some(CrumbPath(Segments(pathname), i)), false)
  {
    var segs := Segments(pathname);
    seq(|segs|, i requires 0 <= i < |segs| => Crumb(CrumbLabel(segs[i]), Some(CrumbPath(segs, i)), false))
  }

  lemma {:induction false} JoinSnoc(s: seq<string>, x: string, sep: string)
    requires s != []
    ensures Join(s + [x], sep) == Join(s, sep) + sep + x
  {
    if |s| == 1 {
      assert (s + [x])[1..] == [x];
    } else {
      JoinSnoc(s[1..], x, sep);
      assert (s + [x])[1..] == s[1..] + [x];
    }
  }

  /** Each crumb's path extends the previous one by '/' and the next segment. */
  lemma PathsExtend(segs: seq<string>, i: nat)
    requires i + 1 < |segs|
    ensures CrumbPath(segs, i + 1) == CrumbPath(segs, i) + "/" + segs[i + 1]
    ensures StartsWith(CrumbPath(segs, i + 1), CrumbPath(segs, i))
  {
    assert segs[..i + 2] == segs[..i + 1] + [segs[i + 1]];
    JoinSnoc(segs[..i + 1], segs[i + 1], "/");
  }

  /** A path with a leading '/' and no empty segment is the last crumb's path. */
  lemma {:induction false} LastPathIsPathname(segs: seq<string>)
    requires segs != []
    requires forall i :: 0 <= i < |segs| ==> segs[i] != "" && '/' !in segs[i]
    ensures Segments("/" + Join(segs, "/")) == segs
    ensures CrumbPath(segs, |segs| - 1) == "/" + Join(segs, "/")
  {
    var parts := [""] + segs;
    assert Join(parts, "/") == "/" + Join(segs, "/") by {
      assert parts[1..] == segs;
    }
    SplitJoin(parts, '/');
    FilterAppend([""], segs, NonEmpty());
    FilterAllOrNone(segs, NonEmpty());
    assert segs[..|segs|] == segs;
  }

  /**
   * The crumbs shown: explicit items (even an empty list) replace the generated
   * ones, and a home crumb is put in front when the home icon is on.
   */
  function AllItems(items: Option<seq<Crumb>>, pathname: string, showHomeIcon: bool,
                    homePath: string, homeLabel: string): (r: seq<Crumb>)
    ensures var base := if items.Some? then items.value else Generate(pathname);
      (showHomeIcon ==> r == [Crumb(homeLabel, Some(homePath), true)] + base)
      && (!showHomeIcon ==> r == base)
    ensures |r| == (if items.Some? then |items.value| else |Segments(pathname)|) + (if showHomeIcon then 1 else 0)
  {
    var base := if items.Some? then items.value else Generate(pathname);
    if showHomeIcon then [Crumb(homeLabel, Some(homePath), true)] + base else base
  }

  /** How a crumb is rendered. */
  datatype Rendered = Current | LinkTo(path: string) | Plain

  /** The last crumb is plain current text; the others link when they have a non-empty path. */
  function Render(all: seq<Crumb>): (r: seq<Rendered>)
    ensures |r| == |all|
    ensures |all| > 0 ==> r[|all| - 1] == Current
    ensures forall i :: 0 <= i < |all| - 1 ==>
      (r[i].LinkTo? <==> all[i].path.Some? && all[i].path.value != "")
    ensures forall i :: 0 <= i < |all| - 1 && r[i].LinkTo? ==> r[i].path == all[i].path.value
    ensures forall i :: 0 <= i < |all| - 1 ==> r[i] != Current
  {
    seq(|all|, i requires 0 <= i < |all| =>
      if i == |all| - 1 then Current
      else if all[i].path.Some? && all[i].path.value != "" then LinkTo(all[i].path.value)
      else Plain)
  }

  /** For crumbs derived from the URL, every crumb but the last is a link. */
  lemma OnlyLastUnlinked(pathname: string, showHomeIcon: bool, homePath: string, homeLabel: string)
    requires homePath != ""
    ensures var r := Render(AllItems(None, pathname, showHomeIcon, homePath, homeLabel));
      forall i :: 0 <= i < |r| ==> (r[i].LinkTo? <==> i != |r| - 1)
  {
    var all := AllItems(None, pathname, showHomeIcon, homePath, homeLabel);
    var gen := Generate(pathname);
    forall i | 0 <= i < |all| - 1 ensures all[i].path.Some? && all[i].path.value != "" {
      if showHomeIcon && i > 0 {
        assert all[i] == gen[i - 1];
      }
    }
  }
}
