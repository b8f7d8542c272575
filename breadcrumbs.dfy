/** The breadcrumb trail: "Home" followed by one item per visible segment
    of the current pathname; every item but the last links to the route made
    of the segments up to it. */
module Breadcrumbs {
  import opened Common

  /** The segments of a pathname: the non-empty pieces between slashes. */
  function Segments(pathname: string): (segs: seq<string>)
    ensures forall s :: s in segs ==> s != "" && '/' !in s
  {
    NonEmpty(Split(pathname, '/'))
  }

  /** A slash-free stretch of a pathname is one segment, or none when it is empty. */
  lemma SegmentsSlashFree(s: string)
    requires '/' !in s
    ensures Segments(s) == if s == "" then [] else [s]
  {
    SplitNoSeparator(s, '/');
    NonEmptySingle(s);
  }

  /** Cutting a pathname at any slash: the segments of the left part, in
      order, then those of the right part. With `SegmentsSlashFree` this fixes
      the segments of every pathname, repeated ones included. */
  lemma SegmentsConcat(a: string, b: string)
    ensures Segments(a + "/" + b) == Segments(a) + Segments(b)
  {
    SplitConcat(a, b, '/');
    NonEmptyAppend(Split(a, '/'), Split(b, '/'));
  }

  /** A pathname written as "/" and its segments joined by "/" splits back
      into exactly those segments. */
  lemma SegmentsOfNormalisedPath(segs: seq<string>)
    requires forall s :: s in segs ==> s != "" && '/' !in s
    ensures Segments("/" + Join(segs, '/')) == segs
  {
    if segs == [] {
      SplitJoin(["", ""], '/');
      assert Join(["", ""], '/') == "/";
    } else {
      var pieces := [""] + segs;
      assert pieces[1..] == segs;
      assert Join(pieces, '/') == "/" + Join(segs, '/');
      SplitJoin(pieces, '/');
      NonEmptyKeeps(segs);
    }
  }

  /** `toLowerCase` on ASCII letters. */
  function LowerChar(c: char): (l: char)
  {
    if 'A' <= c <= 'Z' then (c as int - 'A' as int + 'a' as int) as char else c
  }

  /** `toUpperCase` on ASCII letters. */
  function UpperChar(c: char): (u: char)
  {
    if 'a' <= c <= 'z' then (c as int - 'a' as int + 'A' as int) as char else c
  }

  function ToLower(s: string): (r: string)
    ensures |r| == |s| && forall i :: 0 <= i < |s| ==> r[i] == LowerChar(s[i])
  {
    seq(|s|, i requires 0 <= i < |s| => LowerChar(s[i]))
  }

  /** Segments that never appear in the trail, whatever their case. */
  predicate Hidden(seg: string)
  {
    ToLower(seg) == "venue" || ToLower(seg) == "profile"
  }

  /** A visible segment together with its index among all segments. */
  datatype Entry = Entry(seg: string, idx: nat)

  /** The visible segments in their original order, each with its original index. */
  function Allowed(segs: seq<string>): (r: seq<Entry>)
    ensures forall k :: 0 <= k < |r| ==> r[k].idx < |segs| && segs[r[k].idx] == r[k].seg && !Hidden(r[k].seg)
  {
    if segs == [] then []
    else
      var n := |segs| - 1;
      var init := Allowed(segs[..n]);
      assert forall k :: 0 <= k < |init| ==> segs[init[k].idx] == segs[..n][init[k].idx];
      init + (if Hidden(segs[n]) then [] else [Entry(segs[n], n)])
  }

  /** Every visible segment is kept, with its own index. */
  lemma {:induction false} AllowedComplete(segs: seq<string>)
    ensures forall i :: 0 <= i < |segs| && !Hidden(segs[i]) ==> Entry(segs[i], i) in Allowed(segs)
  {
    if segs != [] {
      var n := |segs| - 1;
      AllowedComplete(segs[..n]);
      assert forall i :: 0 <= i < n ==> segs[..n][i] == segs[i];
      assert forall e :: e in Allowed(segs[..n]) ==> e in Allowed(segs);
    }
  }

  /** The kept entries are in their original order: indices strictly increase. */
  lemma {:induction false} AllowedOrdered(segs: seq<string>)
    ensures forall a, b :: 0 <= a < b < |Allowed(segs)| ==> Allowed(segs)[a].idx < Allowed(segs)[b].idx
  {
    if segs != [] {
      var n := |segs| - 1;
      var init := Allowed(segs[..n]);
      AllowedOrdered(segs[..n]);
      var r := Allowed(segs);
      assert forall k :: 0 <= k < |init| ==> r[k] == init[k] && init[k].idx < n;
      forall a, b | 0 <= a < b < |r|
        ensures r[a].idx < r[b].idx
      {
        if b == |init| {
          assert r[b] == Entry(segs[n], n);
        } else {
          assert init[a].idx < init[b].idx;
        }
      }
    }
  }

  /** `routeTo`: "/" and the segments up to and including index `idx`, hidden ones included. */
  function RouteTo(segs: seq<string>, idx: nat): string
    requires idx < |segs|
  {
    "/" + Join(segs[..idx + 1], '/')
  }

  /** Every route is a prefix of the normalised full path. */
  lemma RouteIsPrefix(segs: seq<string>, idx: nat)
    requires idx < |segs|
    ensures RouteTo(segs, idx) <= "/" + Join(segs, '/')
  {
    JoinPrefix(segs, idx + 1, '/');
  }

  /** The route's own segments are the first `idx + 1` segments of the path. */
  lemma RouteSegments(segs: seq<string>, idx: nat)
    requires idx < |segs|
    requires forall s :: s in segs ==> s != "" && '/' !in s
    ensures Segments(RouteTo(segs, idx)) == segs[..idx + 1]
  {
    var prefix := segs[..idx + 1];
    forall s | s in prefix
      ensures s != "" && '/' !in s
    {
      var j :| 0 <= j <= idx && prefix[j] == s;
      assert segs[j] in segs;
    }
    SegmentsOfNormalisedPath(prefix);
  }

  /** `displayName`: the first character upper-cased, then the rest with every '-' turned into ' '. */
  function DisplayName(seg: string): (name: string)
    ensures |name| == |seg|
    ensures |seg| > 0 ==> name[0] == UpperChar(seg[0])
    ensures forall i :: 1 <= i < |seg| ==> name[i] == if seg[i] == '-' then ' ' else seg[i]
  {
    if seg == "" then ""
    else [UpperChar(seg[0])] + seq(|seg| - 1, i requires 0 <= i < |seg| - 1 => if seg[i + 1] == '-' then ' ' else seg[i + 1])
  }

  /** One list item: its text and, unless it is plain text, the route it links to. */
  datatype Crumb = Crumb(text: string, link: Option<string>)

  const Home := Crumb("Home", Some("/"))

  /** `overrideLast` is used only when it is a non-empty string. */
  predicate Overrides(overrideLast: Option<string>)
  {
    overrideLast.Some? && overrideLast.value != ""
  }

  function Item(segs: seq<string>, allowed: seq<Entry>, k: nat, overrideLast: Option<string>): Crumb
    requires k < |allowed|
    requires forall j :: 0 <= j < |allowed| ==> allowed[j].idx < |segs|
  {
    var isLast := k == |allowed| - 1;
    var text := if isLast && Overrides(overrideLast) then overrideLast.value else DisplayName(allowed[k].seg);
    Crumb(text, if isLast then None else Some(RouteTo(segs, allowed[k].idx)))
  }

  /** The items after "Home", one per visible segment. */
  function Items(segs: seq<string>, overrideLast: Option<string>): (items: seq<Crumb>)
    ensures |items| == |Allowed(segs)|
    ensures forall k :: 0 <= k < |items| ==> items[k] == Item(segs, Allowed(segs), k, overrideLast)
  {
    var allowed := Allowed(segs);
    seq(|allowed|, k requires 0 <= k < |allowed| => Item(segs, allowed, k, overrideLast))
  }

  /** The whole trail for a pathname: "Home" linking to "/" always comes first. */
  function Trail(pathname: string, overrideLast: Option<string>): (crumbs: seq<Crumb>)
    ensures |crumbs| >= 1 && crumbs[0] == Home
  {
    [Home] + Items(Segments(pathname), overrideLast)
  }

  /** Only the last item is plain text: every earlier item is a link. */
  lemma OnlyLastIsPlain(segs: seq<string>, overrideLast: Option<string>)
    ensures var items := Items(segs, overrideLast);
            forall k :: 0 <= k < |items| ==> (items[k].link.None? <==> k == |items| - 1)
  {
  }

  /** Every link points to the route of its own segment, which is a prefix of
      the normalised full path. */
  lemma LinksArePrefixes(segs: seq<string>, overrideLast: Option<string>)
    ensures var items := Items(segs, overrideLast);
            forall k :: 0 <= k < |items| && items[k].link.Some? ==>
              items[k].link.value == RouteTo(segs, Allowed(segs)[k].idx)
              && items[k].link.value <= "/" + Join(segs, '/')
  {
    var allowed := Allowed(segs);
    forall k | 0 <= k < |allowed|
      ensures RouteTo(segs, allowed[k].idx) <= "/" + Join(segs, '/')
    {
      RouteIsPrefix(segs, allowed[k].idx);
    }
  }

  /** Each item shows its segment's display name, except that a non-empty
      `overrideLast` replaces the text of the last item, and only that text. */
  lemma ItemTexts(segs: seq<string>, overrideLast: Option<string>)
    ensures var items := Items(segs, overrideLast);
            var plain := Items(segs, None);
            && (forall k :: 0 <= k < |items| ==> plain[k].text == DisplayName(Allowed(segs)[k].seg))
            && (forall k :: 0 <= k < |items| - 1 ==> items[k] == plain[k])
            && (|items| > 0 ==> items[|items| - 1].link == plain[|items| - 1].link)
            && (|items| > 0 && Overrides(overrideLast) ==> items[|items| - 1].text == overrideLast.value)
            && (|items| > 0 && !Overrides(overrideLast) ==> items[|items| - 1] == plain[|items| - 1])
  {
  }
}
