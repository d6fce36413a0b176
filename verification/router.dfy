/**
 Express-style routing: a router holds routes in registration order, and a
 request goes to the first route whose method and path pattern match. A
 path is its sequence of segments ("/" is the empty sequence); a `:name`
 segment matches any one non-empty segment and binds it, and literal
 segments compare without regard to ASCII letter case (Express's default).
 */
module Router {
  import opened Wrappers

  datatype Method = Get | Post | Put | Delete | Patch

  datatype Segment = Lit(text: string) | Param(name: string)

  datatype Route<H> = Route(verb: Method, pattern: seq<Segment>, handler: H)

  /** The chosen handler and the path parameters it receives. */
  datatype Match<H> = Match(handler: H, params: map<string, string>)

  function Lower(c: char): char {
    if 'A' <= c <= 'Z' then (c as int + 32) as char else c
  }

  /** Equal up to ASCII letter case. */
  predicate SameText(a: string, b: string) {
    |a| == |b| && forall i :: 0 <= i < |a| ==> Lower(a[i]) == Lower(b[i])
  }

  predicate SegmentMatches(s: Segment, x: string) {
    match s
    case Lit(t) => SameText(t, x)
    case Param(_) => x != ""
  }

  predicate PatternMatches(p: seq<Segment>, path: seq<string>) {
    |p| == |path| && forall i :: 0 <= i < |p| ==> SegmentMatches(p[i], path[i])
  }

  predicate RouteMatches<H>(r: Route<H>, m: Method, path: seq<string>) {
    r.verb == m && PatternMatches(r.pattern, path)
  }

  /**
   The parameters a matched pattern binds: one per `:name` segment, holding
   the path segment in its position; a name used twice keeps its last segment.
   */
  function Bind(p: seq<Segment>, path: seq<string>): (r: map<string, string>)
    requires |p| == |path|
    ensures forall name :: name in r <==> Param(name) in p
    ensures forall i :: 0 <= i < |p| && p[i].Param? && (forall j :: i < j < |p| ==> p[j] != p[i]) ==>
      r[p[i].name] == path[i]
    decreases |p|
  {
    if |p| == 0 then map[]
    else
      var rest := Bind(p[1..], path[1..]);
      assert forall name :: Param(name) in p <==> p[0] == Param(name) || Param(name) in p[1..];
      assert forall i :: 1 <= i < |p| ==> p[i] == p[1..][i - 1] && path[i] == path[1..][i - 1];
      match p[0]
      case Param(name) =>
        assert (forall j :: 0 < j < |p| ==> p[j] != p[0]) ==> Param(name) !in p[1..];
        map[name := path[0]] + rest
      case Lit(_) => rest
  }

  /** The index of the first route that matches, if any. */
  function FirstMatch<H>(routes: seq<Route<H>>, m: Method, path: seq<string>): (r: Option<nat>)
    ensures r.Some? ==> r.value < |routes| && RouteMatches(routes[r.value], m, path)
    ensures r.Some? ==> forall j :: 0 <= j < r.value ==> !RouteMatches(routes[j], m, path)
    ensures r.None? <==> forall j :: 0 <= j < |routes| ==> !RouteMatches(routes[j], m, path)
    decreases |routes|
  {
    if |routes| == 0 then None
    else if RouteMatches(routes[0], m, path) then Some(0)
    else
      match FirstMatch(routes[1..], m, path)
      case None => None
      case Some(k) => Some(k + 1)
  }

  /** Dispatch: the first matching route wins; None is Express's fall-through 404. */
  function Dispatch<H>(routes: seq<Route<H>>, m: Method, path: seq<string>): (r: Option<Match<H>>)
    ensures r.None? <==> forall j :: 0 <= j < |routes| ==> !RouteMatches(routes[j], m, path)
    ensures r.Some? ==> exists i :: 0 <= i < |routes| && FirstMatch(routes, m, path) == Some(i)
                                   && r.value == Match(routes[i].handler, Bind(routes[i].pattern, path))
  {
    match FirstMatch(routes, m, path)
    case None => None
    case Some(i) => Some(Match(routes[i].handler, Bind(routes[i].pattern, path)))
  }

  /** Route `i` is chosen exactly when it matches and no earlier route does. */
  lemma DispatchPicksFirst<H>(routes: seq<Route<H>>, m: Method, path: seq<string>, i: nat)
    requires i < |routes| && RouteMatches(routes[i], m, path)
    requires forall j :: 0 <= j < i ==> !RouteMatches(routes[j], m, path)
    ensures Dispatch(routes, m, path) == Some(Match(routes[i].handler, Bind(routes[i].pattern, path)))
  {
    var r := FirstMatch(routes, m, path);
    assert r.Some?;
    assert r.value == i;
  }

  /** No route matches: the router falls through. */
  lemma NoneMatch<H>(routes: seq<Route<H>>, m: Method, path: seq<string>)
    requires forall j :: 0 <= j < |routes| ==> !RouteMatches(routes[j], m, path)
    ensures Dispatch(routes, m, path) == None
  {
  }

  // ---------------------------------------------------------------------
  // the pattern shapes the backend's tables use
  // ---------------------------------------------------------------------

  lemma MatchRoot(path: seq<string>)
    ensures PatternMatches([], path) <==> |path| == 0
    ensures |path| == 0 ==> Bind([], path) == map[]
  {
  }

  lemma MatchParam(n: string, path: seq<string>)
    ensures PatternMatches([Param(n)], path) <==> |path| == 1 && path[0] != ""
    ensures |path| == 1 ==> Bind([Param(n)], path) == map[n := path[0]]
  {
    if |path| == 1 {
      assert [Param(n)][1..] == [];
    }
  }

  lemma MatchLit(t: string, path: seq<string>)
    ensures PatternMatches([Lit(t)], path) <==> |path| == 1 && SameText(t, path[0])
    ensures |path| == 1 ==> Bind([Lit(t)], path) == map[]
  {
    if |path| == 1 {
      assert [Lit(t)][1..] == [];
    }
  }

  lemma MatchLitParam(t: string, n: string, path: seq<string>)
    ensures PatternMatches([Lit(t), Param(n)], path) <==> |path| == 2 && SameText(t, path[0]) && path[1] != ""
    ensures |path| == 2 ==> Bind([Lit(t), Param(n)], path) == map[n := path[1]]
  {
    if |path| == 2 {
      assert [Lit(t), Param(n)][1..] == [Param(n)];
      MatchParam(n, path[1..]);
    }
  }

  /** Two texts that differ in letter case at some position cannot both match one segment. */
  lemma SameTextExcludes(a: string, b: string, x: string, k: nat)
    requires k < |a| && k < |b| && Lower(a[k]) != Lower(b[k])
    ensures !(SameText(a, x) && SameText(b, x))
  {
    if SameText(a, x) && |x| == |b| {
      assert Lower(x[k]) == Lower(a[k]);
    }
  }

  /** A literal segment only matches a non-empty segment. */
  lemma SameTextNonEmpty(t: string, x: string)
    requires t != "" && SameText(t, x)
    ensures x != ""
  {
  }
}
