/** How an Express router picks the handler for a request, and how the
    `protect` and `isAdmin` middleware in front of it admit a caller. */
module Router {
  import opened Common
  import opened UserModel

  datatype Verb = GET | POST | PUT | DELETE

  /** A path pattern segment: literal text, or a `:name` parameter. */
  datatype Segment = Lit(text: string) | Param(name: string)

  datatype Middleware = Protect | IsAdmin

  /** One `router.route(pattern).<verb>(...chain, handler)` registration. */
  datatype Layer<H> = Layer(pattern: seq<Segment>, verb: Verb, chain: seq<Middleware>, handler: H)

  /** The handler reached, the middleware in front of it and the bound
      route parameters. */
  datatype Match<H> = Match(handler: H, chain: seq<Middleware>, params: map<string, string>)

  function LowerAscii(c: char): char {
    if 'A' <= c <= 'Z' then (c as int + 32) as char else c
  }

  /** Express matches literal segments without regard to (ASCII) case. */
  predicate SameText(a: string, b: string) {
    |a| == |b| && forall i :: 0 <= i < |a| ==> LowerAscii(a[i]) == LowerAscii(b[i])
  }

  /** A parameter matches any non-empty segment. */
  predicate SegmentMatches(seg: Segment, text: string) {
    match seg
    case Lit(t) => SameText(t, text)
    case Param(_) => text != ""
  }

  /** `path` is the request path below the router's mount point, split at
      `/`: `/` is [], `/abc/status` is ["abc", "status"]. */
  predicate PatternMatches(pattern: seq<Segment>, path: seq<string>) {
    |pattern| == |path| && forall i :: 0 <= i < |path| ==> SegmentMatches(pattern[i], path[i])
  }

  predicate LayerMatches<H>(layer: Layer<H>, verb: Verb, path: seq<string>) {
    layer.verb == verb && PatternMatches(layer.pattern, path)
  }

  /** The parameters a matched layer binds: each `:name` takes its
      segment, and a name repeated in the pattern keeps the last segment
      bound to it, as Express assigns them left to right. */
  function Bind(pattern: seq<Segment>, path: seq<string>): (params: map<string, string>)
    requires |pattern| == |path|
    ensures forall i :: 0 <= i < |pattern| && pattern[i].Param? ==> pattern[i].name in params
    ensures forall name :: name in params ==> exists i :: 0 <= i < |pattern| && pattern[i] == Param(name)
    ensures forall i :: 0 <= i < |pattern| && pattern[i].Param? && LastOccurrence(pattern, i) ==>
              params[pattern[i].name] == path[i]
  {
    if pattern == [] then map[]
    else
      var rest := Bind(pattern[1..], path[1..]);
      assert forall i :: 1 <= i < |pattern| ==> pattern[1..][i - 1] == pattern[i] && path[1..][i - 1] == path[i];
      match pattern[0]
      case Lit(_) => rest
      // A later segment of the same name has already bound it.
      case Param(name) => if name in rest then rest else rest[name := path[0]]
  }

  /** A one-segment parameter pattern binds exactly that segment. */
  lemma BindOneParam(name: string, segment: string)
    ensures Bind([Param(name)], [segment]) == map[name := segment]
  {
    assert [Param(name)][1..] == [] && [segment][1..] == [];
  }

  /** Of two parameters with one name, the later segment is the one bound. */
  lemma BindKeepsLastOfRepeatedName()
    ensures Bind([Param("x"), Param("x")], ["a", "b"]) == map["x" := "b"]
  {
    assert Bind([Param("x")], ["b"]) == map["x" := "b"] by {
      assert [Param("x")][1..] == [];
    }
    assert [Param("x"), Param("x")][1..] == [Param("x")];
    assert ["a", "b"][1..] == ["b"];
  }

  /** No later segment of the pattern is a parameter of the same name. */
  predicate LastOccurrence(pattern: seq<Segment>, i: int)
    requires 0 <= i < |pattern| && pattern[i].Param?
  {
    forall j :: i < j < |pattern| ==> pattern[j] != Param(pattern[i].name)
  }

  /** The first registered layer whose verb and pattern match, or none (the
      request falls through the router). */
  function Dispatch<H(==)>(table: seq<Layer<H>>, verb: Verb, path: seq<string>): (r: Option<Match<H>>)
    ensures r.None? <==> forall i :: 0 <= i < |table| ==> !LayerMatches(table[i], verb, path)
    ensures r.Some? ==> exists i :: && 0 <= i < |table| && LayerMatches(table[i], verb, path)
                                    && (forall j :: 0 <= j < i ==> !LayerMatches(table[j], verb, path))
                                    && r.value == Match(table[i].handler, table[i].chain, Bind(table[i].pattern, path))
  {
    if table == [] then None
    else if LayerMatches(table[0], verb, path) then
      Some(Match(table[0].handler, table[0].chain, Bind(table[0].pattern, path)))
    else
      var r := Dispatch(table[1..], verb, path);
      if r.Some? then
        var i :| && 0 <= i < |table[1..]| && LayerMatches(table[1..][i], verb, path)
                 && (forall j :: 0 <= j < i ==> !LayerMatches(table[1..][j], verb, path))
                 && r.value == Match(table[1..][i].handler, table[1..][i].chain, Bind(table[1..][i].pattern, path));
        assert forall j :: 0 <= j < i + 1 ==> !LayerMatches(table[j], verb, path) by {
          forall j | 0 <= j < i + 1 ensures !LayerMatches(table[j], verb, path) {
            if j > 0 { assert table[j] == table[1..][j - 1]; }
          }
        }
        r
      else
        assert forall i :: 0 <= i < |table| ==> !LayerMatches(table[i], verb, path) by {
          forall i | 0 <= i < |table| ensures !LayerMatches(table[i], verb, path) {
            if i > 0 { assert table[i] == table[1..][i - 1]; }
          }
        }
        r
  }

  /** What the middleware chain does with the caller the token resolves to
      (none when the token is missing or invalid): it reaches the handler,
      or one middleware answers instead. */
  datatype Access = Admitted(caller: Option<Principal>) | Denied(refusedBy: Middleware)

  /** Whether one middleware passes the request on. `protect` needs an
      authenticated caller; `isAdmin` needs one whose role is admin. The
      middleware's own file is not part of this model, so the codes it
      answers with are left unstated. */
  predicate Passes(m: Middleware, caller: Option<Principal>) {
    match m
    case Protect => caller.Some?
    case IsAdmin => caller.Some? && caller.value.role == AdminRole
  }

  /** Running the chain in order; the first middleware that does not pass
      answers the request. */
  function RunChain(chain: seq<Middleware>, caller: Option<Principal>): (a: Access)
    ensures a.Admitted? <==> forall i :: 0 <= i < |chain| ==> Passes(chain[i], caller)
    ensures a.Admitted? ==> a.caller == caller
    ensures a.Denied? ==> exists i :: && 0 <= i < |chain| && chain[i] == a.refusedBy && !Passes(chain[i], caller)
                                      && forall j :: 0 <= j < i ==> Passes(chain[j], caller)
  {
    if chain == [] then Admitted(caller)
    else if !Passes(chain[0], caller) then Denied(chain[0])
    else
      var rest := RunChain(chain[1..], caller);
      assert forall i :: 1 <= i < |chain| ==> chain[i] == chain[1..][i - 1];
      if rest.Denied? then
        var i :| && 0 <= i < |chain[1..]| && chain[1..][i] == rest.refusedBy && !Passes(chain[1..][i], caller)
                 && forall j :: 0 <= j < i ==> Passes(chain[1..][j], caller);
        assert chain[i + 1] == rest.refusedBy && forall j :: 0 <= j < i + 1 ==> Passes(chain[j], caller);
        rest
      else rest
  }

  /** How many middleware of the chain run: all of them when the handler is
      reached, and otherwise those up to and including the one that
      refuses. */
  function Executed(chain: seq<Middleware>, caller: Option<Principal>): (n: nat)
    ensures n <= |chain|
    ensures forall j :: 0 <= j < n - 1 ==> Passes(chain[j], caller)
    ensures RunChain(chain, caller).Admitted? <==> n == |chain| && (n == 0 || Passes(chain[n - 1], caller))
    ensures RunChain(chain, caller).Denied? ==>
              0 < n && chain[n - 1] == RunChain(chain, caller).refusedBy && !Passes(chain[n - 1], caller)
  {
    if chain == [] then 0
    else if !Passes(chain[0], caller) then 1
    else
      var rest := Executed(chain[1..], caller);
      assert forall j :: 1 <= j < |chain| ==> chain[j] == chain[1..][j - 1];
      1 + rest
  }

  /** A chain in which every isAdmin comes after a protect. */
  predicate AdminAfterProtect(chain: seq<Middleware>) {
    forall i :: 0 <= i < |chain| && chain[i] == IsAdmin ==> exists j :: 0 <= j < i && chain[j] == Protect
  }

  /** Behind a protect, isAdmin never runs for an unauthenticated caller. */
  lemma IsAdminNeverRunsUnauthenticated(chain: seq<Middleware>)
    requires AdminAfterProtect(chain)
    ensures forall i :: 0 <= i < Executed(chain, None) ==> chain[i] != IsAdmin
  {
    if chain != [] {
      assert chain[0] != IsAdmin;
    }
  }

  /** Whatever a table whose chains all put protect before isAdmin
      dispatches a request to, isAdmin does not run for an unauthenticated
      caller. */
  lemma DispatchNeverRunsIsAdminUnauthenticated<H>(table: seq<Layer<H>>, verb: Verb, path: seq<string>)
    requires forall i :: 0 <= i < |table| ==> AdminAfterProtect(table[i].chain)
    ensures Dispatch(table, verb, path).Some? ==>
              var chain := Dispatch(table, verb, path).value.chain;
              forall k :: 0 <= k < Executed(chain, None) ==> chain[k] != IsAdmin
  {
    forall i | 0 <= i < |table| {
      IsAdminNeverRunsUnauthenticated(table[i].chain);
    }
  }
}
