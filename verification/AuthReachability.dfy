/**
 * The OpenAPI contract of `backend/app/openapi_contract.py`: the worklist search that decides
 * whether a route is authenticated, and the loop that writes security and error responses
 * into the generated schema.
 *
 * Dependants are named by identity, so a graph may share nodes and may contain cycles.
 */
module AuthReachability {
  /** A dependency node: whether its callable is `get_current_user`, and what it depends on. */
  datatype Dependant = Dependant(isCurrentUser: bool, dependencies: seq<int>)

  type Graph = map<int, Dependant>

  ghost predicate Closed(g: Graph) {
    forall n, d :: n in g && d in g[n].dependencies ==> d in g
  }

  /** `path` walks dependency edges from `from` to `to`. */
  ghost predicate Walk(g: Graph, from: int, path: seq<int>, to: int) {
    && path != [] && path[0] == from && path[|path| - 1] == to
    && (forall i :: 0 <= i < |path| ==> path[i] in g)
    && (forall i :: 0 <= i < |path| - 1 ==> path[i + 1] in g[path[i]].dependencies)
  }

  ghost predicate Reaches(g: Graph, from: int, to: int) {
    exists path :: Walk(g, from, path, to)
  }

  /** Some dependency of the route, direct or not, is the current user. */
  ghost predicate NeedsUser(g: Graph, root: int) {
    exists n :: n in g && g[n].isCurrentUser && Reaches(g, root, n)
  }

  lemma {:induction false} ReachesFurther(g: Graph, root: int, n: int, d: int)
    requires Closed(g) && n in g && d in g[n].dependencies && Reaches(g, root, n)
    ensures Reaches(g, root, d)
  {
    var path :| Walk(g, root, path, n);
    assert Walk(g, root, path + [d], d);
  }

  /** A set closed under dependencies keeps every walk that starts in it. */
  lemma {:induction false} WalkStays(g: Graph, s: set<int>, from: int, path: seq<int>, to: int)
    requires forall n, d :: n in s && n in g && d in g[n].dependencies ==> d in s
    requires from in s && Walk(g, from, path, to)
    ensures to in s
    decreases |path|
  {
    if |path| > 1 {
      assert path[0 + 1] in g[path[0]].dependencies;
      assert Walk(g, path[1], path[1..], to) by {
        forall i | 0 <= i < |path[1..]| - 1
          ensures path[1..][i + 1] in g[path[1..][i]].dependencies
        {
          assert path[(i + 1) + 1] in g[path[i + 1]].dependencies;
        }
      }
      WalkStays(g, s, path[1], path[1..], to);
    }
  }

  /** What the search knows: only reachable nodes are queued, and visited ones are expanded. */
  ghost predicate Searching(g: Graph, root: int, pending: seq<int>, seen: set<int>) {
    && (forall n :: n in pending || n in seen ==> n in g && Reaches(g, root, n))
    && (root in pending || root in seen)
    && (forall n :: n in seen ==> n in g && !g[n].isCurrentUser)
    && (forall n, d :: n in seen && n in g && d in g[n].dependencies ==> d in seen || d in pending)
  }

  lemma {:induction false} SearchedAll(g: Graph, root: int, seen: set<int>)
    requires Searching(g, root, [], seen)
    ensures !NeedsUser(g, root)
  {
    forall n, path | n in g && Walk(g, root, path, n)
      ensures !g[n].isCurrentUser
    {
      WalkStays(g, seen, root, path, n);
    }
  }

  /** Taking a node off the stack and queueing its dependencies keeps what is known. */
  lemma {:induction false} Expands(g: Graph, root: int, pending: seq<int>, seen: set<int>, n: int)
    requires Closed(g) && Searching(g, root, pending + [n], seen) && n in g && !g[n].isCurrentUser
    ensures Searching(g, root, pending + g[n].dependencies, seen + {n})
  {
    assert n in pending + [n];
    forall d | d in g[n].dependencies
      ensures d in g && Reaches(g, root, d)
    {
      ReachesFurther(g, root, n, d);
    }
    assert forall m :: m in pending ==> m in pending + [n];
  }

  lemma {:induction false} Skips(g: Graph, root: int, pending: seq<int>, seen: set<int>, n: int)
    requires Searching(g, root, pending + [n], seen) && n in seen
    ensures Searching(g, root, pending, seen)
  {
    assert forall m :: m in pending ==> m in pending + [n];
  }

  lemma {:induction false} OneFewerLeft(all: set<int>, seen: set<int>, n: int)
    requires n in all && n !in seen
    ensures |all - (seen + {n})| < |all - seen|
  {
    assert all - seen == (all - (seen + {n})) + {n};
  }

  method RouteRequiresAuth(g: Graph, root: int) returns (required: bool)
    requires Closed(g) && root in g
    ensures required <==> NeedsUser(g, root)
  {
    var pending := [root];
    var seen: set<int> := {};
    assert Walk(g, root, [root], root);
    while pending != []
      invariant Searching(g, root, pending, seen)
      decreases |g.Keys - seen|, |pending|
    {
      var last := |pending| - 1;
      var dependant := pending[last];
      assert pending == pending[..last] + [dependant];
      pending := pending[..last];
      if dependant in seen {
        Skips(g, root, pending, seen, dependant);
        continue;
      }
      OneFewerLeft(g.Keys, seen, dependant);
      if g[dependant].isCurrentUser {
        return true;
      }
      Expands(g, root, pending, seen, dependant);
      seen := seen + {dependant};
      pending := pending + g[dependant].dependencies;
    }
    SearchedAll(g, root, seen);
    return false;
  }

  // ---- Security requirements ----

  datatype Route = Route(path: string, pathFormat: string, dependant: int, methods: seq<string>)

  const SAFE_METHODS: set<string> := {"GET", "HEAD", "OPTIONS"}
  const WEBHOOK_PATH := "/api/webhooks/{account_id}/{hook_key}"
  const CSRF: set<string> := {"CsrfCookie", "CsrfHeader", "RequestedWith"}

  /** `str.upper` and `str.lower` on HTTP verbs, which are ASCII. */
  function Upper(s: string): (u: string)
    ensures |u| == |s|
  {
    if s == [] then []
    else [if 'a' <= s[0] <= 'z' then (s[0] as int - 32) as char else s[0]] + Upper(s[1..])
  }

  function Lower(s: string): (u: string)
    ensures |u| == |s|
  {
    if s == [] then []
    else [if 'A' <= s[0] <= 'Z' then (s[0] as int + 32) as char else s[0]] + Lower(s[1..])
  }

  predicate IsWebhook(route: Route, verb: string) {
    Upper(verb) == "POST" && route.path == WEBHOOK_PATH
  }

  predicate IsSafe(verb: string) {
    Upper(verb) in SAFE_METHODS
  }

  /** The scheme names an operation must list. */
  ghost function Needed(g: Graph, route: Route, verb: string): set<string> {
    if IsWebhook(route, verb) then {"WebhookToken"}
    else (if NeedsUser(g, route.dependant) then {"AuthCookie"} else {}) + (if IsSafe(verb) then {} else CSRF)
  }

  /** The list form OpenAPI wants: no requirement object at all when nothing is needed. */
  function Listed(names: set<string>): seq<set<string>> {
    if names == {} then [] else [names]
  }

  function Names(security: seq<set<string>>): set<string> {
    if security == [] then {} else security[0]
  }

  method OperationSecurity(g: Graph, route: Route, verb: string) returns (security: seq<set<string>>)
    requires Closed(g) && route.dependant in g
    ensures security == Listed(Needed(g, route, verb))
  {
    var upper := Upper(verb);
    if upper == "POST" && route.path == WEBHOOK_PATH {
      return [{"WebhookToken"}];
    }
    var requirement: set<string> := {};
    var required := RouteRequiresAuth(g, route.dependant);
    if required {
      requirement := requirement + {"AuthCookie"};
    }
    if upper !in SAFE_METHODS {
      requirement := requirement + CSRF;
    }
    assert requirement == Needed(g, route, verb);
    security := if requirement != {} then [requirement] else [];
  }

  // ---- The schema ----

  datatype Operation = Operation(security: seq<set<string>>, responses: map<string, string>)

  /** A path and a lower-case verb name an operation of the schema. */
  type Key = (string, string)
  type Schema = map<Key, Operation>

  /** One turn of the inner loop: a route and one of its verbs. */
  type Turn = (Route, string)

  function Target(t: Turn): Key {
    (t.0.pathFormat, Lower(t.1))
  }

  /** Changing the case twice is changing it once, the last way. */
  lemma {:induction false} CaseRoundTrip(s: string)
    ensures Upper(Lower(s)) == Upper(s) && Lower(Upper(s)) == Lower(s)
  {
    if s != [] {
      CaseRoundTrip(s[1..]);
      assert Lower(s)[1..] == Lower(s[1..]) && Upper(s)[1..] == Upper(s[1..]);
    }
  }

  /** `verb` and `name` are the same letters, capital in `verb` and small in `name`. */
  ghost predicate Spell(verb: string, name: string) {
    && |verb| == |name|
    && forall i :: 0 <= i < |verb| ==> 'A' <= verb[i] <= 'Z' && name[i] as int == verb[i] as int + 32
  }

  lemma {:induction false} SpelledAlike(verb: string, name: string)
    requires Spell(verb, name)
    ensures Lower(verb) == Lower(name) == name && Upper(name) == Upper(verb) == verb
  {
    if verb != [] {
      SpelledAlike(verb[1..], name[1..]);
      assert verb == [verb[0]] + verb[1..] && name == [name[0]] + name[1..];
    }
  }

  /**
   * A verb, in capitals as routes list it, finds the operation that the schema keeps under the
   * same name in small letters, and is safe exactly if it is GET, HEAD or OPTIONS.
   */
  lemma {:induction false} VerbFindsOperation(route: Route, verb: string, name: string)
    requires Spell(verb, name)
    ensures Target((route, verb)) == (route.pathFormat, name)
    ensures IsSafe(verb) <==> verb == "GET" || verb == "HEAD" || verb == "OPTIONS"
    ensures IsWebhook(route, verb) <==> verb == "POST" && route.path == "/api/webhooks/{account_id}/{hook_key}"
  {
    SpelledAlike(verb, name);
  }

  ghost function Requirement(g: Graph, t: Turn): set<string> {
    Needed(g, t.0, t.1)
  }

  /** `dict.setdefault`. */
  function SetDefault(m: map<string, string>, key: string, value: string): map<string, string> {
    if key in m then m else m[key := value]
  }

  /** Which error responses a turn makes sure of. */
  ghost predicate Documents(g: Graph, t: Turn, code: string) {
    || (code == "401" && (NeedsUser(g, t.0.dependant) || IsWebhook(t.0, t.1)))
    || (code == "403" && !IsSafe(t.1) && !IsWebhook(t.0, t.1))
    || code == "500"
  }

  function TurnsOf(route: Route): seq<Turn> {
    seq(|route.methods|, i requires 0 <= i < |route.methods| => (route, route.methods[i]))
  }

  function Turns(routes: seq<Route>): seq<Turn> {
    if routes == [] then []
    else
      Turns(routes[..|routes| - 1]) + TurnsOf(routes[|routes| - 1])
  }

  method Describe(g: Graph, operation: Operation, t: Turn) returns (described: Operation)
    requires Closed(g) && t.0.dependant in g
    ensures described.security == Listed(Requirement(g, t))
    ensures forall code :: code in described.responses <==> code in operation.responses || Documents(g, t, code)
    ensures forall code :: code in described.responses ==>
      described.responses[code] == if code in operation.responses then operation.responses[code] else "ErrorEnvelope"
  {
    var security := OperationSecurity(g, t.0, t.1);
    var responses := operation.responses;
    var names := Names(security);
    if "AuthCookie" in names || "WebhookToken" in names {
      responses := SetDefault(responses, "401", "ErrorEnvelope");
    }
    if Upper(t.1) !in SAFE_METHODS && "WebhookToken" !in names {
      responses := SetDefault(responses, "403", "ErrorEnvelope");
    }
    responses := SetDefault(responses, "500", "ErrorEnvelope");
    described := Operation(security, responses);
  }

  /** The last turn, if any, that writes the operation. */
  function LastTurn(turns: seq<Turn>, k: Key): seq<Turn> {
    if turns == [] then []
    else if Target(turns[|turns| - 1]) == k then [turns[|turns| - 1]]
    else LastTurn(turns[..|turns| - 1], k)
  }

  /** What the loop has made of one operation after some turns. */
  ghost predicate Written(g: Graph, before: Operation, after: Operation, turns: seq<Turn>, k: Key) {
    && after.security == (if LastTurn(turns, k) == [] then before.security
                          else Listed(Requirement(g, LastTurn(turns, k)[0])))
    && (forall code :: code in after.responses <==>
          code in before.responses || exists t :: t in turns && Target(t) == k && Documents(g, t, code))
    && (forall code :: code in after.responses ==>
          after.responses[code] == if code in before.responses then before.responses[code] else "ErrorEnvelope")
  }

  ghost predicate AllWritten(g: Graph, before: Schema, after: Schema, turns: seq<Turn>) {
    after.Keys == before.Keys && forall k :: k in before ==> Written(g, before[k], after[k], turns, k)
  }

  /** The body of the inner loop: one verb of a route, if the schema has the operation. */
  method DescribeTurn(g: Graph, ghost generated: Schema, schema: Schema, t: Turn, ghost done: seq<Turn>)
    returns (described: Schema)
    requires Closed(g) && t.0.dependant in g
    requires AllWritten(g, generated, schema, done)
    ensures AllWritten(g, generated, described, done + [t])
  {
    described := schema;
    var k := Target(t);
    if k in schema {
      var operation := Describe(g, schema[k], t);
      described := described[k := operation];
      DescribedIsWritten(g, schema[k], operation, t);
    }
    TurnWrites(g, generated, schema, described, done, t);
  }

  /** The inner loop: every verb of one route, after the turns `done`. */
  method DescribeRoute(g: Graph, ghost generated: Schema, schema: Schema, route: Route, ghost done: seq<Turn>)
    returns (described: Schema)
    requires Closed(g) && route.dependant in g
    requires AllWritten(g, generated, schema, done)
    ensures AllWritten(g, generated, described, done + TurnsOf(route))
  {
    described := schema;
    ghost var turns := TurnsOf(route);
    assert done + turns[..0] == done;
    for j := 0 to |route.methods|
      invariant AllWritten(g, generated, described, done + turns[..j])
    {
      described := DescribeTurn(g, generated, described, (route, route.methods[j]), done + turns[..j]);
      assert done + turns[..j + 1] == (done + turns[..j]) + [(route, route.methods[j])];
    }
    assert turns[..|route.methods|] == turns;
  }

  lemma {:induction false} DescribedIsWritten(g: Graph, before: Operation, after: Operation, t: Turn)
    requires after.security == Listed(Requirement(g, t))
    requires forall code :: code in after.responses <==> code in before.responses || Documents(g, t, code)
    requires forall code :: code in after.responses ==>
      after.responses[code] == if code in before.responses then before.responses[code] else "ErrorEnvelope"
    ensures Written(g, before, after, [t], Target(t))
  {
    assert LastTurn([t], Target(t)) == [t];
  }

  /** The loop of `build_openapi_schema`. */
  method BuildOpenapiSchema(g: Graph, generated: Schema, routes: seq<Route>) returns (schema: Schema)
    requires Closed(g) && forall r :: r in routes ==> r.dependant in g
    ensures AllWritten(g, generated, schema, Turns(routes))
  {
    schema := generated;
    for i := 0 to |routes|
      invariant AllWritten(g, generated, schema, Turns(routes[..i]))
    {
      schema := DescribeRoute(g, generated, schema, routes[i], Turns(routes[..i]));
      assert routes[..i + 1][..i] == routes[..i];
    }
    assert routes[..|routes|] == routes;
  }

  lemma {:induction false} TurnWrites(g: Graph, first: Schema, was: Schema, now: Schema, turns: seq<Turn>, t: Turn)
    requires AllWritten(g, first, was, turns)
    requires now.Keys == was.Keys
    requires forall k :: k in was && k != Target(t) ==> now[k] == was[k]
    requires var k := Target(t); k in was ==> Written(g, was[k], now[k], [t], k)
    ensures AllWritten(g, first, now, turns + [t])
  {
    var more := turns + [t];
    assert more[..|more| - 1] == turns;
    forall k | k in first
      ensures Written(g, first[k], now[k], more, k)
    {
    }
  }

  /** No two turns write the same operation. */
  ghost predicate Unique(turns: seq<Turn>) {
    forall i, j :: 0 <= i < j < |turns| ==> Target(turns[i]) != Target(turns[j])
  }

  lemma {:induction false} OnlyTurn(turns: seq<Turn>, i: nat)
    requires Unique(turns) && i < |turns|
    ensures LastTurn(turns, Target(turns[i])) == [turns[i]]
  {
    var n := |turns| - 1;
    if i < n {
      assert Target(turns[i]) != Target(turns[n]);
      OnlyTurn(turns[..n], i);
    }
  }

  /**
   * What a reader may rely on: an operation asks for the login cookie exactly when the current
   * user is reachable from the route, for the CSRF triple exactly on unsafe verbs, and for the
   * webhook token alone on the webhook; it asks for nothing only when it is public.
   */
  ghost predicate Truthful(g: Graph, t: Turn, names: set<string>) {
    var (route, verb) := t;
    && ("AuthCookie" in names <==> NeedsUser(g, route.dependant) && !IsWebhook(route, verb))
    && ("WebhookToken" in names <==> IsWebhook(route, verb))
    && ("CsrfCookie" in names <==> !IsSafe(verb) && !IsWebhook(route, verb))
    && ("CsrfHeader" in names <==> !IsSafe(verb) && !IsWebhook(route, verb))
    && ("RequestedWith" in names <==> !IsSafe(verb) && !IsWebhook(route, verb))
    && names <= {"AuthCookie", "WebhookToken", "CsrfCookie", "CsrfHeader", "RequestedWith"}
    && (names == {} <==> IsSafe(verb) && !NeedsUser(g, route.dependant))
  }

  lemma {:induction false} NeededIsTruthful(g: Graph, t: Turn)
    ensures Truthful(g, t, Requirement(g, t))
  {
    if IsSafe(t.1) {
      assert !IsWebhook(t.0, t.1);
    } else if !IsWebhook(t.0, t.1) {
      assert "CsrfCookie" in Requirement(g, t);
    }
  }

  /** The turns of the two loops: every verb of every route. */
  lemma {:induction false} TurnsMean(routes: seq<Route>)
    ensures forall t :: t in Turns(routes) <==> t.0 in routes && t.1 in t.0.methods
  {
    if routes != [] {
      var front, last := routes[..|routes| - 1], routes[|routes| - 1];
      assert routes == front + [last];
      TurnsMean(front);
      forall t: Turn
        ensures t in TurnsOf(last) <==> t.0 == last && t.1 in last.methods
      {
        if t.0 == last && t.1 in last.methods {
          var i :| 0 <= i < |last.methods| && last.methods[i] == t.1;
          assert TurnsOf(last)[i] == t;
        }
      }
    }
  }

  /** No other route or verb writes the same operation. */
  ghost predicate Alone(routes: seq<Route>, t: Turn) {
    forall r, verb :: r in routes && verb in r.methods && Target((r, verb)) == Target(t) ==> (r, verb) == t
  }

  lemma {:induction false} AloneIsLast(turns: seq<Turn>, t: Turn)
    requires t in turns && forall x :: x in turns && Target(x) == Target(t) ==> x == t
    ensures LastTurn(turns, Target(t)) == [t]
  {
    var n := |turns| - 1;
    if Target(turns[n]) == Target(t) {
      assert turns[n] in turns;
    } else {
      assert turns == turns[..n] + [turns[n]];
      AloneIsLast(turns[..n], t);
    }
  }

  /** What the schema says of an operation: its security requirement and its responses. */
  ghost predicate Tells(g: Graph, t: Turn, generated: Operation, operation: Operation) {
    var names := Names(operation.security);
    && Truthful(g, t, names)
    && (if names == {} then operation.security == [] else operation.security == [names])
    && (forall code :: code in operation.responses <==>
          || code in generated.responses
          || code == "500"
          || (code == "401" && ("AuthCookie" in names || "WebhookToken" in names))
          || (code == "403" && "CsrfCookie" in names))
    && forall code :: code in operation.responses ==>
         operation.responses[code] == if code in generated.responses then generated.responses[code]
                                      else "ErrorEnvelope"
  }

  /**
   * The finished schema, for every verb of every route that alone writes its operation: the
   * security is truthful, exactly the errors that security can cause are documented beside
   * those already there, and no documented response is overwritten.
   */
  lemma {:induction false} SchemaTellsTheTruth(g: Graph, generated: Schema, schema: Schema, routes: seq<Route>, t: Turn)
    requires AllWritten(g, generated, schema, Turns(routes))
    requires t.0 in routes && t.1 in t.0.methods && Target(t) in generated && Alone(routes, t)
    ensures Target(t) in schema && Tells(g, t, generated[Target(t)], schema[Target(t)])
  {
    TurnsMean(routes);
    AloneIsLast(Turns(routes), t);
    NeededIsTruthful(g, t);
    assert Written(g, generated[Target(t)], schema[Target(t)], Turns(routes), Target(t));
  }

  /** An operation that no verb of a route writes stays as it was generated. */
  lemma {:induction false} OthersStay(g: Graph, generated: Schema, schema: Schema, routes: seq<Route>, k: Key)
    requires AllWritten(g, generated, schema, Turns(routes)) && k in generated
    requires forall r, verb :: r in routes && verb in r.methods ==> Target((r, verb)) != k
    ensures k in schema && schema[k] == generated[k]
  {
    TurnsMean(routes);
    var turns := Turns(routes);
    forall t | t in turns
      ensures Target(t) != k
    {
      assert t == (t.0, t.1);
    }
    NeverWritten(turns, k);
    assert Written(g, generated[k], schema[k], turns, k);
    assert schema[k].responses == generated[k].responses;
  }

  lemma {:induction false} NeverWritten(turns: seq<Turn>, k: Key)
    requires forall t :: t in turns ==> Target(t) != k
    ensures LastTurn(turns, k) == []
  {
    if turns != [] {
      var n := |turns| - 1;
      assert turns[n] in turns && turns == turns[..n] + [turns[n]];
      NeverWritten(turns[..n], k);
    }
  }
}
