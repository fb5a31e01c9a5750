/**
  What a configuration snapshot contains, row by row, and what the Gateway therefore serves after
  a push and over every run.  Everything here is said of the rows and the served routes alone.
*/
module GatewayContents {
  import opened Common
  import opened GatewayRuntime
  import opened GatewayAgreement
  import Text

  /** A model that can be routed to. */
  predicate Usable(m: Model) {
    m.enabled && Text.Strip(m.id) != ""
  }

  /** `at[k]` is where the k-th listed id occurs first among the usable models. */
  ghost predicate Places(ms: seq<Model>, ids: seq<string>, at: seq<nat>) {
    && |at| == |ids|
    && (forall k :: 0 <= k < |at| ==> at[k] < |ms| && Usable(ms[at[k]]) && Text.Strip(ms[at[k]].id) == ids[k])
    && (forall k, j :: 0 <= k < |at| && 0 <= j < at[k] && Usable(ms[j]) ==> Text.Strip(ms[j].id) != ids[k])
    && (forall k, l :: 0 <= k < l < |at| ==> at[k] < at[l])
    && (forall j :: 0 <= j < |ms| && Usable(ms[j]) ==> Text.Strip(ms[j].id) in ids)
  }

  /** The models of a route: the usable ones in order of first occurrence, or else the default. */
  ghost predicate Lists(ms: seq<Model>, defaultModel: string, ids: seq<string>) {
    && Distinct(ids)
    && if exists m :: m in ms && Usable(m) then exists at :: Places(ms, ids, at)
       else ids == if defaultModel != "" then [defaultModel] else []
  }

  /** The url of the proxy a row names, or "" when it names none. */
  ghost predicate GoesThrough(proxies: map<int, Proxy>, p: Provider, url: string) {
    match p.proxyId
    case None => url == ""
    case Some(k) => k in proxies && proxies[k].url == Some(url)
  }

  /** The route says what the row says. */
  ghost predicate Carries(proxies: map<int, Proxy>, p: Provider, route: Route) {
    && route.baseUrl == p.baseUrl && route.apiKey == p.apiKey && route.headers == p.headers
    && GoesThrough(proxies, p, route.proxyUrl)
    && Lists(p.models, p.defaultModel, route.models)
  }

  /** One route for each Gateway provider, and no other. */
  ghost predicate Describes(db: Db, snapshot: Snapshot) {
    forall id ::
      && (id in snapshot <==> id in db.providers && db.providers[id].gateway)
      && (id in snapshot ==> Carries(db.proxies, db.providers[id], snapshot[id]))
  }

  /** One more model that is new and usable is listed last. */
  lemma {:induction false} PlacesGrow(ms: seq<Model>, ids: seq<string>, at: seq<nat>, m: Model)
    requires Places(ms, ids, at) && Usable(m) && Text.Strip(m.id) !in ids
    ensures Places(ms + [m], ids + [Text.Strip(m.id)], at + [|ms|])
  {
    var more := ms + [m];
    assert forall j :: 0 <= j < |ms| ==> more[j] == ms[j];
  }

  /** One more model that is not usable, or listed already, changes nothing. */
  lemma {:induction false} PlacesKept(ms: seq<Model>, ids: seq<string>, at: seq<nat>, m: Model)
    requires Places(ms, ids, at) && (Usable(m) ==> Text.Strip(m.id) in ids)
    ensures Places(ms + [m], ids, at)
  {
    var more := ms + [m];
    assert forall j :: 0 <= j < |ms| ==> more[j] == ms[j];
  }

  lemma {:induction false} EnabledPlaces(ms: seq<Model>) returns (at: seq<nat>)
    ensures Places(ms, EnabledIds(ms), at)
  {
    if ms == [] {
      at := [];
    } else {
      var n := |ms| - 1;
      var ids := EnabledIds(ms[..n]);
      at := EnabledPlaces(ms[..n]);
      assert ms == ms[..n] + [ms[n]];
      if Usable(ms[n]) && Text.Strip(ms[n].id) !in ids {
        PlacesGrow(ms[..n], ids, at, ms[n]);
        at := at + [n];
      } else {
        PlacesKept(ms[..n], ids, at, ms[n]);
      }
    }
  }

  lemma {:induction false} PlacesDistinct(ms: seq<Model>, ids: seq<string>, at: seq<nat>)
    requires Places(ms, ids, at)
    ensures Distinct(ids)
  {
    forall k, l | 0 <= k < l < |ids|
      ensures ids[k] != ids[l]
    {
      assert Usable(ms[at[k]]) && at[k] < at[l];
    }
  }

  lemma {:induction false} RoutedLists(p: Provider)
    ensures Lists(p.models, p.defaultModel, RoutedModels(p))
  {
    var at := EnabledPlaces(p.models);
    PlacesDistinct(p.models, EnabledIds(p.models), at);
    assert EnabledIds(p.models) != [] ==> p.models[at[0]] in p.models && Usable(p.models[at[0]]);
    if m :| m in p.models && Usable(m) {
      var j :| 0 <= j < |p.models| && p.models[j] == m;
      assert Text.Strip(p.models[j].id) in EnabledIds(p.models);
    }
  }

  /** The snapshot of a database describes it. */
  lemma {:induction false} SnapshotDescribes(db: Db, snapshot: Snapshot)
    requires Project(db) == Wants(Buildable(snapshot))
    ensures Describes(db, snapshot)
  {
    forall id | id in snapshot
      ensures Carries(db.proxies, db.providers[id], snapshot[id])
    {
      RoutedLists(db.providers[id]);
    }
  }

  /** A proxy that the row names but that is gone, or cannot be used for providers. */
  predicate BrokenProxy(db: Db, p: Provider) {
    p.proxyId.Some? && (p.proxyId.value !in db.proxies || db.proxies[p.proxyId.value].url.None?)
  }

  /** When there is a snapshot at all: what each other outcome of reading the rows means. */
  lemma {:induction false} ProjectionMeans(db: Db)
    ensures Project(db) == BadProxy <==>
      exists id :: id in db.providers && db.providers[id].gateway && BrokenProxy(db, db.providers[id])
    ensures Project(db) == Wants(Nothing) <==>
      forall id :: id in db.providers ==> !db.providers[id].gateway
    ensures Project(db) != BadProxy ==>
      (Project(db) == Wants(Unbuildable) <==>
        exists id :: id in db.providers && db.providers[id].gateway
          && (!db.providers[id].responses || db.providers[id].baseUrl == "" || db.providers[id].apiKey == ""))
  {
    if !AllResolve(db) {
      var id :| id in GatewayIds(db) && !ProxyResolves(db, db.providers[id]);
      assert BrokenProxy(db, db.providers[id]);
    }
    if !AllComplete(db) {
      var id :| id in GatewayIds(db) && !Complete(db.providers[id]);
    }
    if id :| id in db.providers && db.providers[id].gateway {
      assert id in GatewayIds(db);
    } else {
      forall id
        ensures id !in GatewayIds(db)
      {
        assert id in db.providers ==> !db.providers[id].gateway;
      }
    }
  }

  /** What the edit must have done to the served routes. */
  ghost predicate EditServed(before: Db, e: Edit, served: Option<Snapshot>)
    requires Accepted(before, e)
  {
    match e
    case CreateGateway(id, p) => RowServed(before, id, p, served)
    case UpdateProvider(id, p) => RowServed(before, id, p, served)
    case SetModels(id, ms) => RowServed(before, id, before.providers[id].(models := ms), served)
    case DeleteProvider(id) => served.None? || id !in served.value
    case PatchProxy(k, x) =>
      forall id :: id in before.providers && before.providers[id].gateway && before.providers[id].proxyId == Some(k) ==>
        served.Some? && id in served.value && x.url == Some(served.value[id].proxyUrl)
    case DeleteProxy(_) => true
  }

  /** The row has a route that carries it, if it is a Gateway provider, and none otherwise. */
  ghost predicate RowServed(before: Db, id: int, p: Provider, served: Option<Snapshot>) {
    if p.gateway then served.Some? && id in served.value && Carries(before.proxies, p, served.value[id])
    else served.None? || id !in served.value
  }

  /** The rows an edit does not write are served as they are. */
  ghost predicate OthersServed(before: Db, e: Edit, served: Option<Snapshot>) {
    forall id :: id in before.providers && before.providers[id].gateway && Target(e) != Some(id)
                 && (e.PatchProxy? ==> before.providers[id].proxyId != Some(e.id)) ==>
      served.Some? && id in served.value && Carries(before.proxies, before.providers[id], served.value[id])
  }

  /** A push that succeeds serves the edited row, and every other row as it was. */
  lemma {:induction false} PushServesEdit(s: State, f: Faults)
    requires Inv(s) && s.phase.Open? && Accepted(s.db, s.phase.edit)
    requires Enabled(s, Push(f)) && Step(s, Push(f)).phase.Pushed?
    ensures var served := Step(s, Push(f)).runtime.Serving();
      && EditServed(s.db, s.phase.edit, served) && OthersServed(s.db, s.phase.edit, served)
  {
    var e, after := s.phase.edit, Apply(s.db, s.phase.edit);
    SuccessServes(s.runtime, Candidate(s).desired, f);
    ProjectionMeans(after);
    var served := Step(s, Push(f)).runtime.Serving();
    if served.Some? {
      SnapshotDescribes(after, served.value);
      AppliedRows(s.db, e, served.value);
    } else {
      assert forall id :: id in after.providers ==> !after.providers[id].gateway;
      NoRowsLeft(s.db, e);
    }
  }

  lemma {:induction false} AppliedRows(before: Db, e: Edit, snapshot: Snapshot)
    requires Accepted(before, e) && Describes(Apply(before, e), snapshot)
    ensures EditServed(before, e, Some(snapshot)) && OthersServed(before, e, Some(snapshot))
  {
    var after := Apply(before, e);
    forall id | id in before.providers && before.providers[id].gateway && Target(e) != Some(id)
      ensures id in snapshot && after.providers[id] == before.providers[id]
    {
      assert id in after.providers;
    }
  }

  lemma {:induction false} NoRowsLeft(before: Db, e: Edit)
    requires Accepted(before, e)
    requires forall id :: id in Apply(before, e).providers ==> !Apply(before, e).providers[id].gateway
    ensures EditServed(before, e, None) && OthersServed(before, e, None)
  {
    var after := Apply(before, e);
    assert forall id :: id in before.providers && Target(e) != Some(id) ==>
      id in after.providers && after.providers[id] == before.providers[id];
    assert e.CreateGateway? || e.UpdateProvider? || e.SetModels? ==> e.id in after.providers;
  }

  /**
    Over every run that stays out of both windows, whenever the configuration lock is free and the
    Gateway serves anything, it serves one route for each committed Gateway provider, carrying
    that row, and no other route.
  */
  lemma {:induction false} ContentsOverRuns(db: Db, evs: seq<Event>)
    requires Runs(State(db, FRESH, Free), evs) && NeverLost(State(db, FRESH, Free), evs)
    ensures var s := After(State(db, FRESH, Free), evs);
      s.phase == Free && s.runtime.Serving().Some? ==> Describes(s.db, s.runtime.Serving().value)
  {
    AgreementOverRuns(db, evs);
    var s := After(State(db, FRESH, Free), evs);
    if s.phase == Free && s.runtime.Serving().Some? {
      SnapshotDescribes(s.db, s.runtime.Serving().value);
    }
  }
}
