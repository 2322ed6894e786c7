/** The snapshot store over a client whose every call may fail before or after it took effect: build,
    validate, activate and roll back (rag/storage/qdrant.py). One store works at a time. */
module SnapshotStore {
  import opened Domain
  import opened Snapshots

  /** How one call of the client ends. A failing upsert may have stored any part of its batch. */
  datatype Fate = Works | FailsBefore | FailsAfter(stored: set<string>)

  /** The part of a batch that was stored. */
  function Stored(points: map<string, Point>, batch: map<string, Point>, fate: Fate): map<string, Point> {
    match fate
    case Works => points + batch
    case FailsBefore => points
    case FailsAfter(stored) => points + map id | id in batch && id in stored :: batch[id]
  }

  class Client {
    var cluster: Cluster
    var calls: nat
    const fates: nat -> Fate
    ghost var history: seq<Cluster>   // every cluster there has been

    /** At every moment so far the cluster was safe and the aliased collection untouched. */
    ghost predicate Good(t: Tools)
      reads this
    {
      && history != [] && history[|history| - 1] == cluster && SafeHistory(t, history)
    }

    constructor (t: Tools, cluster: Cluster, fates: nat -> Fate)
      requires Safe(t, cluster)
      ensures Good(t) && this.cluster == cluster && this.fates == fates
    {
      this.cluster, this.fates, calls, history := cluster, fates, 0, [cluster];
    }

    /** No call ever fails. */
    ghost predicate Reliable() {
      forall k :: fates(k) == Works
    }

    /** Any call that only reads. */
    method Reads() returns (ok: bool)
      modifies this`calls
      ensures Reliable() ==> ok
    {
      ok := fates(calls) == Works;
      calls := calls + 1;
    }

    method GetCollection(name: string) returns (c: Option<Collection>)
      modifies this`calls
      ensures c.Some? ==> name in cluster.collections && c.value == cluster.collections[name]
      ensures Reliable() && name in cluster.collections ==> c.Some?
    {
      var ok := Reads();
      c := if ok && name in cluster.collections then Some(cluster.collections[name]) else None;
    }

    /** A call that would turn the cluster into `after`. */
    method Writes(t: Tools, after: Cluster) returns (ok: bool)
      requires Good(t) && Safe(t, after) && AliasedKept(cluster, after)
      modifies this
      ensures Good(t) && old(history) <= history
      ensures cluster in {old(cluster), after} && (ok ==> cluster == after)
      ensures Reliable() ==> ok
    {
      var fate := fates(calls);
      calls := calls + 1;
      ok := fate == Works;
      if fate != FailsBefore {
        cluster := after;
        history := history + [after];
      }
    }

    /** `upsert` of one batch, into a collection that is neither aliased nor complete. */
    method Upsert(t: Tools, name: string, batch: map<string, Point>) returns (ok: bool)
      requires Good(t) && name in cluster.collections && !IsComplete(cluster.collections[name])
      modifies this
      ensures Good(t) && old(history) <= history
      ensures name in cluster.collections
      ensures cluster == old(cluster).(collections := old(cluster).collections[name := cluster.collections[name]])
      ensures cluster.collections[name] == old(cluster).collections[name].(points := cluster.collections[name].points)
      ensures ok ==> cluster.collections[name].points == old(cluster).collections[name].points + batch
      ensures Reliable() ==> ok
    {
      var c := cluster.collections[name];
      var fate := fates(calls);
      calls := calls + 1;
      ok := fate == Works;
      var after := cluster.(collections := cluster.collections[name := c.(points := Stored(c.points, batch, fate))]);
      assert Safe(t, cluster) by {
        assert Safe(t, history[|history| - 1]);
      }
      assert Safe(t, after) && AliasedKept(cluster, after);
      cluster := after;
      history := history + [after];
    }
  }

  datatype Refusal =
    | EmptyCorpus | DuplicateIds | BadVectors | ClientFailed | Unmanaged | Incompatible | AlreadyBuilding
    | ActiveUnusable | NotValid | MissingCollection

  datatype Result<+T> = Done(value: T) | Refused(why: Refusal)

  datatype BuildAction = NoAction | Created | Rebuilt | Reused

  const BATCH := 128

  class QdrantKnowledgeStore {
    const client: Client
    const tools: Tools
    const runtime: Runtime
    var lastBuildAction: BuildAction

    constructor (client: Client, tools: Tools, runtime: Runtime)
      ensures this.client == client && this.tools == tools && this.runtime == runtime && lastBuildAction == NoAction
    {
      this.client, this.tools, this.runtime, lastBuildAction := client, tools, runtime, NoAction;
    }

    /** `validate_snapshot`. */
    method ValidateSnapshot(s: Snapshot, requireComplete: bool) returns (valid: bool)
      modifies client`calls
      ensures valid ==> s.name in client.cluster.collections && Validates(runtime, s, client.cluster.collections[s.name], requireComplete)
      ensures client.Reliable() && s.name in client.cluster.collections ==>
                valid == Validates(runtime, s, client.cluster.collections[s.name], requireComplete)
    {
      var c := client.GetCollection(s.name);
      valid := c.Some? && Validates(runtime, s, c.value, requireComplete);
    }

    /** The collection is there, and is what it says of itself. */
    predicate Activatable(w: Cluster, name: string) {
      && name in w.collections
      && var s := SnapshotFrom(name, w.collections[name]);
         s.Some? && Validates(runtime, s.value, w.collections[name], true)
    }

    /** `activate`: nothing but the alias changes, and only to a collection that was just validated. */
    method Activate(name: string) returns (r: Result<()>)
      requires client.Good(tools)
      modifies client
      ensures client.Good(tools) && old(client.history) <= client.history
      ensures client.cluster in {old(client.cluster), old(client.cluster).(alias := Some(name))}
      ensures r.Done? ==> client.cluster.alias == Some(name)
      ensures client.cluster != old(client.cluster) ==>
                name in client.cluster.collections && Exact(tools, client.cluster.collections[name])
      ensures client.Reliable() ==> (r.Done? <==> Activatable(old(client.cluster), name))
    {
      var exists_ := client.Reads();
      if !exists_ || name !in client.cluster.collections {
        return Refused(if exists_ then MissingCollection else ClientFailed);
      }
      var c := client.GetCollection(name);
      if c == None {
        return Refused(ClientFailed);
      }
      var s := SnapshotFrom(name, c.value);
      if s == None {
        return Refused(NotValid);
      }
      var valid := ValidateSnapshot(s.value, true);
      if !valid {
        return Refused(NotValid);
      }
      var known := client.Reads();   // the current target, to be replaced in the same request
      if !known {
        return Refused(ClientFailed);
      }
      assert Safe(tools, client.cluster) by {
        assert Safe(tools, client.history[|client.history| - 1]);
      }
      var switched := client.Writes(tools, client.cluster.(alias := Some(name)));
      r := if switched then Done(()) else Refused(ClientFailed);
    }

    /** `rollback`: activation of an existing snapshot, validated first. */
    method Rollback(name: string) returns (r: Result<()>)
      requires client.Good(tools)
      modifies client
      ensures client.Good(tools) && old(client.history) <= client.history
      ensures client.cluster in {old(client.cluster), old(client.cluster).(alias := Some(name))}
      ensures r.Done? ==> client.cluster.alias == Some(name)
      ensures client.cluster != old(client.cluster) ==>
                name in client.cluster.collections && Exact(tools, client.cluster.collections[name])
      ensures client.Reliable() ==> (r.Done? <==> Activatable(old(client.cluster), name))
    {
      var c := client.GetCollection(name);
      if c == None {
        return Refused(ClientFailed);
      }
      var s := SnapshotFrom(name, c.value);
      if s == None {
        return Refused(Unmanaged);
      }
      var valid := ValidateSnapshot(s.value, true);
      if !valid {
        return Refused(NotValid);
      }
      r := Activate(name);
    }

    /** `_mark_build_failed`: best effort, and only on this build's own collection, never on the
        aliased one. */
    method MarkBuildFailed(name: string, expected: Provenance)
      requires client.Good(tools)
      modifies client
      ensures client.Good(tools) && old(client.history) <= client.history
      ensures client.cluster.alias == old(client.cluster).alias
      ensures OnlyTouches(old(client.cluster), client.cluster, name)
      ensures client.cluster != old(client.cluster) ==>
                name in client.cluster.collections && client.cluster.collections[name].provenance.Some?
                && client.cluster.collections[name].provenance.value.state == Some(Failed)
    {
      var reached := client.Reads();
      if !reached || name !in client.cluster.collections {
        return;
      }
      reached := client.Reads();
      if !reached || client.cluster.alias == Some(name) {
        return;
      }
      var c := client.GetCollection(name);
      if c == None || c.value.provenance == None {
        return;
      }
      var existing := c.value.provenance.value;
      if existing.identity != expected.identity || existing.buildId != expected.buildId {
        return;
      }
      var marked := UpdateProvenance(name, existing.(state := Some(Failed)));
    }

    /** `_update_provenance` of a collection that is not aliased, with a mark that is true of it. */
    method UpdateProvenance(name: string, p: Provenance) returns (ok: bool)
      requires client.Good(tools) && client.cluster.alias != Some(name) && name in client.cluster.collections
      requires var c := client.cluster.collections[name].(provenance := Some(p)); IsComplete(c) ==> Exact(tools, c)
      modifies client
      ensures client.Good(tools) && old(client.history) <= client.history
      ensures client.cluster.alias == old(client.cluster).alias
      ensures OnlyTouches(old(client.cluster), client.cluster, name)
      ensures name in client.cluster.collections
      ensures var c := old(client.cluster).collections[name];
              && client.cluster.collections[name] in {c, c.(provenance := Some(p))}
              && (ok ==> client.cluster.collections[name] == c.(provenance := Some(p)))
      ensures client.cluster != old(client.cluster) ==> client.cluster.collections[name].provenance == Some(p)
      ensures client.Reliable() ==> ok
    {
      var c := client.GetCollection(name);
      if c == None {
        return false;
      }
      assert Safe(tools, client.cluster) by {
        assert Safe(tools, client.history[|client.history| - 1]);
      }
      ok := client.Writes(tools, client.cluster.(collections := client.cluster.collections[name := c.value.(provenance := Some(p))]));
    }

    /** `_delete_inactive_managed_snapshot`. */
    method DeleteInactive(name: string, existing: Provenance, expected: Identity) returns (ok: bool)
      requires client.Good(tools)
      modifies client
      ensures client.Good(tools) && old(client.history) <= client.history
      ensures client.cluster.alias == old(client.cluster).alias
      ensures OnlyTouches(old(client.cluster), client.cluster, name)
      ensures ok ==> name !in client.cluster.collections
      ensures name in client.cluster.collections ==> client.cluster == old(client.cluster)
      ensures old(client.cluster).alias == Some(name) || existing.identity != Some(expected) ==> !ok && client.cluster == old(client.cluster)
      ensures client.Reliable() && old(client.cluster).alias != Some(name) && existing.identity == Some(expected) ==> ok
    {
      var reached := client.Reads();
      if !reached || client.cluster.alias == Some(name) || existing.identity != Some(expected) {
        return false;
      }
      assert Safe(tools, client.cluster) by {
        assert Safe(tools, client.history[|client.history| - 1]);
      }
      ok := client.Writes(tools, client.cluster.(collections := client.cluster.collections - {name}));
      ok := ok && name !in client.cluster.collections;
    }

    /** The name is free, or its collection is this very snapshot, not being built, and either valid or
        inactive, so that it can be used or replaced. */
    predicate WayIsClear(w: Cluster, name: string, identity: Identity) {
      name in w.collections ==>
        var c := w.collections[name];
        && c.provenance.Some? && c.provenance.value.identity == Some(identity) && c.provenance.value.state != Some(Building)
        && (IsComplete(c) ==> c.provenance.value.createdAt.Some?)
        && (Activatable(w, name) || w.alias != Some(name))
    }

    /** The first part of a build: what to do with a collection of that name. Done(None) means that
        the name is free now, Done(Some(s)) that a valid snapshot is there. */
    method ClearTheWay(name: string, identity: Identity) returns (r: Result<Option<Snapshot>>)
      requires client.Good(tools)
      modifies this`lastBuildAction, client
      ensures client.Good(tools) && old(client.history) <= client.history
      ensures client.cluster.alias == old(client.cluster).alias
      ensures OnlyTouches(old(client.cluster), client.cluster, name)
      ensures old(client.cluster).alias == Some(name) ==> client.cluster == old(client.cluster)
      ensures r == Done(None) ==> name !in client.cluster.collections && lastBuildAction in {Created, Rebuilt}
      ensures r.Done? && r.value.Some? ==>
                && lastBuildAction == Reused && client.cluster == old(client.cluster) && name in client.cluster.collections
                && r.value.value.name == name && Validates(runtime, r.value.value, client.cluster.collections[name], true)
                && client.cluster.collections[name].provenance.value.identity == Some(identity)
      ensures client.Reliable() ==> (r.Done? <==> WayIsClear(old(client.cluster), name, identity))
    {
      var reached := client.Reads();
      if !reached {
        return Refused(ClientFailed);
      }
      if name !in client.cluster.collections {
        lastBuildAction := Created;
        return Done(None);
      }
      var c := client.GetCollection(name);
      if c == None {
        return Refused(ClientFailed);
      }
      if c.value.provenance == None {
        return Refused(Unmanaged);
      }
      var existing := c.value.provenance.value;
      if existing.identity != Some(identity) {
        return Refused(Incompatible);
      }
      reached := client.Reads();
      if !reached {
        return Refused(ClientFailed);
      }
      var active := client.cluster.alias;
      if existing.state == Some(Building) {
        return Refused(AlreadyBuilding);
      }
      if existing.state == Some(Complete) {
        c := client.GetCollection(name);
        var s := if c.Some? then SnapshotFrom(name, c.value) else None;
        if s == None {
          return Refused(ClientFailed);
        }
        var valid := ValidateSnapshot(s.value, true);
        if valid {
          lastBuildAction := Reused;
          return Done(Some(s.value));
        }
      }
      if active == Some(name) {
        return Refused(ActiveUnusable);
      }
      var deleted := DeleteInactive(name, existing, identity);
      if !deleted {
        return Refused(ClientFailed);
      }
      lastBuildAction := Rebuilt;
      r := Done(None);
    }

    /** The upserts, batch by batch, into a new collection. */
    method Load(name: string, provider: string, model: string, chunks: seq<Chunk>) returns (ok: bool)
      requires client.Good(tools) && name in client.cluster.collections
      requires !IsComplete(client.cluster.collections[name]) && client.cluster.collections[name].points == map[]
      modifies client
      ensures client.Good(tools) && old(client.history) <= client.history
      ensures client.cluster.alias == old(client.cluster).alias
      ensures OnlyTouches(old(client.cluster), client.cluster, name)
      ensures name in client.cluster.collections
      ensures client.cluster.collections[name] == old(client.cluster).collections[name].(points := client.cluster.collections[name].points)
      ensures ok ==> client.cluster.collections[name].points == Loaded(tools, provider, model, chunks)
      ensures client.Reliable() ==> ok
    {
      var offset := 0;
      while offset < |chunks|
        invariant 0 <= offset <= |chunks|
        invariant client.Good(tools) && old(client.history) <= client.history
        invariant client.cluster.alias == old(client.cluster).alias
        invariant OnlyTouches(old(client.cluster), client.cluster, name)
        invariant name in client.cluster.collections
        invariant client.cluster.collections[name] ==
                  old(client.cluster).collections[name].(points := Loaded(tools, provider, model, chunks[..offset]))
      {
        var next := if offset + BATCH < |chunks| then offset + BATCH else |chunks|;
        var batch := chunks[offset..next];
        LoadedConcat(tools, provider, model, chunks[..offset], batch);
        assert chunks[..offset] + batch == chunks[..next];
        var stored := client.Upsert(tools, name, Loaded(tools, provider, model, batch));
        if !stored {
          return false;
        }
        offset := next;
      }
      assert chunks[..offset] == chunks;
      ok := true;
    }

    /** `build_snapshot`. A snapshot that is returned is complete, exact and valid; the aliased
        collection is never touched, and the alias moves only to the finished snapshot, if at all. */
    method BuildSnapshot(chunks: seq<Chunk>, activate: bool, now: string, buildId: string) returns (r: Result<Snapshot>)
      requires client.Good(tools)
      modifies this, client
      ensures client.Good(tools) && old(client.history) <= client.history
      ensures var spec := SpecOf(tools, runtime, chunks);
              if spec == None then r.Refused? && client.cluster == old(client.cluster)
              else
                var name := tools.physicalName(spec.value);
                && OnlyTouches(old(client.cluster), client.cluster, name)
                && client.cluster.alias in {old(client.cluster).alias, if activate then Some(name) else old(client.cluster).alias}
                && (old(client.cluster).alias == Some(name) ==> client.cluster == old(client.cluster))
                && (r.Done? ==>
                      && r.value.name == name && r.value.corpus == spec.value.corpus && r.value.state == Complete
                      && name in client.cluster.collections
                      && Validates(runtime, r.value, client.cluster.collections[name], true)
                      && Exact(tools, client.cluster.collections[name])
                      && (activate ==> client.cluster.alias == Some(name))
                      && (lastBuildAction == Reused ==> client.cluster.collections == old(client.cluster).collections))
                && (client.Reliable() ==> (r.Done? <==> WayIsClear(old(client.cluster), name, IdentityOf(tools, spec.value))))
    {
      var canonical := Canonical(chunks);
      if canonical == [] {
        return Refused(EmptyCorpus);
      }
      if !DistinctIds(canonical) {
        return Refused(DuplicateIds);
      }
      var dimension := DimensionOf(tools, runtime, canonical);
      if dimension == None {
        return Refused(BadVectors);
      }
      var spec := Spec(canonical, runtime.provider, runtime.model, dimension.value,
                       runtime.schemaVersion, runtime.chunkingVersion, runtime.lexicalVersion);
      var got := Obtain(tools.physicalName(spec), spec, now, buildId);
      if got.Refused? || !activate || client.cluster.alias == Some(got.value.name) {
        return got;
      }
      ValidatesItself(runtime, got.value, client.cluster.collections[got.value.name]);
      var activated := Activate(got.value.name);
      r := if activated.Done? then got else Refused(activated.why);
    }

    /** The build without the activation: the valid snapshot that is there, or a new one. */
    method Obtain(name: string, spec: Spec, now: string, buildId: string) returns (r: Result<Snapshot>)
      requires client.Good(tools) && DistinctIds(spec.corpus) && Fits(spec)
      modifies this`lastBuildAction, client
      ensures client.Good(tools) && old(client.history) <= client.history
      ensures client.cluster.alias == old(client.cluster).alias
      ensures OnlyTouches(old(client.cluster), client.cluster, name)
      ensures old(client.cluster).alias == Some(name) ==> client.cluster == old(client.cluster)
      ensures r.Done? ==>
                && r.value.name == name && r.value.corpus == spec.corpus && r.value.state == Complete
                && name in client.cluster.collections
                && Validates(runtime, r.value, client.cluster.collections[name], true)
                && Exact(tools, client.cluster.collections[name])
                && (lastBuildAction == Reused ==> client.cluster == old(client.cluster))
      ensures client.Reliable() ==> (r.Done? <==> WayIsClear(old(client.cluster), name, IdentityOf(tools, spec)))
    {
      var way := ClearTheWay(name, IdentityOf(tools, spec));
      if way.Refused? {
        return Refused(way.why);
      }
      assert Safe(tools, client.cluster) by {
        assert Safe(tools, client.history[|client.history| - 1]);
      }
      if way.value.Some? {
        return Done(way.value.value);
      }
      r := BuildNew(name, spec, now, buildId);
    }

    /** What a build starts from. */
    function StartOf(spec: Spec, now: string, buildId: string): Collection {
      Collection(Some(LexicalOf(tools, spec)),
                 Some(Provenance(Some(IdentityOf(tools, spec)), Some(|spec.corpus|), Some(now), Some(Building), None, Some(buildId))),
                 map[], Schema(spec.dimension, DISTANCE, true))
    }

    /** The first half: the collection, and all of its points. */
    method CreateAndLoad(name: string, spec: Spec, start: Collection) returns (ok: bool)
      requires client.Good(tools) && name !in client.cluster.collections
      requires !IsComplete(start) && start.points == map[] && start.provenance.Some?
      modifies client
      ensures client.Good(tools) && old(client.history) <= client.history
      ensures client.cluster.alias == old(client.cluster).alias
      ensures OnlyTouches(old(client.cluster), client.cluster, name)
      ensures ok ==> name in client.cluster.collections &&
                     client.cluster.collections[name] == start.(points := Loaded(tools, spec.provider, spec.model, spec.corpus))
      ensures client.Reliable() ==> ok
    {
      assert Safe(tools, client.cluster) by {
        assert Safe(tools, client.history[|client.history| - 1]);
      }
      ok := client.Writes(tools, client.cluster.(collections := client.cluster.collections[name := start]));
      if ok {
        ok := Load(name, spec.provider, spec.model, spec.corpus);
      }
      if !ok {
        MarkBuildFailed(name, start.provenance.value);
      }
    }

    /** The second half: the checks, and the mark between them. */
    method CheckAndComplete(name: string, s: Snapshot, start: Provenance, now: string) returns (valid: bool)
      requires client.Good(tools) && name in client.cluster.collections && client.cluster.alias != Some(name)
      requires client.cluster.collections[name].provenance == Some(start)
      requires s.name == name && start.state == Some(Building)
      requires Exact(tools, client.cluster.collections[name].(provenance := Some(start.(state := Some(Complete), completedAt := Some(now)))))
      modifies client
      ensures client.Good(tools) && old(client.history) <= client.history
      ensures client.cluster.alias == old(client.cluster).alias
      ensures OnlyTouches(old(client.cluster), client.cluster, name)
      ensures valid ==> name in client.cluster.collections && Exact(tools, client.cluster.collections[name])
                        && Validates(runtime, s.(state := Complete), client.cluster.collections[name], true)
      ensures client.Reliable() && Validates(runtime, s, old(client.cluster).collections[name], false) ==> valid
    {
      valid := ValidateSnapshot(s, false);
      if !valid {
        MarkBuildFailed(name, start);
        return;
      }
      var complete := start.(state := Some(Complete), completedAt := Some(now));
      var marked := UpdateProvenance(name, complete);
      if marked {
        valid := ValidateSnapshot(s.(state := Complete), true);
        if valid {
          return;
        }
      }
      valid := false;
      MarkBuildFailed(name, complete);
    }

    /** The specification is of this store's own configuration. */
    predicate Fits(spec: Spec) {
      && spec.provider == runtime.provider && spec.model == runtime.model
      && (runtime.dimension.Some? ==> spec.dimension == runtime.dimension.value)
      && spec.schemaVersion == runtime.schemaVersion && spec.chunkingVersion == runtime.chunkingVersion
      && spec.lexicalVersion == runtime.lexicalVersion
    }

    /** A new collection, loaded, checked, and only then marked complete. */
    method BuildNew(name: string, spec: Spec, now: string, buildId: string) returns (r: Result<Snapshot>)
      requires client.Good(tools) && name !in client.cluster.collections
      requires DistinctIds(spec.corpus)
      modifies client
      ensures client.Good(tools) && old(client.history) <= client.history
      ensures client.cluster.alias == old(client.cluster).alias
      ensures OnlyTouches(old(client.cluster), client.cluster, name)
      ensures r.Done? ==>
                && r.value.name == name && r.value.corpus == spec.corpus && r.value.state == Complete
                && name in client.cluster.collections
                && Validates(runtime, r.value, client.cluster.collections[name], true)
                && Exact(tools, client.cluster.collections[name])
      ensures client.Reliable() && Fits(spec) ==> r.Done?
    {
      var start := StartOf(spec, now, buildId);
      assert client.cluster.alias != Some(name) by {
        assert Safe(tools, client.history[|client.history| - 1]);
      }
      var loaded := CreateAndLoad(name, spec, start);
      if !loaded {
        return Refused(ClientFailed);
      }
      LoadedExact(tools, spec.provider, spec.model, spec.corpus);
      var s := Snapshot(name, spec, spec, spec.corpus, |spec.corpus|, spec.provider, spec.model, spec.dimension,
                        spec.schemaVersion, spec.chunkingVersion, spec.lexicalVersion, LexicalOf(tools, spec), now, Building);
      var valid := CheckAndComplete(name, s, start.provenance.value, now);
      r := if valid then Done(s.(state := Complete)) else Refused(NotValid);
    }
  }

  /** Every other collection is as it was. */
  ghost predicate OnlyTouches(w: Cluster, w': Cluster, name: string) {
    w'.collections - {name} == w.collections - {name}
  }

  datatype Operation =
    | Build(chunks: seq<Chunk>, activate: bool, now: string, buildId: string)
    | Activation(name: string)
    | RollbackTo(name: string)

  /** Any sequence of builds, activations and rollbacks, whatever fails in it: at every moment the
      alias is unset or points to an existing complete collection that holds exactly the chunks of
      its corpus, and the aliased collection is never deleted, written or marked. */
  method RunOperations(store: QdrantKnowledgeStore, operations: seq<Operation>)
    requires store.client.Good(store.tools)
    modifies store, store.client
    ensures store.client.Good(store.tools) && old(store.client.history) <= store.client.history
    ensures SafeHistory(store.tools, store.client.history)
  {
    for i := 0 to |operations|
      invariant store.client.Good(store.tools) && old(store.client.history) <= store.client.history
    {
      match operations[i] {
        case Build(chunks, activate, now, buildId) =>
          var built := store.BuildSnapshot(chunks, activate, now, buildId);
        case Activation(name) =>
          var activated := store.Activate(name);
        case RollbackTo(name) =>
          var back := store.Rollback(name);
      }
    }
  }
}
