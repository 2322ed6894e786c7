/** Immutable knowledge snapshots: their identity, what makes a collection a valid snapshot, and what
    must hold of a cluster at every moment (rag/storage/qdrant.py). Hashes are injective, so the
    hashed value stands for them; the name of a collection keeps only a part of a hash, so two
    specifications may share a name. */
module Snapshots {
  import opened Domain
  import opened Ordering

  datatype Chunk = Chunk(id: string, content: string, metadata: string)

  /** `KnowledgeSnapshotSpec`; its fixed fields are the constants below. */
  datatype Spec = Spec(
    corpus: seq<Chunk>, provider: string, model: string, dimension: int,
    schemaVersion: int, chunkingVersion: int, lexicalVersion: int)

  const SPEC_VERSION := 1
  const DISTANCE := "Cosine"
  const SPARSE_NAME := "lexical"

  datatype BuildState = Building | Failed | Complete | OtherState

  datatype Lexical = Lexical(version: int, index: string)

  /** The part of the provenance that a rebuild must match. */
  datatype Identity = Identity(
    snapshotId: Spec, specHash: Spec, specVersion: int, corpus: seq<Chunk>, corpusVersion: seq<Chunk>, chunkCount: int,
    provider: string, model: string, dimension: int, lexicalVersion: int, lexicalHash: Lexical,
    schemaVersion: int, chunkingVersion: int, distance: string, sparseName: string)

  /** A collection's provenance; None stands for keys that are missing or of the wrong type. */
  datatype Provenance = Provenance(
    identity: Option<Identity>,
    expectedCount: Option<int>,
    createdAt: Option<string>,
    state: Option<BuildState>,
    completedAt: Option<string>,
    buildId: Option<string>)

  datatype Point = Point(chunk: Chunk, vector: seq<real>)

  datatype Schema = Schema(dimension: int, distance: string, sparse: bool)

  datatype Collection = Collection(
    lexical: Option<Lexical>, provenance: Option<Provenance>, points: map<string, Point>, schema: Schema)

  /** The collections, and the target of the one alias. */
  datatype Cluster = Cluster(collections: map<string, Collection>, alias: Option<string>)

  /** What does not change while a store runs: embeddings and the lexical index as functions, and the
      names of physical collections. */
  datatype Tools = Tools(
    embed: (string, string, string) -> seq<real>,   // provider, model and text
    index: seq<Chunk> -> string,
    physicalName: Spec -> string)

  /** The store's configuration. */
  datatype Runtime = Runtime(
    provider: string, model: string, dimension: Option<int>,
    schemaVersion: int, chunkingVersion: int, lexicalVersion: int)

  // ------------------------------------------------------------------- the snapshot of some chunks

  function ChunkKey(c: Chunk): string { c.id }

  /** `_canonical_chunks`. */
  function Canonical(chunks: seq<Chunk>): seq<Chunk> {
    SortBy(ChunkKey, chunks)
  }

  predicate DistinctIds(chunks: seq<Chunk>) {
    forall i, j | 0 <= i < j < |chunks| :: chunks[i].id != chunks[j].id
  }

  function VectorOf(t: Tools, provider: string, model: string, c: Chunk): seq<real> {
    t.embed(provider, model, c.content)
  }

  /** `_validate_vectors`: the common dimension of the vectors, if there is one and it is expected. */
  function DimensionOf(t: Tools, rt: Runtime, chunks: seq<Chunk>): Option<int> {
    if chunks == [] then None
    else
      var actual := |VectorOf(t, rt.provider, rt.model, chunks[0])|;
      if rt.dimension.Some? && rt.dimension.value != actual then None
      else if exists c | c in chunks :: |VectorOf(t, rt.provider, rt.model, c)| != actual then None
      else Some(actual)
  }

  /** The specification of the snapshot of some chunks; None when the input is refused. */
  function SpecOf(t: Tools, rt: Runtime, chunks: seq<Chunk>): Option<Spec> {
    var canonical := Canonical(chunks);
    if canonical == [] || !DistinctIds(canonical) then None
    else match DimensionOf(t, rt, canonical)
      case None => None
      case Some(d) => Some(Spec(canonical, rt.provider, rt.model, d, rt.schemaVersion, rt.chunkingVersion, rt.lexicalVersion))
  }

  lemma DistinctIdsIdentify(chunks: seq<Chunk>)
    requires DistinctIds(chunks)
    ensures KeysIdentify(ChunkKey, multiset(chunks))
  {
    forall x, y | x in multiset(chunks) && y in multiset(chunks) && ChunkKey(x) == ChunkKey(y) ensures x == y {
      var i :| 0 <= i < |chunks| && chunks[i] == x;
      var j :| 0 <= j < |chunks| && chunks[j] == y;
    }
  }

  /** The snapshot does not depend on the order of its chunks; nor does the refusal of a corpus in
      which two chunks share an id. */
  lemma OrderIsIrrelevant(t: Tools, rt: Runtime, a: seq<Chunk>, b: seq<Chunk>)
    requires multiset(a) == multiset(b)
    ensures SpecOf(t, rt, a) == SpecOf(t, rt, b)
  {
    SortByMultiset(ChunkKey, a);
    SortByMultiset(ChunkKey, b);
    if DistinctIds(Canonical(a)) {
      DistinctIdsIdentify(Canonical(a));
      SortByPermutation(ChunkKey, a, b);
    } else if DistinctIds(Canonical(b)) {
      DistinctIdsIdentify(Canonical(b));
      SortByPermutation(ChunkKey, b, a);
    } else {
      SameLength(Canonical(a), Canonical(b));
    }
  }

  function LexicalOf(t: Tools, spec: Spec): Lexical {
    Lexical(spec.lexicalVersion, t.index(spec.corpus))
  }

  function IdentityOf(t: Tools, spec: Spec): Identity {
    Identity(spec, spec, SPEC_VERSION, spec.corpus, spec.corpus, |spec.corpus|, spec.provider, spec.model, spec.dimension,
             spec.lexicalVersion, LexicalOf(t, spec), spec.schemaVersion, spec.chunkingVersion, DISTANCE, SPARSE_NAME)
  }

  /** The points of these chunks, by point id. */
  function Loaded(t: Tools, provider: string, model: string, chunks: seq<Chunk>): map<string, Point> {
    if chunks == [] then map[]
    else
      var last := chunks[|chunks| - 1];
      Loaded(t, provider, model, chunks[..|chunks| - 1])[last.id := Point(last, VectorOf(t, provider, model, last))]
  }

  ghost predicate HasPointOf(t: Tools, provider: string, model: string, points: map<string, Point>, c: Chunk) {
    c.id in points && points[c.id] == Point(c, VectorOf(t, provider, model, c))
  }

  ghost predicate IsIdOf(chunks: seq<Chunk>, id: string) {
    exists c :: c in chunks && c.id == id
  }

  lemma LastIdIsNew(rest: seq<Chunk>, last: Chunk)
    requires DistinctIds(rest + [last])
    ensures DistinctIds(rest) && forall c | c in rest :: c.id != last.id
  {
    var chunks := rest + [last];
    assert forall i | 0 <= i < |rest| :: chunks[i] == rest[i];
    forall c | c in rest ensures c.id != last.id {
      var i :| 0 <= i < |rest| && rest[i] == c;
      assert chunks[i].id != chunks[|rest|].id;
    }
  }

  lemma IdsMore(rest: seq<Chunk>, last: Chunk, id: string)
    ensures IsIdOf(rest + [last], id) <==> IsIdOf(rest, id) || id == last.id
  {
    var chunks := rest + [last];
    assert last in chunks && forall c :: c in chunks <==> c in rest || c == last;
    if IsIdOf(rest, id) {
      var c :| c in rest && c.id == id;
      assert c in chunks;
    }
  }

  /** The points after one more chunk. */
  lemma PointMore(t: Tools, provider: string, model: string, rest: seq<Chunk>, last: Chunk, points: map<string, Point>)
    requires DistinctIds(rest + [last]) && |points| == |rest|
    requires forall c | c in rest :: HasPointOf(t, provider, model, points, c)
    requires forall id | id in points :: IsIdOf(rest, id)
    ensures var more := points[last.id := Point(last, VectorOf(t, provider, model, last))];
            && |more| == |rest| + 1
            && (forall c | c in rest + [last] :: HasPointOf(t, provider, model, more, c))
            && (forall id | id in more :: IsIdOf(rest + [last], id))
  {
    LastIdIsNew(rest, last);
    assert last.id !in points by {
      assert !IsIdOf(rest, last.id);
    }
    var more := points[last.id := Point(last, VectorOf(t, provider, model, last))];
    assert more.Keys == points.Keys + {last.id} && |more.Keys| == |more| && |points.Keys| == |points|;
    forall id | id in more ensures IsIdOf(rest + [last], id) {
      IdsMore(rest, last, id);
    }
    forall c | c in rest + [last] ensures HasPointOf(t, provider, model, more, c) {
      if c in rest {
        assert HasPointOf(t, provider, model, points, c) && c.id != last.id;
      }
    }
  }

  /** One point for every chunk, with that chunk as payload and its own vector, and no other. */
  lemma {:induction false} LoadedExact(t: Tools, provider: string, model: string, chunks: seq<Chunk>)
    requires DistinctIds(chunks)
    ensures var points := Loaded(t, provider, model, chunks);
            && |points| == |chunks|
            && (forall c | c in chunks :: HasPointOf(t, provider, model, points, c))
            && (forall id | id in points :: IsIdOf(chunks, id))
  {
    if chunks != [] {
      var rest, last := chunks[..|chunks| - 1], chunks[|chunks| - 1];
      assert chunks == rest + [last];
      LastIdIsNew(rest, last);
      LoadedExact(t, provider, model, rest);
      PointMore(t, provider, model, rest, last, Loaded(t, provider, model, rest));
    }
  }

  lemma {:induction false} LoadedConcat(t: Tools, provider: string, model: string, a: seq<Chunk>, b: seq<Chunk>)
    ensures Loaded(t, provider, model, a + b) == Loaded(t, provider, model, a) + Loaded(t, provider, model, b)
  {
    if b == [] {
      assert a + b == a;
    } else {
      LoadedConcat(t, provider, model, a, b[..|b| - 1]);
      assert (a + b)[..|a + b| - 1] == a + b[..|b| - 1];
      assert (a + b)[|a + b| - 1] == b[|b| - 1];
    }
  }

  // ------------------------------------------------------------------------------------ validation

  datatype Snapshot = Snapshot(
    name: string, snapshotId: Spec, specHash: Spec, corpus: seq<Chunk>, chunkCount: int,
    provider: string, model: string, dimension: int, schemaVersion: int, chunkingVersion: int,
    lexicalVersion: int, lexicalHash: Lexical, createdAt: string, state: BuildState)

  /** `_snapshot_from_collection`: what the collection says of itself. */
  function SnapshotFrom(name: string, c: Collection): Option<Snapshot> {
    if c.provenance == None || c.provenance.value.identity == None
       || c.provenance.value.createdAt == None || c.provenance.value.state == None then None
    else
      var p := c.provenance.value;
      var i := p.identity.value;
      Some(Snapshot(name, i.snapshotId, i.specHash, i.corpus, i.chunkCount, i.provider, i.model, i.dimension,
                    i.schemaVersion, i.chunkingVersion, i.lexicalVersion, i.lexicalHash, p.createdAt.value, p.state.value))
  }

  function SpecIn(s: Snapshot): Spec {
    Spec(s.corpus, s.provider, s.model, s.dimension, s.schemaVersion, s.chunkingVersion, s.lexicalVersion)
  }

  predicate ProvenanceAgrees(p: Provenance, s: Snapshot, requireComplete: bool) {
    && p.identity.Some? && IdentityAgrees(p.identity.value, s)
    && p.createdAt.Some? && p.state == Some(s.state) && s.state != OtherState
    && (requireComplete ==> s.state == Complete && p.completedAt.Some?)
    && p.expectedCount == Some(s.chunkCount)
  }

  predicate IdentityAgrees(i: Identity, s: Snapshot) {
    && i.chunkCount == s.chunkCount && i.snapshotId == s.snapshotId && i.specHash == SpecIn(s) && i.specVersion == SPEC_VERSION
    && i.corpus == s.corpus && i.provider == s.provider && i.model == s.model && i.dimension == s.dimension
    && i.lexicalVersion == s.lexicalVersion && i.lexicalHash == s.lexicalHash
    && i.schemaVersion == s.schemaVersion && i.chunkingVersion == s.chunkingVersion
    && i.distance == DISTANCE && i.sparseName == SPARSE_NAME
  }

  /** `validate_snapshot` on the collection as it was read. */
  predicate Validates(rt: Runtime, s: Snapshot, c: Collection, requireComplete: bool) {
    && s.specHash == SpecIn(s)
    && c.provenance.Some? && ProvenanceAgrees(c.provenance.value, s, requireComplete)
    && c.lexical.Some? && c.lexical.value == s.lexicalHash && c.lexical.value.version == s.lexicalVersion
    && |c.points| == s.chunkCount
    && c.schema.dimension == s.dimension && c.schema.distance == DISTANCE && c.schema.sparse
    && s.provider == rt.provider && s.model == rt.model
    && (rt.dimension.Some? ==> s.dimension == rt.dimension.value)
    && s.schemaVersion == rt.schemaVersion && s.chunkingVersion == rt.chunkingVersion && s.lexicalVersion == rt.lexicalVersion
  }

  /** A valid collection is valid by what it says of itself. */
  lemma ValidatesItself(rt: Runtime, s: Snapshot, c: Collection)
    requires Validates(rt, s, c, true)
    ensures SnapshotFrom(s.name, c).Some? && Validates(rt, SnapshotFrom(s.name, c).value, c, true)
  {
  }

  // ------------------------------------------------------------------------------- safe clusters

  predicate IsComplete(c: Collection) {
    c.provenance.Some? && c.provenance.value.state == Some(Complete)
  }

  /** A complete collection holds exactly the chunks of the corpus it names. */
  predicate Exact(t: Tools, c: Collection) {
    && IsComplete(c) && c.provenance.value.identity.Some?
    && var i := c.provenance.value.identity.value;
       DistinctIds(i.corpus) && c.points == Loaded(t, i.provider, i.model, i.corpus)
  }

  /** Whatever is marked complete is complete, and so is what the alias points to. */
  ghost predicate Safe(t: Tools, w: Cluster) {
    && (forall n | n in w.collections :: IsComplete(w.collections[n]) ==> Exact(t, w.collections[n]))
    && (w.alias.Some? ==> w.alias.value in w.collections && IsComplete(w.collections[w.alias.value]))
  }

  /** The aliased collection is not deleted, written or marked. */
  predicate AliasedKept(w: Cluster, w': Cluster) {
    w.alias.Some? && w.alias.value in w.collections ==>
      w.alias.value in w'.collections && w'.collections[w.alias.value] == w.collections[w.alias.value]
  }

  /** The moments of a cluster, one after every call that reached it. */
  ghost predicate SafeHistory(t: Tools, h: seq<Cluster>) {
    && (forall i | 0 <= i < |h| :: Safe(t, h[i]))
    && (forall i | 0 <= i < |h| - 1 :: AliasedKept(h[i], h[i + 1]))
  }

  /** While a collection stays aliased it is one and the same, bit for bit. */
  lemma {:induction false} AliasedIsImmutable(t: Tools, h: seq<Cluster>, i: nat, j: nat, name: string)
    requires SafeHistory(t, h) && i <= j < |h| && forall k | i <= k < j :: h[k].alias == Some(name)
    requires name in h[i].collections
    ensures name in h[j].collections && h[j].collections[name] == h[i].collections[name]
  {
    if i < j {
      AliasedIsImmutable(t, h, i, j - 1, name);
      assert AliasedKept(h[j - 1], h[j - 1 + 1]);
    }
  }

  /** At every moment a reader that follows the alias finds every chunk of its corpus, with its own
      vector, and nothing else. */
  lemma ReadersSeeTheCorpus(t: Tools, h: seq<Cluster>, i: nat)
    requires SafeHistory(t, h) && i < |h| && h[i].alias.Some?
    ensures h[i].alias.value in h[i].collections
    ensures var c := h[i].collections[h[i].alias.value];
            && c.provenance.Some? && c.provenance.value.identity.Some?
            && var id := c.provenance.value.identity.value;
               && |c.points| == |id.corpus|
               && (forall x | x in id.corpus :: HasPointOf(t, id.provider, id.model, c.points, x))
               && (forall p | p in c.points :: IsIdOf(id.corpus, p))
  {
    assert Safe(t, h[i]);
    var id := h[i].collections[h[i].alias.value].provenance.value.identity.value;
    LoadedExact(t, id.provider, id.model, id.corpus);
  }
}
