/** Flattening of captured policy inputs into dotted paths, and when that forgets nothing
    (pending_payload.py). Keys are of any type with a spelling `text`; for plain strings it is the
    identity. */
module PolicyInputs {
  import opened Domain

  // ---------------------------------------------------------------- trees, paths and flattening

  /** The leaves of a tree: every path that ends in something other than an object. */
  function Leaves<K>(v: Json<K>): set<(seq<K>, Json<K>)> {
    match v
    case JObj(fields) =>
      set k, leaf | k in fields && leaf in Leaves(fields[k]) :: ([k] + leaf.0, leaf.1)
    case _ => {([], v)}
  }

  /** The prefix under which the value of `key` is flattened; an empty prefix adds no dot. */
  function Child(prefix: string, key: string): string {
    if prefix == "" then key else prefix + "." + key
  }

  function PathText<K>(text: K -> string, prefix: string, path: seq<K>): string
    decreases path
  {
    if path == [] then prefix else PathText(text, Child(prefix, text(path[0])), path[1..])
  }

  /** What flattening stands for: each leaf under the text of its path. */
  function FlatPairs<K>(text: K -> string, v: Json<K>, prefix: string): set<(string, Json<K>)> {
    set leaf | leaf in Leaves(v) :: (PathText(text, prefix, leaf.0), leaf.1)
  }

  predicate DotFree(k: string) { k != "" && '.' !in k }

  /** The shape of everything the gate captures: no empty object, and keys whose text is non-empty
      and contains no dot. Lists are leaves. */
  predicate CapturedShape<K>(text: K -> string, v: Json<K>) {
    match v
    case JObj(fields) =>
      fields != map[] && forall k | k in fields :: DotFree(text(k)) && CapturedShape(text, fields[k])
    case _ => true
  }

  ghost predicate Spelling<K(!new)>(text: K -> string) {
    forall k, l :: text(k) == text(l) ==> k == l
  }

  /** `_flatten`: dictionaries are walked key by key in whatever order they iterate; a leaf stands
      for its JSON text. For any tree the result has exactly the path texts of the leaves, each
      with the value of some leaf of that text; on captured trees it is exactly the leaves. */
  method Flatten<K(!new)>(text: K -> string, value: Json<K>, prefix: string) returns (flat: map<string, Json<K>>)
    ensures flat.Keys == set p | p in FlatPairs(text, value, prefix) :: p.0
    ensures forall t | t in flat :: (t, flat[t]) in FlatPairs(text, value, prefix)
    ensures CapturedShape(text, value) && Spelling(text) ==> flat.Items == FlatPairs(text, value, prefix)
    decreases value
  {
    match value {
      case JObj(fields) =>
        flat := map[];
        var remaining := fields.Keys;
        while remaining != {}
          invariant remaining <= fields.Keys
          invariant flat.Keys == set k, p |
            k in fields.Keys - remaining && p in FlatPairs(text, fields[k], Child(prefix, text(k))) :: p.0
          invariant forall t | t in flat ::
            exists k | k in fields.Keys - remaining :: (t, flat[t]) in FlatPairs(text, fields[k], Child(prefix, text(k)))
        {
          var key :| key in remaining;
          var below := Flatten(text, fields[key], Child(prefix, text(key)));
          ghost var done := fields.Keys - remaining;
          assert fields.Keys - (remaining - {key}) == done + {key};
          flat := flat + below;
          remaining := remaining - {key};
        }
        FlatPairsOfObject(text, fields, prefix);
        assert fields.Keys - remaining == fields.Keys;
      case _ =>
        flat := map[prefix := value];
        FlatPairsOfLeaf(text, value, prefix);
    }
    ItemsOfFlat(text, value, prefix, flat);
  }

  lemma ItemsOfFlat<K(!new)>(text: K -> string, v: Json<K>, prefix: string, flat: map<string, Json<K>>)
    requires flat.Keys == set p | p in FlatPairs(text, v, prefix) :: p.0
    requires forall t | t in flat :: (t, flat[t]) in FlatPairs(text, v, prefix)
    ensures CapturedShape(text, v) && Spelling(text) ==> flat.Items == FlatPairs(text, v, prefix)
  {
    if CapturedShape(text, v) && Spelling(text) {
      FlatPairsFunctional(text, v, prefix);
      forall p | p in FlatPairs(text, v, prefix) ensures p in flat.Items {
        assert p.0 in flat.Keys && (p.0, flat[p.0]) in FlatPairs(text, v, prefix);
        assert p == (p.0, flat[p.0]);
      }
      forall p | p in flat.Items ensures p in FlatPairs(text, v, prefix) {
        assert p == (p.0, flat[p.0]);
      }
    }
  }

  lemma FlatPairsOfLeaf<K>(text: K -> string, v: Json<K>, prefix: string)
    requires !v.JObj?
    ensures FlatPairs(text, v, prefix) == {(prefix, v)}
  {
    var leaf: (seq<K>, Json<K>) := ([], v);
    assert leaf in Leaves(v);
    assert (PathText(text, prefix, leaf.0), leaf.1) == (prefix, v);
  }

  lemma FlatPairsOfObject<K>(text: K -> string, fields: map<K, Json<K>>, prefix: string)
    ensures FlatPairs(text, JObj(fields), prefix) ==
            set k, p | k in fields && p in FlatPairs(text, fields[k], Child(prefix, text(k))) :: p
  {
    var v := JObj(fields);
    forall p | p in FlatPairs(text, v, prefix)
      ensures exists k | k in fields :: p in FlatPairs(text, fields[k], Child(prefix, text(k)))
    {
      var leaf :| leaf in Leaves(v) && p == (PathText(text, prefix, leaf.0), leaf.1);
      var k, below :| k in fields && below in Leaves(fields[k]) && leaf == ([k] + below.0, below.1);
      assert leaf.0[1..] == below.0;
      assert p == (PathText(text, Child(prefix, text(k)), below.0), below.1);
    }
    forall k, p | k in fields && p in FlatPairs(text, fields[k], Child(prefix, text(k)))
      ensures p in FlatPairs(text, v, prefix)
    {
      var below :| below in Leaves(fields[k]) && p == (PathText(text, Child(prefix, text(k)), below.0), below.1);
      var leaf := ([k] + below.0, below.1);
      assert leaf in Leaves(v);
      assert leaf.0[1..] == below.0;
      assert PathText(text, prefix, leaf.0) == p.0;
    }
  }

  // ------------------------------------------------------------------- the text determines the path

  /** The part of a path's text that follows a non-empty prefix. */
  function Tail<K>(text: K -> string, path: seq<K>): string {
    if path == [] then "" else "." + text(path[0]) + Tail(text, path[1..])
  }

  lemma {:induction false} PathTextTail<K>(text: K -> string, prefix: string, path: seq<K>)
    requires prefix != ""
    ensures PathText(text, prefix, path) == prefix + Tail(text, path)
    decreases path
  {
    if path == [] {
      assert prefix + "" == prefix;
    } else {
      var longer := Child(prefix, text(path[0]));
      PathTextTail(text, longer, path[1..]);
      assert longer + Tail(text, path[1..]) == prefix + ("." + text(path[0]) + Tail(text, path[1..]));
    }
  }

  predicate GoodPath<K>(text: K -> string, path: seq<K>) {
    forall i | 0 <= i < |path| :: DotFree(text(path[i]))
  }

  /** Where the first dot stands, or the length when there is none. */
  function FirstDot(t: string): nat {
    if t == "" || t[0] == '.' then 0 else 1 + FirstDot(t[1..])
  }

  lemma {:induction false} FirstDotAfterKey(k: string, r: string)
    requires '.' !in k && (r == "" || r[0] == '.')
    ensures FirstDot(k + r) == |k|
  {
    if k == "" {
      assert k + r == r;
    } else {
      assert (k + r)[1..] == k[1..] + r;
      FirstDotAfterKey(k[1..], r);
    }
  }

  /** A dot-free key is read back from a text as the part before the first dot. */
  lemma FirstKey(k1: string, r1: string, k2: string, r2: string)
    requires k1 + r1 == k2 + r2
    requires '.' !in k1 && '.' !in k2
    requires (r1 == "" || r1[0] == '.') && (r2 == "" || r2[0] == '.')
    ensures k1 == k2 && r1 == r2
  {
    FirstDotAfterKey(k1, r1);
    FirstDotAfterKey(k2, r2);
    var t := k1 + r1;
    assert t[..|k1|] == k1 && t[|k1|..] == r1 && t[..|k2|] == k2 && t[|k2|..] == r2;
  }

  lemma {:induction false} TailInjective<K(!new)>(text: K -> string, p1: seq<K>, p2: seq<K>)
    requires Spelling(text) && GoodPath(text, p1) && GoodPath(text, p2) && Tail(text, p1) == Tail(text, p2)
    ensures p1 == p2
  {
    if p1 == [] || p2 == [] {
      assert p1 == p2 == [];
    } else {
      var t1, t2 := text(p1[0]) + Tail(text, p1[1..]), text(p2[0]) + Tail(text, p2[1..]);
      assert Tail(text, p1) == "." + t1 && Tail(text, p2) == "." + t2;
      assert t1 == Tail(text, p1)[1..] && t2 == Tail(text, p2)[1..];
      FirstKey(text(p1[0]), Tail(text, p1[1..]), text(p2[0]), Tail(text, p2[1..]));
      TailInjective(text, p1[1..], p2[1..]);
      assert p1 == [p1[0]] + p1[1..] && p2 == [p2[0]] + p2[1..];
    }
  }

  lemma RootText<K>(text: K -> string, p: seq<K>)
    requires GoodPath(text, p)
    ensures PathText(text, "", p) == if p == [] then "" else text(p[0]) + Tail(text, p[1..])
    ensures PathText(text, "", p) == "" <==> p == []
  {
    if p != [] {
      PathTextTail(text, text(p[0]), p[1..]);
    }
  }

  lemma PathTextInjective<K(!new)>(text: K -> string, prefix: string, p1: seq<K>, p2: seq<K>)
    requires Spelling(text) && GoodPath(text, p1) && GoodPath(text, p2)
    requires PathText(text, prefix, p1) == PathText(text, prefix, p2)
    ensures p1 == p2
  {
    if prefix != "" {
      PathTextTail(text, prefix, p1);
      PathTextTail(text, prefix, p2);
      assert Tail(text, p1) == (prefix + Tail(text, p1))[|prefix|..];
      assert Tail(text, p2) == (prefix + Tail(text, p2))[|prefix|..];
      TailInjective(text, p1, p2);
    } else {
      RootText(text, p1);
      RootText(text, p2);
      if p1 != [] && p2 != [] {
        FirstKey(text(p1[0]), Tail(text, p1[1..]), text(p2[0]), Tail(text, p2[1..]));
        TailInjective(text, p1[1..], p2[1..]);
        assert p1 == [p1[0]] + p1[1..] && p2 == [p2[0]] + p2[1..];
      }
    }
  }

  lemma {:induction false} LeafPathsGood<K>(text: K -> string, v: Json<K>, leaf: (seq<K>, Json<K>))
    requires CapturedShape(text, v) && leaf in Leaves(v)
    ensures GoodPath(text, leaf.0) && !leaf.1.JObj?
    decreases v
  {
    match v
    case JObj(fields) =>
      var k, below :| k in fields && below in Leaves(fields[k]) && leaf == ([k] + below.0, below.1);
      LeafPathsGood(text, fields[k], below);
    case _ =>
  }

  /** On captured trees one text carries one leaf. */
  lemma FlatPairsFunctional<K(!new)>(text: K -> string, v: Json<K>, prefix: string)
    requires Spelling(text) && CapturedShape(text, v)
    ensures forall p, q | p in FlatPairs(text, v, prefix) && q in FlatPairs(text, v, prefix) && p.0 == q.0 :: p == q
  {
    forall p, q | p in FlatPairs(text, v, prefix) && q in FlatPairs(text, v, prefix) && p.0 == q.0 ensures p == q {
      var a :| a in Leaves(v) && p == (PathText(text, prefix, a.0), a.1);
      var b :| b in Leaves(v) && q == (PathText(text, prefix, b.0), b.1);
      LeafPathsGood(text, v, a);
      LeafPathsGood(text, v, b);
      PathTextInjective(text, prefix, a.0, b.0);
      LeavesFunctional(v, a, b);
    }
  }

  lemma {:induction false} LeavesFunctional<K>(v: Json<K>, a: (seq<K>, Json<K>), b: (seq<K>, Json<K>))
    requires a in Leaves(v) && b in Leaves(v) && a.0 == b.0
    ensures a == b
    decreases v
  {
    match v
    case JObj(fields) =>
      var k, below :| k in fields && below in Leaves(fields[k]) && a == ([k] + below.0, below.1);
      var l, under :| l in fields && under in Leaves(fields[l]) && b == ([l] + under.0, under.1);
      assert a.0[0] == k && b.0[0] == l && a.0[1..] == below.0 && b.0[1..] == under.0;
      LeavesFunctional(fields[k], below, under);
    case _ =>
  }

  // --------------------------------------------------------------- flattening forgets nothing

  lemma {:induction false} SomeLeaf<K>(text: K -> string, v: Json<K>) returns (leaf: (seq<K>, Json<K>))
    requires CapturedShape(text, v)
    ensures leaf in Leaves(v)
    decreases v
  {
    match v
    case JObj(fields) =>
      var k :| k in fields;
      var below := SomeLeaf(text, fields[k]);
      leaf := ([k] + below.0, below.1);
    case _ =>
      leaf := ([], v);
  }

  /** The leaves below one key. */
  lemma LeavesBelow<K>(fields: map<K, Json<K>>, k: K, below: (seq<K>, Json<K>))
    ensures ([k] + below.0, below.1) in Leaves(JObj(fields)) <==> k in fields && below in Leaves(fields[k])
  {
    var leaf := ([k] + below.0, below.1);
    if leaf in Leaves(JObj(fields)) {
      var l, under :| l in fields && under in Leaves(fields[l]) && leaf == ([l] + under.0, under.1);
      assert leaf.0[0] == k == l && leaf.0[1..] == below.0 == under.0;
    }
  }

  lemma LeafKept<K>(a: map<K, Json<K>>, b: map<K, Json<K>>, k: K, leaf: (seq<K>, Json<K>))
    requires Leaves(JObj(a)) <= Leaves(JObj(b)) && k in a && leaf in Leaves(a[k])
    ensures k in b && leaf in Leaves(b[k])
  {
    LeavesBelow(a, k, leaf);
    LeavesBelow(b, k, leaf);
  }

  lemma LeavesKeptBelow<K>(a: map<K, Json<K>>, b: map<K, Json<K>>, k: K)
    requires Leaves(JObj(a)) <= Leaves(JObj(b)) && k in a && k in b
    ensures Leaves(a[k]) <= Leaves(b[k])
  {
    forall leaf | leaf in Leaves(a[k]) ensures leaf in Leaves(b[k]) {
      LeafKept(a, b, k, leaf);
    }
  }

  lemma KeyKept<K>(text: K -> string, a: map<K, Json<K>>, b: map<K, Json<K>>, k: K)
    requires CapturedShape(text, JObj(a)) && k in a && Leaves(JObj(a)) == Leaves(JObj(b))
    ensures k in b && Leaves(a[k]) == Leaves(b[k])
  {
    var below := SomeLeaf(text, a[k]);
    LeafKept(a, b, k, below);
    LeavesKeptBelow(a, b, k);
    LeavesKeptBelow(b, a, k);
  }

  lemma {:induction false} LeavesInjective<K>(text: K -> string, v: Json<K>, w: Json<K>)
    requires CapturedShape(text, v) && CapturedShape(text, w) && Leaves(v) == Leaves(w)
    ensures v == w
    decreases v
  {
    if v.JObj? && w.JObj? {
      forall k | k in v.fields ensures k in w.fields && v.fields[k] == w.fields[k] {
        KeyKept(text, v.fields, w.fields, k);
        LeavesInjective(text, v.fields[k], w.fields[k]);
      }
      forall k | k in w.fields ensures k in v.fields {
        KeyKept(text, w.fields, v.fields, k);
      }
    } else if v.JObj? {
      LeafPathsGood(text, v, ([], w));
      assert false;
    } else if w.JObj? {
      LeafPathsGood(text, w, ([], v));
      assert false;
    } else {
      assert ([], v) in Leaves(w);
    }
  }

  lemma LeavesKept<K(!new)>(text: K -> string, v: Json<K>, w: Json<K>, prefix: string)
    requires Spelling(text) && CapturedShape(text, v) && CapturedShape(text, w)
    requires FlatPairs(text, v, prefix) <= FlatPairs(text, w, prefix)
    ensures Leaves(v) <= Leaves(w)
  {
    forall leaf | leaf in Leaves(v) ensures leaf in Leaves(w) {
      assert (PathText(text, prefix, leaf.0), leaf.1) in FlatPairs(text, v, prefix);
      var other :| other in Leaves(w) &&
        (PathText(text, prefix, other.0), other.1) == (PathText(text, prefix, leaf.0), leaf.1);
      LeafPathsGood(text, v, leaf);
      LeafPathsGood(text, w, other);
      PathTextInjective(text, prefix, leaf.0, other.0);
    }
  }

  /** `_flatten` is injective on captured trees. */
  lemma FlattenInjective<K(!new)>(text: K -> string, v: Json<K>, w: Json<K>, prefix: string)
    requires Spelling(text) && CapturedShape(text, v) && CapturedShape(text, w)
    ensures FlatPairs(text, v, prefix) == FlatPairs(text, w, prefix) <==> v == w
  {
    if FlatPairs(text, v, prefix) == FlatPairs(text, w, prefix) {
      LeavesKept(text, v, w, prefix);
      LeavesKept(text, w, v, prefix);
      LeavesInjective(text, v, w);
    }
  }

  function Self(s: string): string { s }

  lemma FlatPairsOfKey<K>(text: K -> string, prefix: string, k: K, v: Json<K>)
    ensures FlatPairs(text, JObj(map[k := v]), prefix) == FlatPairs(text, v, Child(prefix, text(k)))
  {
    var fields := map[k := v];
    FlatPairsOfObject(text, fields, prefix);
    forall p | p in FlatPairs(text, v, Child(prefix, text(k))) ensures p in FlatPairs(text, JObj(fields), prefix) {
      assert k in fields && fields[k] == v;
    }
  }

  /** Outside that shape the check is blind: a dotted key and an empty object both vanish into an
      equal flattening. */
  lemma ShapeIsNeeded()
    ensures var nested := JObj(map["a" := JObj(map["b" := JNull])]);
            var dotted := JObj(map["a.b" := JNull]);
            nested != dotted && FlatPairs(Self, nested, "") == FlatPairs(Self, dotted, "")
    ensures var bare := JObj(map["a" := JNull]);
            var hollow := JObj(map["a" := JNull, "c" := JObj(map[])]);
            bare != hollow && FlatPairs(Self, bare, "") == FlatPairs(Self, hollow, "")
  {
    var inner: map<string, Json<string>> := map["b" := JNull];
    assert Child("a", "b") == "a.b";
    FlatPairsOfKey(Self, "", "a", JObj(inner));
    FlatPairsOfKey(Self, "a", "b", JNull);
    FlatPairsOfKey(Self, "", "a.b", JNull);
    var nested, dotted: map<string, Json<string>> := map["a" := JObj(inner)], map["a.b" := JNull];
    assert "a" in nested && "a" !in dotted by {
      assert |"a"| != |"a.b"|;
    }
    var bare: map<string, Json<string>>, hollow := map["a" := JNull], map["a" := JNull, "c" := JObj(map[])];
    FlatPairsOfObject(Self, bare, "");
    FlatPairsOfObject(Self, hollow, "");
    FlatPairsOfObject(Self, map[], "c");
    assert "c" in hollow && "c" !in bare;
  }
}
