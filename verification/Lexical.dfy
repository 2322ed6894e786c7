/** The sparse lexical vectors: the vocabulary and weights of a corpus, the encoding of documents and
    queries, and the metadata an index is stored as (rag/retrieval/lexical.py). Texts are given as
    their tokens; `ln` is a parameter of which only `ln x >= 0` for `x >= 1` is used. */
module Lexical {
  import opened Domain
  import opened Ordering

  type Weights = map<string, real>

  datatype LexicalIndex = LexicalIndex(vocabulary: map<string, int>, idf: Weights, averageLength: real, documentCount: int)

  // ------------------------------------------------------------------------------- terms

  ghost predicate NoRepeats(terms: seq<string>) {
    forall i, j | 0 <= i < j < |terms| :: terms[i] != terms[j]
  }

  /** The distinct tokens. */
  function Once(tokens: seq<string>): (terms: seq<string>)
    ensures NoRepeats(terms) && forall t :: t in terms <==> t in tokens
  {
    if tokens == [] then []
    else
      var front, last := Once(tokens[..|tokens| - 1]), tokens[|tokens| - 1];
      if last in front then front else front + [last]
  }

  /** `sorted(counts)`. */
  function Terms(tokens: seq<string>): seq<string> {
    Sorted(Once(tokens))
  }

  predicate Before(a: string, b: string) {
    a != b && StrLe(a, b)
  }

  ghost predicate Ascending(terms: seq<string>) {
    forall i, j | 0 <= i < j < |terms| :: Before(terms[i], terms[j])
  }

  lemma TermsExact(tokens: seq<string>)
    ensures Ascending(Terms(tokens))
    ensures forall t :: t in Terms(tokens) <==> t in tokens
  {
    var once, terms := Once(tokens), Terms(tokens);
    SortBySorted(OwnKey, once);
    SortByMultiset(OwnKey, once);
    forall t ensures t in terms <==> t in tokens {
      assert t in terms <==> t in multiset(terms);
      assert t in once <==> t in multiset(once);
    }
    forall i, j | 0 <= i < j < |terms| ensures Before(terms[i], terms[j]) {
      assert StrLe(OwnKey(terms[i]), OwnKey(terms[j]));
      if terms[i] == terms[j] {
        TwiceCounted(terms, i, j);
        OnceCounted(once, terms[i]);
      }
    }
  }

  lemma TwiceCounted(s: seq<string>, i: nat, j: nat)
    requires i < j < |s| && s[i] == s[j]
    ensures multiset(s)[s[i]] >= 2
  {
    assert s == s[..j] + [s[j]] + s[j + 1..];
    assert s[i] == s[..j][i] && s[i] in multiset(s[..j]);
  }

  lemma {:induction false} OnceCounted(s: seq<string>, t: string)
    requires NoRepeats(s)
    ensures multiset(s)[t] <= 1
  {
    if s != [] {
      var front, last := s[..|s| - 1], s[|s| - 1];
      OnceCounted(front, t);
      assert s == front + [last];
      if last == t {
        assert t !in front;
      }
    }
  }

  // ------------------------------------------------------------------------------- building

  function AllTokens(documents: seq<seq<string>>): seq<string> {
    if documents == [] then [] else AllTokens(documents[..|documents| - 1]) + documents[|documents| - 1]
  }

  /** How many documents have the token. */
  function Frequency(documents: seq<seq<string>>, t: string): nat {
    if documents == [] then 0
    else
      var before := Frequency(documents[..|documents| - 1], t);
      if t in documents[|documents| - 1] then before + 1 else before
  }

  lemma {:induction false} FrequencyExact(documents: seq<seq<string>>, t: string)
    ensures Frequency(documents, t) <= |documents|
    ensures Frequency(documents, t) > 0 <==> t in AllTokens(documents)
  {
    if documents != [] {
      FrequencyExact(documents[..|documents| - 1], t);
    }
  }

  function Place(terms: seq<string>, t: string): (i: nat)
    requires t in terms
    ensures i < |terms| && terms[i] == t
  {
    if terms[0] == t then 0 else Place(terms[1..], t) + 1
  }

  /** `build_lexical_index`. */
  function BuildLexicalIndex(documents: seq<seq<string>>, ln: real -> real): Option<LexicalIndex> {
    if documents == [] then None
    else
      var terms, n := Terms(AllTokens(documents)), |documents|;
      Some(LexicalIndex(map t | t in terms :: Place(terms, t) + 1,
                        map t | t in terms :: ln((n + 1) as real / (Frequency(documents, t) + 1) as real) + 1.0,
                        |AllTokens(documents)| as real / n as real, n))
  }

  /** Indices are positive and grow with the tokens, and every weight is positive. */
  ghost predicate WellBuilt(index: LexicalIndex) {
    && index.documentCount >= 1 && index.vocabulary.Keys == index.idf.Keys
    && (forall t | t in index.vocabulary :: index.vocabulary[t] >= 1)
    && (forall t | t in index.idf :: index.idf[t] > 0.0)
    && forall a, b | a in index.vocabulary && b in index.vocabulary && Before(a, b) :: index.vocabulary[a] < index.vocabulary[b]
  }

  lemma ShareAtLeastOne(n: nat, f: nat)
    requires f <= n
    ensures (n + 1) as real / (f + 1) as real >= 1.0
  {
    var whole, part := (n + 1) as real, (f + 1) as real;
    QuotientAtLeastOne(whole / part, part, whole);
  }

  lemma QuotientAtLeastOne(q: real, part: real, whole: real)
    requires part > 0.0 && q * part == whole && whole >= part
    ensures q >= 1.0
  {
    assert (q - 1.0) * part == whole - part;
  }

  lemma PlaceGrows(terms: seq<string>, a: string, b: string)
    requires Ascending(terms) && a in terms && b in terms && Before(a, b)
    ensures Place(terms, a) < Place(terms, b)
  {
    var i, j := Place(terms, a), Place(terms, b);
    if j < i {
      assert Before(terms[j], terms[i]);
      StrLeAntisymmetric(a, b);
    }
  }

  /** The index of a corpus knows exactly its tokens, numbers them 1 to n in their order, and gives
      each a weight of at least one. */
  lemma BuiltExact(documents: seq<seq<string>>, ln: real -> real)
    requires documents != [] && forall x :: x >= 1.0 ==> ln(x) >= 0.0
    ensures var index := BuildLexicalIndex(documents, ln).value;
            && WellBuilt(index)
            && (forall t :: t in index.vocabulary <==> Frequency(documents, t) > 0)
            && (forall t | t in index.idf :: index.idf[t] >= 1.0)
            && (forall t | t in index.vocabulary :: index.vocabulary[t] <= |index.vocabulary|)
  {
    var terms, index := Terms(AllTokens(documents)), BuildLexicalIndex(documents, ln).value;
    TermsExact(AllTokens(documents));
    forall t ensures t in index.vocabulary <==> Frequency(documents, t) > 0 {
      FrequencyExact(documents, t);
    }
    forall t | t in index.idf ensures index.idf[t] >= 1.0 {
      FrequencyExact(documents, t);
      ShareAtLeastOne(|documents|, Frequency(documents, t));
    }
    forall a, b | a in index.vocabulary && b in index.vocabulary && Before(a, b) ensures index.vocabulary[a] < index.vocabulary[b] {
      PlaceGrows(terms, a, b);
    }
    AscendingCount(terms);
    assert index.vocabulary.Keys == TermSet(terms);
  }

  function TermSet(terms: seq<string>): set<string> {
    set t | t in terms
  }

  lemma {:induction false} AscendingCount(terms: seq<string>)
    requires Ascending(terms)
    ensures |TermSet(terms)| == |terms|
  {
    if terms == [] {
      assert TermSet(terms) == {};
    } else {
      var front, last := terms[..|terms| - 1], terms[|terms| - 1];
      AscendingCount(front);
      assert forall i | 0 <= i < |front| :: Before(terms[i], last);
      assert last !in TermSet(front);
      assert TermSet(terms) == TermSet(front) + {last};
    }
  }

  // ------------------------------------------------------------------------------- encoding

  function Count(tokens: seq<string>, t: string): nat {
    multiset(tokens)[t]
  }

  predicate Knows(index: LexicalIndex, t: string) {
    t in index.vocabulary && t in index.idf
  }

  function Denominator(index: LexicalIndex, tokens: seq<string>): real {
    var length := if |tokens| >= 1 then |tokens| else 1;
    0.25 + 0.75 * length as real / (if index.averageLength >= 1.0 then index.averageLength else 1.0)
  }

  /** The weight of a token in a document; zero when the document or the index lacks it. */
  function DocumentWeight(index: LexicalIndex, tokens: seq<string>, t: string): real {
    if Knows(index, t) && Denominator(index, tokens) > 0.0 then Scaled(Count(tokens, t), index.idf[t], Denominator(index, tokens)) else 0.0
  }

  lemma DenominatorPositive(index: LexicalIndex, tokens: seq<string>)
    ensures Denominator(index, tokens) >= 0.25
  {
    var length := if |tokens| >= 1 then |tokens| else 1;
    var average := if index.averageLength >= 1.0 then index.averageLength else 1.0;
    var q := 0.75 * length as real / average;
    assert q * average == 0.75 * length as real;
    QuotientPositive(q, average, 0.75 * length as real);
  }

  lemma QuotientPositive(q: real, part: real, whole: real)
    requires part > 0.0 && whole >= 0.0 && q * part == whole
    ensures q >= 0.0
  {
  }

  function Repeated(count: nat, idf: real): real {
    count as real * idf
  }

  function QueryWeight(index: LexicalIndex, tokens: seq<string>, t: string): real {
    if Knows(index, t) then Repeated(Count(tokens, t), index.idf[t]) else 0.0
  }

  function DocumentWeights(index: LexicalIndex, tokens: seq<string>): string -> real {
    t => DocumentWeight(index, tokens, t)
  }

  function QueryWeights(index: LexicalIndex, tokens: seq<string>): string -> real {
    t => QueryWeight(index, tokens, t)
  }

  /** The terms an encoding keeps. */
  function KnownTerms(index: LexicalIndex, terms: seq<string>): seq<string> {
    if terms == [] then []
    else
      var front := KnownTerms(index, terms[..|terms| - 1]);
      if Knows(index, terms[|terms| - 1]) then front + [terms[|terms| - 1]] else front
  }

  lemma {:induction false} KnownExact(index: LexicalIndex, terms: seq<string>)
    requires Ascending(terms)
    ensures Ascending(KnownTerms(index, terms))
    ensures forall t :: t in KnownTerms(index, terms) <==> t in terms && Knows(index, t)
  {
    if terms != [] {
      var front, last := terms[..|terms| - 1], terms[|terms| - 1];
      KnownExact(index, front);
      assert terms == front + [last];
      var kept := KnownTerms(index, front);
      forall i | 0 <= i < |kept| ensures Before(kept[i], last) {
        assert kept[i] in front;
      }
    }
  }

  function Indices(index: LexicalIndex, terms: seq<string>): seq<int> {
    seq(|terms|, i requires 0 <= i < |terms| => if Knows(index, terms[i]) then index.vocabulary[terms[i]] else 0)
  }

  function Values(terms: seq<string>, weight: string -> real): seq<real> {
    seq(|terms|, i requires 0 <= i < |terms| => weight(terms[i]))
  }

  /** `counts[token] * idf / denominator`. */
  function Scaled(count: nat, idf: real, denominator: real): real
    requires denominator > 0.0
  {
    count as real * idf / denominator
  }

  /** `encode`. */
  method Encode(index: LexicalIndex, tokens: seq<string>) returns (indices: seq<int>, values: seq<real>)
    ensures indices == Indices(index, KnownTerms(index, Terms(tokens)))
    ensures values == Values(KnownTerms(index, Terms(tokens)), DocumentWeights(index, tokens))
  {
    indices, values := [], [];
    var terms, denominator := Terms(tokens), Denominator(index, tokens);
    DenominatorPositive(index, tokens);
    ghost var weight := DocumentWeights(index, tokens);
    for n := 0 to |terms|
      invariant indices == Indices(index, KnownTerms(index, terms[..n]))
      invariant values == Values(KnownTerms(index, terms[..n]), weight)
    {
      var t := terms[n];
      KnownNext(index, terms, n);
      if Knows(index, t) {
        OneMoreEntry(index, KnownTerms(index, terms[..n]), t, weight);
        indices := indices + [index.vocabulary[t]];
        var value := Scaled(Count(tokens, t), index.idf[t], denominator);
        assert value == weight(t);
        values := values + [value];
      }
    }
    assert terms[..|terms|] == terms;
  }

  lemma KnownNext(index: LexicalIndex, terms: seq<string>, n: nat)
    requires n < |terms|
    ensures KnownTerms(index, terms[..n + 1])
         == if Knows(index, terms[n]) then KnownTerms(index, terms[..n]) + [terms[n]] else KnownTerms(index, terms[..n])
  {
    assert terms[..n + 1][..n] == terms[..n];
  }

  lemma OneMoreEntry(index: LexicalIndex, terms: seq<string>, t: string, weight: string -> real)
    requires Knows(index, t)
    ensures Indices(index, terms + [t]) == Indices(index, terms) + [index.vocabulary[t]]
    ensures Values(terms + [t], weight) == Values(terms, weight) + [weight(t)]
  {
  }

  /** `encode_query`. */
  method EncodeQuery(index: LexicalIndex, tokens: seq<string>) returns (indices: seq<int>, values: seq<real>)
    ensures indices == Indices(index, KnownTerms(index, Terms(tokens)))
    ensures values == Values(KnownTerms(index, Terms(tokens)), QueryWeights(index, tokens))
  {
    indices, values := [], [];
    var terms := Terms(tokens);
    ghost var weight := QueryWeights(index, tokens);
    for n := 0 to |terms|
      invariant indices == Indices(index, KnownTerms(index, terms[..n]))
      invariant values == Values(KnownTerms(index, terms[..n]), weight)
    {
      var t := terms[n];
      KnownNext(index, terms, n);
      if Knows(index, t) {
        OneMoreEntry(index, KnownTerms(index, terms[..n]), t, weight);
        indices := indices + [index.vocabulary[t]];
        var value := Repeated(Count(tokens, t), index.idf[t]);
        assert value == weight(t);
        values := values + [value];
      }
    }
    assert terms[..|terms|] == terms;
  }

  /** The indices of an encoding are positive and strictly increasing, as sparse vectors require. */
  lemma IndicesIncrease(index: LexicalIndex, tokens: seq<string>)
    requires WellBuilt(index)
    ensures var indices := Indices(index, KnownTerms(index, Terms(tokens)));
            && (forall i | 0 <= i < |indices| :: indices[i] >= 1)
            && (forall i, j | 0 <= i < j < |indices| :: indices[i] < indices[j])
  {
    TermsExact(tokens);
    KnownExact(index, Terms(tokens));
    var terms := KnownTerms(index, Terms(tokens));
    var indices := Indices(index, terms);
    forall i | 0 <= i < |indices| ensures indices[i] >= 1 {
      assert terms[i] in terms;
    }
    forall i, j | 0 <= i < j < |indices| ensures indices[i] < indices[j] {
      assert terms[i] in terms && terms[j] in terms && Before(terms[i], terms[j]);
    }
  }

  // ------------------------------------------------------------------------------- the dot product

  /** The value a sparse vector has at an index. */
  function At(indices: seq<int>, values: seq<real>, i: int): real
    requires |indices| == |values|
  {
    if indices == [] then 0.0
    else
      var rest := At(indices[1..], values[1..], i);
      if indices[0] == i then values[0] + rest else rest
  }

  function Total(values: seq<real>): real {
    if values == [] then 0.0 else Total(values[..|values| - 1]) + values[|values| - 1]
  }

  /** The dot product of two sparse vectors. */
  function Dot(times: (real, real) -> real, indices: seq<int>, values: seq<real>, others: seq<int>, weights: seq<real>): real
    requires |indices| == |values| && |others| == |weights|
  {
    Total(DotProducts(times, indices, values, others, weights))
  }

  function DotProducts(times: (real, real) -> real, indices: seq<int>, values: seq<real>, others: seq<int>, weights: seq<real>): seq<real>
    requires |indices| == |values| && |others| == |weights|
  {
    seq(|indices|, k requires 0 <= k < |indices| => times(values[k], At(others, weights, indices[k])))
  }

  /** What one occurrence of a token in the query adds to the score of a document. */
  function Gain(index: LexicalIndex, document: seq<string>, t: string): real {
    if Knows(index, t) then index.idf[t] * DocumentWeight(index, document, t) else 0.0
  }

  function Gains(index: LexicalIndex, document: seq<string>): string -> real {
    t => Gain(index, document, t)
  }

  function Multiply(): (real, real) -> real {
    (x, y) => x * y
  }

  function Product(times: (real, real) -> real, f: string -> real, g: string -> real): string -> real {
    t => times(f(t), g(t))
  }

  function Sum(tokens: seq<string>, f: string -> real): real {
    if tokens == [] then 0.0 else Sum(tokens[..|tokens| - 1], f) + f(tokens[|tokens| - 1])
  }

  /** A score without vectors: every token of the query, each time it occurs, adds the product of its
      weight and of its weight in the document. */
  function DirectScore(index: LexicalIndex, query: seq<string>, document: seq<string>): real {
    Sum(query, Gains(index, document))
  }

  lemma {:induction false} AtExact(index: LexicalIndex, terms: seq<string>, weight: string -> real, t: string)
    requires WellBuilt(index) && Ascending(terms) && Knows(index, t)
    requires forall s | s in terms :: Knows(index, s)
    ensures At(Indices(index, terms), Values(terms, weight), index.vocabulary[t]) == if t in terms then weight(t) else 0.0
  {
    if terms != [] {
      var head, rest := terms[0], terms[1..];
      assert Ascending(rest) by {
        assert forall i | 0 <= i < |rest| :: rest[i] == terms[i + 1];
      }
      assert Indices(index, terms)[1..] == Indices(index, rest);
      assert Values(terms, weight)[1..] == Values(rest, weight);
      AtExact(index, rest, weight, t);
      assert head in terms;
      SameIndex(index, head, t);
      assert head !in rest by {
        assert forall i | 0 <= i < |rest| :: rest[i] == terms[i + 1] && Before(terms[0], rest[i]);
      }
    }
  }

  lemma SameIndex(index: LexicalIndex, a: string, b: string)
    requires WellBuilt(index) && Knows(index, a) && Knows(index, b)
    ensures index.vocabulary[a] == index.vocabulary[b] <==> a == b
  {
    StrLeTotal(a, b);
    if a != b {
      assert Before(a, b) || Before(b, a);
    }
  }

  lemma {:induction false} TotalValues(terms: seq<string>, h: string -> real)
    ensures Total(Values(terms, h)) == Sum(terms, h)
  {
    if terms != [] {
      var front := terms[..|terms| - 1];
      TotalValues(front, h);
      assert Values(terms, h)[..|terms| - 1] == Values(front, h);
    }
  }

  /** The other side weighs only its own terms, all known. */
  ghost predicate Weighs(index: LexicalIndex, others: seq<string>, g: string -> real) {
    && Ascending(others) && (forall s | s in others :: Knows(index, s))
    && forall s | s !in others :: g(s) == 0.0
  }

  lemma DotEntry(times: (real, real) -> real, index: LexicalIndex, terms: seq<string>, f: string -> real, others: seq<string>, g: string -> real, k: nat)
    requires WellBuilt(index) && Weighs(index, others, g) && k < |terms| && Knows(index, terms[k])
    ensures times(Values(terms, f)[k], At(Indices(index, others), Values(others, g), Indices(index, terms)[k])) == Product(times, f, g)(terms[k])
  {
    AtExact(index, others, g, terms[k]);
    assert At(Indices(index, others), Values(others, g), Indices(index, terms)[k]) == g(terms[k]);
  }

  /** The dot product is a sum over the terms of one side. */
  lemma DotIsSum(times: (real, real) -> real, index: LexicalIndex, terms: seq<string>, f: string -> real, others: seq<string>, g: string -> real)
    requires WellBuilt(index) && Weighs(index, others, g)
    requires forall s | s in terms :: Knows(index, s)
    ensures Dot(times, Indices(index, terms), Values(terms, f), Indices(index, others), Values(others, g)) == Sum(terms, Product(times, f, g))
  {
    var products := DotProducts(times, Indices(index, terms), Values(terms, f), Indices(index, others), Values(others, g));
    forall k | 0 <= k < |terms| ensures products[k] == Values(terms, Product(times, f, g))[k] {
      assert terms[k] in terms;
      DotEntry(times, index, terms, f, others, g, k);
    }
    assert products == Values(terms, Product(times, f, g));
    TotalValues(terms, Product(times, f, g));
  }

  /** Adding `extra` at one token adds it to the sum once, if the token is there. */
  lemma {:induction false} SumBump(terms: seq<string>, c: string -> real, more: string -> real, token: string, extra: real)
    requires NoRepeats(terms)
    requires forall t :: more(t) == if t == token then c(t) + extra else c(t)
    ensures Sum(terms, more) == if token in terms then Sum(terms, c) + extra else Sum(terms, c)
  {
    if terms != [] {
      var front, last := terms[..|terms| - 1], terms[|terms| - 1];
      assert terms == front + [last];
      assert last !in front;
      SumBump(front, c, more, token, extra);
    }
  }

  lemma {:induction false} SumZero(terms: seq<string>, c: string -> real)
    requires forall t :: c(t) == 0.0
    ensures Sum(terms, c) == 0.0
  {
    if terms != [] {
      SumZero(terms[..|terms| - 1], c);
    }
  }

  /** Each term times the number of its occurrences. */
  function Counted(tokens: seq<string>, g: string -> real): string -> real {
    t => Count(tokens, t) as real * g(t)
  }

  lemma CountedNext(tokens: seq<string>, token: string, g: string -> real, t: string)
    ensures Counted(tokens + [token], g)(t) == if t == token then Counted(tokens, g)(t) + g(token) else Counted(tokens, g)(t)
  {
    if t == token {
      assert Count(tokens + [token], t) == Count(tokens, t) + 1;
    } else {
      assert Count(tokens + [token], t) == Count(tokens, t);
    }
  }

  /** Counting the occurrences of distinct terms is the same as taking every token as it comes. */
  lemma {:induction false} CountedIsSum(terms: seq<string>, tokens: seq<string>, g: string -> real)
    requires NoRepeats(terms) && forall t | t in tokens :: t in terms
    ensures Sum(terms, Counted(tokens, g)) == Sum(tokens, g)
  {
    if tokens == [] {
      forall t ensures Counted(tokens, g)(t) == 0.0 {
        assert Count(tokens, t) == 0;
      }
      SumZero(terms, Counted(tokens, g));
    } else {
      var front, last := tokens[..|tokens| - 1], tokens[|tokens| - 1];
      assert tokens == front + [last];
      forall t ensures Counted(tokens, g)(t) == if t == last then Counted(front, g)(t) + g(last) else Counted(front, g)(t) {
        CountedNext(front, last, g, t);
      }
      SumBump(terms, Counted(front, g), Counted(tokens, g), last, g(last));
      CountedIsSum(terms, front, g);
    }
  }

  /** Unknown terms add nothing. */
  lemma {:induction false} SumKnown(index: LexicalIndex, terms: seq<string>, h: string -> real, c: string -> real)
    requires forall t :: c(t) == if Knows(index, t) then h(t) else 0.0
    ensures Sum(KnownTerms(index, terms), h) == Sum(terms, c)
  {
    if terms != [] {
      var front, last := terms[..|terms| - 1], terms[|terms| - 1];
      SumKnown(index, front, h, c);
      assert (KnownTerms(index, front) + [last])[..|KnownTerms(index, front)|] == KnownTerms(index, front);
    }
  }

  lemma Reassociate(n: real, idf: real, w: real)
    ensures (n * idf) * w == n * (idf * w)
  {
  }

  /** What the weights of a term multiply to. */
  lemma TermProduct(index: LexicalIndex, query: seq<string>, document: seq<string>, t: string)
    ensures Count(query, t) as real * Gain(index, document, t)
         == if Knows(index, t) then QueryWeight(index, query, t) * DocumentWeight(index, document, t) else 0.0
  {
    if Knows(index, t) {
      Reassociate(Count(query, t) as real, index.idf[t], DocumentWeight(index, document, t));
    }
  }

  lemma AscendingHasNoRepeats(terms: seq<string>)
    requires Ascending(terms)
    ensures NoRepeats(terms)
  {
    forall i, j | 0 <= i < j < |terms| ensures terms[i] != terms[j] {
      assert Before(terms[i], terms[j]);
    }
  }

  lemma AbsentWeighsNothing(index: LexicalIndex, tokens: seq<string>, t: string)
    requires !(t in tokens && Knows(index, t))
    ensures DocumentWeight(index, tokens, t) == 0.0
  {
    if t !in tokens {
      assert Count(tokens, t) == 0;
    }
  }

  lemma DocumentWeighs(index: LexicalIndex, document: seq<string>)
    ensures Weighs(index, KnownTerms(index, Terms(document)), DocumentWeights(index, document))
  {
    TermsExact(document);
    KnownExact(index, Terms(document));
    var d, w := KnownTerms(index, Terms(document)), DocumentWeights(index, document);
    forall s | s !in d ensures w(s) == 0.0 {
      AbsentWeighsNothing(index, document, s);
    }
  }

  lemma QueryCounts(index: LexicalIndex, query: seq<string>, document: seq<string>)
    ensures Sum(KnownTerms(index, Terms(query)), Product(Multiply(), QueryWeights(index, query), DocumentWeights(index, document)))
         == DirectScore(index, query, document)
  {
    var h := Product(Multiply(), QueryWeights(index, query), DocumentWeights(index, document));
    var g := Gains(index, document);
    forall t ensures Counted(query, g)(t) == if Knows(index, t) then h(t) else 0.0 {
      TermProduct(index, query, document, t);
    }
    SumKnown(index, Terms(query), h, Counted(query, g));
    TermsExact(query);
    AscendingHasNoRepeats(Terms(query));
    CountedIsSum(Terms(query), query, g);
  }

  /** The sparse dot product of an encoded query and an encoded document. */
  function SparseScore(index: LexicalIndex, query: seq<string>, document: seq<string>): real {
    var q, d := KnownTerms(index, Terms(query)), KnownTerms(index, Terms(document));
    Dot(Multiply(), Indices(index, q), Values(q, QueryWeights(index, query)),
        Indices(index, d), Values(d, DocumentWeights(index, document)))
  }

  /** It is the direct score, over every token of the query as it comes. */
  lemma SparseScoreExact(index: LexicalIndex, query: seq<string>, document: seq<string>)
    requires WellBuilt(index)
    ensures SparseScore(index, query, document) == DirectScore(index, query, document)
  {
    TermsExact(query);
    KnownExact(index, Terms(query));
    DocumentWeighs(index, document);
    var f, w := QueryWeights(index, query), DocumentWeights(index, document);
    var q, d := KnownTerms(index, Terms(query)), KnownTerms(index, Terms(document));
    DotIsSum(Multiply(), index, q, f, d, w);
    QueryCounts(index, query, document);
  }

  // ------------------------------------------------------------------------------- metadata

  /** A stored value; Python counts booleans as integers. */
  datatype Value = VInt(n: int) | VReal(x: real) | VOther

  datatype Metadata =
    | NotADict
    | Metadata(version: Value, vocabulary: Option<map<string, Value>>, idf: Option<map<string, Value>>,
               averageLength: Value, documentCount: Value)

  predicate IsNumber(v: Value) { v.VInt? || v.VReal? }

  function Number(v: Value): real {
    match v
    case VInt(n) => n as real
    case VReal(x) => x
    case VOther => 0.0
  }

  /** `to_metadata`. */
  function ToMetadata(index: LexicalIndex, version: int): Metadata {
    Metadata(VInt(version), Some(map t | t in index.vocabulary :: VInt(index.vocabulary[t])),
             Some(map t | t in index.idf :: VReal(index.idf[t])), VReal(index.averageLength), VInt(index.documentCount))
  }

  predicate EntryReads(m: Metadata, t: string)
    requires m.Metadata? && m.vocabulary.Some? && m.idf.Some? && t in m.vocabulary.value
  {
    && m.vocabulary.value[t].VInt? && m.vocabulary.value[t].n >= 1
    && t in m.idf.value && IsNumber(m.idf.value[t]) && Number(m.idf.value[t]) > 0.0
  }

  predicate HeaderReads(m: Metadata, version: int) {
    && m.Metadata? && IsNumber(m.version) && Number(m.version) == version as real
    && m.vocabulary.Some? && m.idf.Some? && IsNumber(m.averageLength)
    && m.documentCount.VInt? && m.documentCount.n >= 1
  }

  ghost predicate Reads(m: Metadata, version: int) {
    HeaderReads(m, version) && forall t | t in m.vocabulary.value :: EntryReads(m, t)
  }

  /** `from_metadata`: an index is read back exactly from well-formed metadata; weights of tokens
      outside the vocabulary are dropped. `None` stands for the `ValueError`s. */
  method FromMetadata(m: Metadata, version: int) returns (index: Option<LexicalIndex>)
    ensures index.Some? <==> Reads(m, version)
    ensures index.Some? ==>
              && index.value.vocabulary.Keys == index.value.idf.Keys == m.vocabulary.value.Keys
              && (forall t | t in m.vocabulary.value ::
                    VInt(index.value.vocabulary[t]) == m.vocabulary.value[t] && index.value.idf[t] == Number(m.idf.value[t]))
              && index.value.averageLength == Number(m.averageLength) && index.value.documentCount == m.documentCount.n
  {
    if !HeaderReads(m, version) {
      return None;
    }
    var vocabulary, idf := map[], map[];
    var remaining := m.vocabulary.value;
    while remaining.Keys != {}
      invariant vocabulary.Keys == idf.Keys == m.vocabulary.value.Keys - remaining.Keys
      invariant remaining.Keys <= m.vocabulary.value.Keys
      invariant forall t | t in vocabulary :: EntryReads(m, t)
      invariant forall t | t in vocabulary :: VInt(vocabulary[t]) == m.vocabulary.value[t] && idf[t] == Number(m.idf.value[t])
      decreases |remaining.Keys|
    {
      var t :| t in remaining.Keys;
      if !EntryReads(m, t) {
        return None;
      }
      vocabulary := vocabulary[t := m.vocabulary.value[t].n];
      idf := idf[t := Number(m.idf.value[t])];
      assert (remaining - {t}).Keys == remaining.Keys - {t};
      remaining := remaining - {t};
    }
    index := Some(LexicalIndex(vocabulary, idf, Number(m.averageLength), m.documentCount.n));
  }

  /** What is read back is what was written, exactly for an index of at least one document whose indices
      and weights are positive and belong to the same tokens; a built index is one. */
  method RestoreIndex(index: LexicalIndex, version: int) returns (restored: Option<LexicalIndex>)
    ensures WellBuilt(index) ==> restored == Some(index)
    ensures restored == Some(index) <==>
              && index.documentCount >= 1 && index.vocabulary.Keys == index.idf.Keys
              && (forall t | t in index.vocabulary :: index.vocabulary[t] >= 1 && index.idf[t] > 0.0)
  {
    var m := ToMetadata(index, version);
    restored := FromMetadata(m, version);
    if restored.Some? {
      assert restored.value.vocabulary == index.vocabulary by {
        assert forall t | t in index.vocabulary :: VInt(restored.value.vocabulary[t]) == m.vocabulary.value[t];
      }
      assert forall t | t in index.vocabulary :: EntryReads(m, t);
      if index.vocabulary.Keys == index.idf.Keys {
        assert restored.value.idf == index.idf;
      }
    } else if WellBuilt(index) {
      assert forall t | t in m.vocabulary.value :: EntryReads(m, t);
    }
  }
}
