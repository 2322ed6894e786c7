/** The last gate before a knowledge answer reaches a customer: every claim must be found in a quoted
    excerpt, and every excerpt in a retrieved chunk (rag/answer_generator.py). */
module Grounding {
  import opened Domain

  datatype Chunk = Chunk(id: string, documentId: string, content: string)

  datatype Citation = Citation(id: string, chunkId: string, documentId: string, excerpt: string)

  datatype Answer = Answer(text: string, claims: seq<string>, unsupported: seq<string>, citations: seq<Citation>)

  datatype Reason =
    | CitationNotInRetrievedEvidence
    | CitationExcerptMismatch
    | AnswerEvidenceMismatch
    | EmptyEvidence
    | CitationsMissing
    | CoverageBelowThreshold
    | UnsupportedClaimsPresent

  datatype Validation = Validation(coverage: real, accepted: bool, unsupportedCount: nat, reasons: seq<Reason>)

  /** The text functions of the validator: `_normalize` and the `[...]` markers of a passage. */
  datatype Reading = Reading(normalize: string -> string, markers: string -> set<string>)

  // ------------------------------------------------------------------------------- text

  predicate OccursAt(needle: string, hay: string, i: int) {
    0 <= i <= |hay| - |needle| && hay[i..i + |needle|] == needle
  }

  /** `needle in hay`. */
  ghost predicate Occurs(needle: string, hay: string) {
    exists i :: OccursAt(needle, hay, i)
  }

  /** `hay.find(needle)`. */
  method Find(hay: string, needle: string) returns (at: int)
    ensures at == -1 <==> !Occurs(needle, hay)
    ensures at != -1 ==> OccursAt(needle, hay, at) && forall i | OccursAt(needle, hay, i) :: at <= i
  {
    at := 0;
    while at + |needle| <= |hay|
      invariant 0 <= at
      invariant forall i | OccursAt(needle, hay, i) :: at <= i
    {
      if hay[at..at + |needle|] == needle {
        assert OccursAt(needle, hay, at);
        return;
      }
      at := at + 1;
    }
    at := -1;
  }

  method Contains(needle: string, hay: string) returns (found: bool)
    ensures found <==> Occurs(needle, hay)
  {
    var at := Find(hay, needle);
    found := at != -1;
  }

  lemma OccursWithin(a: string, b: string, c: string)
    requires Occurs(a, b) && Occurs(b, c)
    ensures Occurs(a, c)
  {
    var i :| OccursAt(a, b, i);
    var j :| OccursAt(b, c, j);
    assert c[j..j + |b|] == b && b[i..i + |a|] == a;
    forall k | 0 <= k < |a| ensures a[k] == c[j + i + k] {
      assert a[k] == b[i + k] == c[j + (i + k)];
    }
    assert OccursAt(a, c, j + i);
  }

  // ------------------------------------------------------------------------------- what is checked

  /** The chunk the validator looks a citation up in: the last one of that id. */
  function ChunkOf(evidence: seq<Chunk>, id: string): (chunk: Option<Chunk>)
    ensures chunk.Some? ==> chunk.value in evidence && chunk.value.id == id
    ensures chunk.None? ==> forall c | c in evidence :: c.id != id
  {
    if evidence == [] then None
    else if evidence[|evidence| - 1].id == id then Some(evidence[|evidence| - 1])
    else ChunkOf(evidence[..|evidence| - 1], id)
  }

  ghost predicate Placed(c: Citation, evidence: seq<Chunk>) {
    ChunkOf(evidence, c.chunkId).Some? && ChunkOf(evidence, c.chunkId).value.documentId == c.documentId
  }

  /** The citation names a retrieved chunk and quotes it. */
  ghost predicate Quoted(r: Reading, c: Citation, evidence: seq<Chunk>) {
    Placed(c, evidence) && Occurs(r.normalize(c.excerpt), r.normalize(ChunkOf(evidence, c.chunkId).value.content))
  }

  ghost predicate AllQuoted(r: Reading, citations: seq<Citation>, evidence: seq<Chunk>) {
    forall c | c in citations :: Quoted(r, c, evidence)
  }

  ghost predicate SomeMisplaced(citations: seq<Citation>, evidence: seq<Chunk>) {
    exists c | c in citations :: !Placed(c, evidence)
  }

  ghost predicate SomeMisquoted(r: Reading, citations: seq<Citation>, evidence: seq<Chunk>) {
    exists c | c in citations :: Placed(c, evidence) && !Quoted(r, c, evidence)
  }

  lemma OneMore(r: Reading, citations: seq<Citation>, c: Citation, evidence: seq<Chunk>)
    ensures AllQuoted(r, citations + [c], evidence) <==> AllQuoted(r, citations, evidence) && Quoted(r, c, evidence)
    ensures SomeMisplaced(citations + [c], evidence) <==> SomeMisplaced(citations, evidence) || !Placed(c, evidence)
    ensures SomeMisquoted(r, citations + [c], evidence) <==>
              SomeMisquoted(r, citations, evidence) || (Placed(c, evidence) && !Quoted(r, c, evidence))
    ensures Usable(r, citations + [c], evidence)
         == if Quoted(r, c, evidence) then Usable(r, citations, evidence) + {c.id} else Usable(r, citations, evidence)
  {
    var more := citations + [c];
    assert c in more && forall d :: d in more <==> d in citations || d == c;
    if SomeMisplaced(citations, evidence) {
      var d :| d in citations && !Placed(d, evidence);
      assert d in more;
    }
    if SomeMisquoted(r, citations, evidence) {
      var d :| d in citations && Placed(d, evidence) && !Quoted(r, d, evidence);
      assert d in more;
    }
    if AllQuoted(r, more, evidence) {
      forall d | d in citations ensures Quoted(r, d, evidence) {
        assert d in more;
      }
    }
    UsableOneMore(r, citations, c, evidence);
  }

  lemma UsableOneMore(r: Reading, citations: seq<Citation>, c: Citation, evidence: seq<Chunk>)
    ensures Usable(r, citations + [c], evidence)
         == if Quoted(r, c, evidence) then Usable(r, citations, evidence) + {c.id} else Usable(r, citations, evidence)
  {
    var more := citations + [c];
    assert c in more;
    forall id | id in Usable(r, citations, evidence) ensures id in Usable(r, more, evidence) {
      var d :| d in citations && Quoted(r, d, evidence) && d.id == id;
      assert d in more;
    }
  }

  /** The last citation of an id. */
  function CitationOf(citations: seq<Citation>, id: string): (c: Option<Citation>)
    ensures c.Some? ==> c.value in citations && c.value.id == id
    ensures c.None? ==> forall d | d in citations :: d.id != id
  {
    if citations == [] then None
    else if citations[|citations| - 1].id == id then Some(citations[|citations| - 1])
    else CitationOf(citations[..|citations| - 1], id)
  }

  /** The passage in which a claim's markers are looked for: the 160 characters after its end. */
  function Suffix(text: string, claim: string, at: int): string
    requires OccursAt(claim, text, at)
  {
    var end := at + |claim|;
    text[end..if end + 160 <= |text| then end + 160 else |text|]
  }

  /** The citation supports the claim standing first at `at`. */
  ghost predicate Backs(r: Reading, c: Citation, text: string, claim: string, at: int)
    requires OccursAt(claim, text, at)
  {
    c.id in r.markers(Suffix(text, claim, at)) && Occurs(r.normalize(claim), r.normalize(c.excerpt))
  }

  ghost predicate FirstAt(needle: string, hay: string, at: int) {
    OccursAt(needle, hay, at) && forall i | OccursAt(needle, hay, i) :: at <= i
  }

  /** The claim is in the answer, and one of `citations`, the last of its id and with a usable id,
      is marked right after its first occurrence and quotes it. */
  ghost predicate Supported(r: Reading, text: string, claim: string, citations: seq<Citation>, usable: set<string>) {
    exists at, c | FirstAt(claim, text, at) && c in citations ::
      c.id in usable && CitationOf(citations, c.id) == Some(c) && Backs(r, c, text, claim, at)
  }

  /** The ids for which some citation quotes its chunk. */
  ghost function Usable(r: Reading, citations: seq<Citation>, evidence: seq<Chunk>): set<string> {
    set c | c in citations && Quoted(r, c, evidence) :: c.id
  }

  ghost function SupportedCount(r: Reading, a: Answer, claims: seq<string>, usable: set<string>): nat {
    if claims == [] then 0
    else
      var before := SupportedCount(r, a, claims[..|claims| - 1], usable);
      if Supported(r, a.text, claims[|claims| - 1], a.citations, usable) then before + 1 else before
  }

  function Ratio(part: nat, whole: nat): real {
    if whole == 0 then 0.0 else part as real / whole as real
  }

  ghost predicate AllSupported(r: Reading, a: Answer, claims: seq<string>, usable: set<string>) {
    forall i | 0 <= i < |claims| :: Supported(r, a.text, claims[i], a.citations, usable)
  }

  lemma {:induction false} CountExact(r: Reading, a: Answer, claims: seq<string>, usable: set<string>)
    ensures SupportedCount(r, a, claims, usable) <= |claims|
    ensures SupportedCount(r, a, claims, usable) == |claims| <==> AllSupported(r, a, claims, usable)
  {
    if claims != [] {
      CountExact(r, a, claims[..|claims| - 1], usable);
      if SupportedCount(r, a, claims, usable) == |claims| {
        forall i | 0 <= i < |claims| ensures Supported(r, a.text, claims[i], a.citations, usable) {
          assert i < |claims| - 1 ==> claims[..|claims| - 1][i] == claims[i];
        }
      }
    }
  }

  /** What the gate lets through, said without its counters and lists. */
  ghost predicate Grounded(r: Reading, a: Answer, evidence: seq<Chunk>, minimum: real) {
    && evidence != []
    && AllQuoted(r, a.citations, evidence)
    && a.unsupported == []
    && AllSupported(r, a, a.claims, Usable(r, a.citations, evidence))
    && (a.claims != [] || minimum <= 0.0)
  }

  // ------------------------------------------------------------------------------- the loops

  /** Step 2: which citation ids are usable, and what is wrong with the others. */
  method CheckCitations(r: Reading, citations: seq<Citation>, evidence: seq<Chunk>)
    returns (usable: set<string>, reasons: seq<Reason>)
    ensures usable == Usable(r, citations, evidence)
    ensures reasons == [] <==> AllQuoted(r, citations, evidence)
    ensures forall x | x in reasons :: x in {CitationNotInRetrievedEvidence, CitationExcerptMismatch}
    ensures CitationNotInRetrievedEvidence in reasons <==> SomeMisplaced(citations, evidence)
    ensures CitationExcerptMismatch in reasons <==> SomeMisquoted(r, citations, evidence)
  {
    usable, reasons := {}, [];
    for i := 0 to |citations|
      invariant usable == Usable(r, citations[..i], evidence)
      invariant reasons == [] <==> AllQuoted(r, citations[..i], evidence)
      invariant forall x | x in reasons :: x in {CitationNotInRetrievedEvidence, CitationExcerptMismatch}
      invariant CitationNotInRetrievedEvidence in reasons <==> SomeMisplaced(citations[..i], evidence)
      invariant CitationExcerptMismatch in reasons <==> SomeMisquoted(r, citations[..i], evidence)
    {
      var c := citations[i];
      assert citations[..i + 1] == citations[..i] + [c];
      OneMore(r, citations[..i], c, evidence);
      var chunk := ChunkOf(evidence, c.chunkId);
      if chunk.None? || c.documentId != chunk.value.documentId {
        assert !Placed(c, evidence);
        reasons := reasons + [CitationNotInRetrievedEvidence];
      } else {
        var found := Contains(r.normalize(c.excerpt), r.normalize(chunk.value.content));
        if !found {
          reasons := reasons + [CitationExcerptMismatch];
        } else {
          assert Quoted(r, c, evidence);
          usable := usable + {c.id};
        }
      }
    }
    assert citations[..|citations|] == citations;
  }

  /** Steps 3.2 and 3.3 for one claim that stands in the answer. */
  method IsBacked(r: Reading, a: Answer, claim: string, at: int, usable: set<string>) returns (backed: bool)
    requires FirstAt(claim, a.text, at)
    ensures backed <==> Supported(r, a.text, claim, a.citations, usable)
  {
    var markers := r.markers(Suffix(a.text, claim, at));
    backed := false;
    for i := 0 to |a.citations|
      invariant backed <==> exists c | c in a.citations[..i] ::
        c.id in usable && CitationOf(a.citations, c.id) == Some(c) && Backs(r, c, a.text, claim, at)
    {
      var c := a.citations[i];
      assert a.citations[..i + 1] == a.citations[..i] + [c];
      if c.id in usable && c.id in markers && CitationOf(a.citations, c.id) == Some(c) {
        var found := Contains(r.normalize(claim), r.normalize(c.excerpt));
        backed := backed || found;
      }
    }
    assert a.citations[..|a.citations|] == a.citations;
  }

  /** Step 3: how many claims are supported; the others join the unsupported ones. */
  method CheckClaims(r: Reading, a: Answer, usable: set<string>)
    returns (supported: nat, unsupported: seq<string>, reasons: seq<Reason>)
    ensures supported == SupportedCount(r, a, a.claims, usable)
    ensures |unsupported| == |a.unsupported| + |a.claims| - supported
    ensures forall x | x in unsupported :: x in a.unsupported || x in a.claims
    ensures forall x | x in reasons :: x == AnswerEvidenceMismatch
    ensures reasons != [] ==> |unsupported| > |a.unsupported|
  {
    supported, unsupported, reasons := 0, a.unsupported, [];
    for i := 0 to |a.claims|
      invariant supported == SupportedCount(r, a, a.claims[..i], usable)
      invariant |unsupported| == |a.unsupported| + i - supported && supported <= i
      invariant forall x | x in unsupported :: x in a.unsupported || x in a.claims
      invariant forall x | x in reasons :: x == AnswerEvidenceMismatch
      invariant reasons != [] ==> |unsupported| > |a.unsupported|
    {
      var claim := a.claims[i];
      assert a.claims[..i + 1][..i] == a.claims[..i];
      var at := Find(a.text, claim);
      if at < 0 {
        unsupported := unsupported + [claim];
      } else {
        var backed := IsBacked(r, a, claim, at, usable);
        if backed {
          supported := supported + 1;
        } else {
          unsupported, reasons := unsupported + [claim], reasons + [AnswerEvidenceMismatch];
        }
      }
    }
    assert a.claims[..|a.claims|] == a.claims;
  }

  /** `list(dict.fromkeys(reasons))`. */
  function Once(reasons: seq<Reason>): (once: seq<Reason>)
    ensures forall x :: x in once <==> x in reasons
    ensures |once| == 0 <==> |reasons| == 0
    ensures forall i, j | 0 <= i < j < |once| :: once[i] != once[j]
  {
    if reasons == [] then []
    else
      var front, last := Once(reasons[..|reasons| - 1]), reasons[|reasons| - 1];
      if last in reasons[..|reasons| - 1] then front else front + [last]
  }

  ghost function Coverage(r: Reading, a: Answer, evidence: seq<Chunk>): real {
    Ratio(SupportedCount(r, a, a.claims, Usable(r, a.citations, evidence)), |a.claims| + |a.unsupported|)
  }

  /** The gate's own reasons amount to `Grounded`. */
  lemma NoReasonExact(r: Reading, a: Answer, evidence: seq<Chunk>, minimum: real)
    requires 0.0 <= minimum <= 1.0
    ensures var usable := Usable(r, a.citations, evidence);
            var allSupported := SupportedCount(r, a, a.claims, usable) == |a.claims|;
            && (allSupported <==> AllSupported(r, a, a.claims, usable))
            && (Grounded(r, a, evidence, minimum) <==>
                && evidence != [] && AllQuoted(r, a.citations, evidence) && a.unsupported == [] && allSupported
                && Coverage(r, a, evidence) >= minimum)
            && (a.claims != [] && a.citations == [] ==> !allSupported)
            && SupportedCount(r, a, a.claims, usable) <= |a.claims|
  {
    var usable := Usable(r, a.citations, evidence);
    CountExact(r, a, a.claims, usable);
    CoverageExact(SupportedCount(r, a, a.claims, usable), |a.claims|, |a.unsupported|);
    if a.claims != [] && a.citations == [] {
      NoCitationNoSupport(r, a, usable);
    }
  }

  /** `GroundingValidator.validate`: the gate opens exactly for grounded answers, and its coverage is
      the share of the claims that are supported. */
  method Validate(r: Reading, a: Answer, evidence: seq<Chunk>, minimum: real) returns (v: Validation)
    requires 0.0 <= minimum <= 1.0
    ensures v.accepted <==> Grounded(r, a, evidence, minimum)
    ensures v.accepted <==> v.reasons == []
    ensures v.coverage == Coverage(r, a, evidence)
    ensures EmptyEvidence in v.reasons <==> evidence == []
    ensures CitationsMissing in v.reasons <==> a.claims != [] && a.citations == []
    ensures CoverageBelowThreshold in v.reasons <==> v.coverage < minimum
    ensures UnsupportedClaimsPresent in v.reasons <==>
              a.unsupported != [] || !AllSupported(r, a, a.claims, Usable(r, a.citations, evidence))
    ensures CitationNotInRetrievedEvidence in v.reasons <==> SomeMisplaced(a.citations, evidence)
  {
    var usable, fromCitations := CheckCitations(r, a.citations, evidence);
    var supported, unsupported, fromClaims := CheckClaims(r, a, usable);
    NoReasonExact(r, a, evidence, minimum);
    var coverage := Ratio(supported, |a.claims| + |a.unsupported|);
    var reasons := Conclude(fromCitations + fromClaims, evidence == [], a.claims != [] && a.citations == [],
                            coverage < minimum, unsupported != []);
    assert CitationNotInRetrievedEvidence in reasons <==> CitationNotInRetrievedEvidence in fromCitations;
    assert fromClaims != [] ==> unsupported != [];
    var accepted := evidence != [] && reasons == [] && coverage >= minimum;
    v := Validation(coverage, accepted, |set x | x in unsupported|, Once(reasons));
  }

  /** Step 4: the reasons that concern the answer as a whole. */
  method Conclude(found: seq<Reason>, empty: bool, missing: bool, below: bool, unsupported: bool) returns (reasons: seq<Reason>)
    requires forall x | x in found :: x in {CitationNotInRetrievedEvidence, CitationExcerptMismatch, AnswerEvidenceMismatch}
    ensures reasons == [] <==> found == [] && !empty && !missing && !below && !unsupported
    ensures EmptyEvidence in reasons <==> empty
    ensures CitationsMissing in reasons <==> missing
    ensures CoverageBelowThreshold in reasons <==> below
    ensures UnsupportedClaimsPresent in reasons <==> unsupported
    ensures CitationNotInRetrievedEvidence in reasons <==> CitationNotInRetrievedEvidence in found
  {
    reasons := found;
    if empty {
      reasons := reasons + [EmptyEvidence];
    }
    if missing {
      reasons := reasons + [CitationsMissing];
    }
    if below {
      reasons := reasons + [CoverageBelowThreshold];
    }
    if unsupported {
      reasons := reasons + [UnsupportedClaimsPresent];
    }
  }

  lemma CoverageExact(supported: nat, claims: nat, unsupported: nat)
    requires supported <= claims
    ensures claims + unsupported > 0 ==> (Ratio(supported, claims + unsupported) == 1.0 <==> supported == claims + unsupported)
    ensures 0.0 <= Ratio(supported, claims + unsupported) <= 1.0
  {
    if claims + unsupported > 0 {
      var whole := (claims + unsupported) as real;
      var q := supported as real / whole;
      QuotientExact(q, whole, supported as real);
    }
  }

  lemma QuotientExact(q: real, whole: real, part: real)
    requires whole > 0.0 && q * whole == part && 0.0 <= part <= whole
    ensures 0.0 <= q <= 1.0
    ensures q == 1.0 <==> part == whole
  {
    assert (q - 1.0) * whole == part - whole;
  }

  lemma NoCitationNoSupport(r: Reading, a: Answer, usable: set<string>)
    requires a.claims != [] && a.citations == []
    ensures !AllSupported(r, a, a.claims, usable)
  {
    assert !Supported(r, a.text, a.claims[0], a.citations, usable);
  }

  // ------------------------------------------------------------------------------- what it means

  /** The claim is, up to normalisation, in a retrieved chunk of a document that the answer cites. */
  ghost predicate InEvidence(r: Reading, a: Answer, claim: string, evidence: seq<Chunk>) {
    exists c, k | c in a.citations && k in evidence ::
      c.chunkId == k.id && c.documentId == k.documentId && Occurs(r.normalize(claim), r.normalize(k.content))
  }

  /** Soundness: whatever the markers and the normalisation, every claim of a grounded answer is in
      the evidence, even when several citations share an id or several chunks do. */
  lemma GroundedIsSound(r: Reading, a: Answer, evidence: seq<Chunk>, minimum: real)
    requires Grounded(r, a, evidence, minimum)
    ensures forall claim | claim in a.claims :: InEvidence(r, a, claim, evidence) && Occurs(claim, a.text)
  {
    forall claim | claim in a.claims ensures InEvidence(r, a, claim, evidence) && Occurs(claim, a.text) {
      var i :| 0 <= i < |a.claims| && a.claims[i] == claim;
      assert Supported(r, a.text, a.claims[i], a.citations, Usable(r, a.citations, evidence));
      SupportedIsInEvidence(r, a, claim, evidence);
    }
  }

  lemma SupportedIsInEvidence(r: Reading, a: Answer, claim: string, evidence: seq<Chunk>)
    requires AllQuoted(r, a.citations, evidence) && Supported(r, a.text, claim, a.citations, Usable(r, a.citations, evidence))
    ensures InEvidence(r, a, claim, evidence) && Occurs(claim, a.text)
  {
    var at, c :| FirstAt(claim, a.text, at) && c in a.citations && c.id in Usable(r, a.citations, evidence)
                 && CitationOf(a.citations, c.id) == Some(c) && Backs(r, c, a.text, claim, at);
    var k := ChunkOf(evidence, c.chunkId).value;
    assert Quoted(r, c, evidence);
    OccursWithin(r.normalize(claim), r.normalize(c.excerpt), r.normalize(k.content));
  }

  /** With claims, the threshold plays no part: the gate opens at coverage one or not at all. */
  lemma ThresholdIsInert(r: Reading, a: Answer, evidence: seq<Chunk>, minimum: real, other: real)
    requires a.claims != []
    ensures Grounded(r, a, evidence, minimum) == Grounded(r, a, evidence, other)
    ensures Grounded(r, a, evidence, minimum) ==>
              Coverage(r, a, evidence) == 1.0
  {
    CountExact(r, a, a.claims, Usable(r, a.citations, evidence));
    CoverageExact(SupportedCount(r, a, a.claims, Usable(r, a.citations, evidence)), |a.claims|, |a.unsupported|);
  }

  /** Without claims a threshold of zero lets any answer text through, whose coverage is then zero. */
  lemma EmptyAnswerPasses(r: Reading, text: string, evidence: seq<Chunk>)
    requires evidence != []
    ensures Grounded(r, Answer(text, [], [], []), evidence, 0.0)
    ensures Ratio(SupportedCount(r, Answer(text, [], [], []), [], {}), 0) == 0.0
  {
  }
}
