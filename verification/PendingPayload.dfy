/** What is captured with a pending action, what is restored from it after confirmation, and the
    exactness of the comparison between the two (pending_payload.py). */
module PendingPayload {
  import opened Domain
  import opened Ordering
  import opened PolicyInputs

  // ------------------------------------------------------------------------ spelling of the keys

  function FieldText(f: Field): string {
    match f
    case SchemaVersion => "schema_version"
    case ToolNameField => "tool_name"
    case ArgumentsField => "arguments"
    case ContextField => "context"
    case Outcome => "outcome"
    case RiskLevelField => "risk_level"
    case Reasons => "reasons"
    case RequiredConditions => "required_conditions"
    case ConversationId => "conversation_id"
    case TenantId => "tenant_id"
    case EffectiveCustomerId => "effective_customer_id"
    case ActorId => "actor_id"
    case ActorTypeField => "actor_type"
    case PrincipalTypeField => "principal_type"
    case Roles => "roles"
    case Groups => "groups"
    case CustomerId => "customer_id"
    case OrderId => "order_id"
    case TicketId => "ticket_id"
    case Reason => "reason"
    case Category => "category"
    case Description => "description"
    case PriorityField => "priority"
    case Summary => "summary"
  }

  /** Length and first two characters already tell the keys apart. */
  function Signature(f: Field): (nat, char, char) {
    match f
    case SchemaVersion => (14, 's', 'c')
    case ToolNameField => (9, 't', 'o')
    case ArgumentsField => (9, 'a', 'r')
    case ContextField => (7, 'c', 'o')
    case Outcome => (7, 'o', 'u')
    case RiskLevelField => (10, 'r', 'i')
    case Reasons => (7, 'r', 'e')
    case RequiredConditions => (19, 'r', 'e')
    case ConversationId => (15, 'c', 'o')
    case TenantId => (9, 't', 'e')
    case EffectiveCustomerId => (21, 'e', 'f')
    case ActorId => (8, 'a', 'c')
    case ActorTypeField => (10, 'a', 'c')
    case PrincipalTypeField => (14, 'p', 'r')
    case Roles => (5, 'r', 'o')
    case Groups => (6, 'g', 'r')
    case CustomerId => (11, 'c', 'u')
    case OrderId => (8, 'o', 'r')
    case TicketId => (9, 't', 'i')
    case Reason => (6, 'r', 'e')
    case Category => (8, 'c', 'a')
    case Description => (11, 'd', 'e')
    case PriorityField => (8, 'p', 'r')
    case Summary => (7, 's', 'u')
  }

  lemma FieldTextFacts(f: Field)
    ensures |FieldText(f)| >= 2
    ensures (|FieldText(f)|, FieldText(f)[0], FieldText(f)[1]) == Signature(f)
  {
  }

  lemma FieldTextDotFree(f: Field)
    ensures DotFree(FieldText(f))
  {
  }

  lemma FieldSpelling()
    ensures Spelling(FieldText)
    ensures forall f :: DotFree(FieldText(f))
  {
    forall f, g | FieldText(f) == FieldText(g) ensures f == g {
      FieldTextFacts(f);
      FieldTextFacts(g);
      assert Signature(f) == Signature(g);
    }
    forall f ensures DotFree(FieldText(f)) {
      FieldTextDotFree(f);
    }
  }

  // ------------------------------------------------------------------------------ what is captured

  const SCHEMA_VERSION := 1

  function Strings(s: seq<string>): Value {
    JArr(seq(|s|, i requires 0 <= i < |s| => JStr(s[i])))
  }

  /** The inputs the policy engine read at the gate. */
  datatype Captured = Captured(
    tool: Tool,
    arguments: Arguments,
    context: Context,
    outcome: string,
    riskLevel: int,
    reasons: seq<string>,
    conditions: seq<string>)

  predicate Distinct(keys: seq<Field>) {
    forall i, j | 0 <= i < j < |keys| :: keys[i] != keys[j]
  }

  /** The object with these keys and values. */
  function Record(keys: seq<Field>, values: seq<Value>): Arguments
    requires |keys| == |values|
  {
    if keys == [] then map[] else Record(keys[1..], values[1..])[keys[0] := values[0]]
  }

  const CONTEXT_KEYS := [
    ConversationId, TenantId, EffectiveCustomerId, ActorId, ActorTypeField, PrincipalTypeField, Roles, Groups]

  /** Policy-relevant identity and scope; roles and groups are sorted. */
  function ContextValues(c: Context): seq<Value> {
    [JStr(c.conversationId), JStr(c.tenantId), JInt(c.customerId), JStr(c.actorId),
     JStr(ActorTypeText(c.actorType)), JStr(PrincipalTypeText(c.principalType)),
     Strings(Sorted(c.roles)), Strings(Sorted(c.groups))]
  }

  /** `build_policy_context`. */
  function ContextTree(c: Context): Value {
    JObj(Record(CONTEXT_KEYS, ContextValues(c)))
  }

  const POLICY_KEYS := [
    SchemaVersion, ToolNameField, ArgumentsField, ContextField, Outcome, RiskLevelField, Reasons, RequiredConditions]

  function PolicyValues(p: Captured): seq<Value> {
    [JInt(SCHEMA_VERSION), JStr(ToolName(p.tool)), JObj(p.arguments), ContextTree(p.context),
     JStr(p.outcome), JInt(p.riskLevel), Strings(p.reasons), Strings(p.conditions)]
  }

  /** `build_policy_inputs`. */
  function PolicyTree(p: Captured): Value {
    JObj(Record(POLICY_KEYS, PolicyValues(p)))
  }

  /** `restore_policy_inputs`: the snapshot with tool, arguments and context made current. */
  function Restored(p: Captured, tool: Tool, c: Context, arguments: Arguments): Captured {
    p.(tool := tool, context := c, arguments := arguments)
  }

  const RESTORABLE := [CustomerId, OrderId, TicketId, Reason, Category, Description]

  /** The entities that could fill a gap. */
  function Fillers(keys: seq<Field>, entities: Arguments): Arguments {
    map k | k in keys && Lookup(entities, k) != JNull :: Lookup(entities, k)
  }

  /** Entities only fill gaps: an argument already captured is never replaced. */
  function RestoreArguments(captured: Arguments, entities: Arguments): Arguments {
    Fillers(RESTORABLE, entities) + captured
  }

  /** `restore_pending_arguments`. */
  method RestorePendingArguments(captured: Arguments, entities: Arguments) returns (restored: Arguments)
    ensures restored == RestoreArguments(captured, entities)
  {
    restored := captured;
    assert Fillers([], entities) == map[];
    for i := 0 to |RESTORABLE|
      invariant restored == Fillers(RESTORABLE[..i], entities) + captured
    {
      var key, value := RESTORABLE[i], Lookup(entities, RESTORABLE[i]);
      FillerStep(RESTORABLE[..i], key, captured, entities);
      assert RESTORABLE[..i + 1] == RESTORABLE[..i] + [key];
      if value != JNull && key !in restored {
        restored := restored[key := value];
      }
    }
    assert RESTORABLE[..|RESTORABLE|] == RESTORABLE;
  }

  /** One `setdefault`. */
  lemma FillerStep(keys: seq<Field>, key: Field, captured: Arguments, entities: Arguments)
    ensures var before := Fillers(keys, entities) + captured;
            Fillers(keys + [key], entities) + captured ==
            if Lookup(entities, key) != JNull && key !in before then before[key := Lookup(entities, key)] else before
  {
  }

  datatype Diff = Diff(missing: set<string>, added: set<string>, changed: set<string>) {
    predicate IsEmpty() { missing == {} && added == {} && changed == {} }
  }

  /** The paths at which two flat forms differ. */
  function DiffOf(a: map<string, Value>, b: map<string, Value>): Diff {
    Diff(a.Keys - b.Keys, b.Keys - a.Keys, set t | t in a && t in b && a[t] != b[t])
  }

  lemma DiffOfExact(a: map<string, Value>, b: map<string, Value>)
    ensures DiffOf(a, b).IsEmpty() <==> a.Items == b.Items
  {
    if DiffOf(a, b).IsEmpty() {
      assert a.Keys == b.Keys;
      forall t | t in a ensures a[t] == b[t] {
        assert t !in DiffOf(a, b).changed;
      }
      assert a == b;
    } else if a.Items == b.Items {
      forall t | t in a ensures t in b && a[t] == b[t] {
        assert (t, a[t]) in a.Items;
      }
      forall t | t in b ensures t in a {
        assert (t, b[t]) in b.Items;
      }
    }
  }

  /** The flat forms differ nowhere. */
  ghost predicate NoDrift(text: Field -> string, original: Value, restored: Value) {
    FlatPairs(text, original, "") == FlatPairs(text, restored, "")
  }

  /** The path texts of a tree's leaves. */
  ghost function FlatTexts(text: Field -> string, v: Value): set<string> {
    set p | p in FlatPairs(text, v, "") :: p.0
  }

  /** `policy_input_diff`: which path texts only one tree has, and which carry different leaves. On
      captured trees it is empty exactly when the trees are equal. */
  method PolicyInputDiff(text: Field -> string, original: Value, restored: Value) returns (diff: Diff)
    ensures diff.missing == FlatTexts(text, original) - FlatTexts(text, restored)
    ensures diff.added == FlatTexts(text, restored) - FlatTexts(text, original)
    ensures forall t | t in diff.changed :: t in FlatTexts(text, original) && t in FlatTexts(text, restored)
    ensures Spelling(text) && CapturedShape(text, original) && CapturedShape(text, restored) ==>
              (diff.IsEmpty() <==> original == restored) && (diff.IsEmpty() <==> NoDrift(text, original, restored))
  {
    var a := Flatten(text, original, "");
    var b := Flatten(text, restored, "");
    diff := DiffOf(a, b);
    assert a.Keys == FlatTexts(text, original) && b.Keys == FlatTexts(text, restored);
    if Spelling(text) && CapturedShape(text, original) && CapturedShape(text, restored) {
      CapturedDiff(text, original, restored, a, b);
    }
  }

  lemma CapturedDiff(text: Field -> string, original: Value, restored: Value, a: map<string, Value>, b: map<string, Value>)
    requires Spelling(text) && CapturedShape(text, original) && CapturedShape(text, restored)
    requires a.Items == FlatPairs(text, original, "") && b.Items == FlatPairs(text, restored, "")
    ensures DiffOf(a, b).IsEmpty() <==> original == restored
    ensures DiffOf(a, b).IsEmpty() <==> NoDrift(text, original, restored)
  {
    DiffOfExact(a, b);
    FlattenInjective(text, original, restored, "");
  }

  // ------------------------------------------------------------------------- exactness of the check

  /** Equality of everything the policy reads from the context. */
  predicate SamePolicyContext(a: Context, b: Context) {
    && a.conversationId == b.conversationId
    && a.tenantId == b.tenantId
    && a.customerId == b.customerId
    && a.actorId == b.actorId
    && a.actorType == b.actorType
    && a.principalType == b.principalType
    && multiset(a.roles) == multiset(b.roles)
    && multiset(a.groups) == multiset(b.groups)
  }

  lemma StringsInjective(a: seq<string>, b: seq<string>)
    ensures Strings(a) == Strings(b) <==> a == b
  {
    if Strings(a) == Strings(b) {
      assert |a| == |Strings(a).items| == |b|;
      forall i | 0 <= i < |a| ensures a[i] == b[i] {
        assert Strings(a).items[i] == JStr(a[i]) && Strings(b).items[i] == JStr(b[i]);
      }
    }
  }

  lemma {:induction false} RecordAt(keys: seq<Field>, v: seq<Value>)
    requires Distinct(keys) && |keys| == |v|
    ensures forall k :: k in Record(keys, v) <==> k in keys
    ensures forall i | 0 <= i < |keys| :: keys[i] in Record(keys, v) && Record(keys, v)[keys[i]] == v[i]
  {
    if keys != [] {
      RecordAt(keys[1..], v[1..]);
      forall i | 0 <= i < |keys| ensures keys[i] in Record(keys, v) && Record(keys, v)[keys[i]] == v[i] {
        if i > 0 {
          assert keys[i] == keys[1..][i - 1] && v[i] == v[1..][i - 1];
        }
      }
    }
  }

  /** Two records over the same keys are equal exactly when their values are. */
  lemma RecordInjective(keys: seq<Field>, v: seq<Value>, w: seq<Value>)
    requires Distinct(keys) && |keys| == |v| == |w|
    ensures Record(keys, v) == Record(keys, w) <==> v == w
  {
    RecordAt(keys, v);
    RecordAt(keys, w);
    if Record(keys, v) == Record(keys, w) {
      forall i | 0 <= i < |keys| ensures v[i] == w[i] {
        assert Record(keys, v)[keys[i]] == v[i];
      }
    }
  }

  lemma RecordShape(text: Field -> string, keys: seq<Field>, v: seq<Value>)
    requires forall f :: DotFree(text(f))
    requires Distinct(keys) && |keys| == |v| > 0
    requires forall i | 0 <= i < |keys| :: CapturedShape(text, v[i])
    ensures CapturedShape(text, JObj(Record(keys, v)))
  {
    RecordAt(keys, v);
    assert keys[0] in Record(keys, v);
  }

  lemma LeafRecordShape(text: Field -> string, keys: seq<Field>, v: seq<Value>)
    requires forall f :: DotFree(text(f))
    requires Distinct(keys) && |keys| == |v| > 0
    requires forall i | 0 <= i < |v| :: !v[i].JObj? || CapturedShape(text, v[i])
    ensures CapturedShape(text, JObj(Record(keys, v)))
  {
    forall i | 0 <= i < |v| ensures CapturedShape(text, v[i]) {
    }
    RecordShape(text, keys, v);
  }

  /** The values captured from the context determine every policy-relevant part of it. */
  lemma ContextValuesExact(a: Context, b: Context)
    ensures ContextValues(a) == ContextValues(b) <==> SamePolicyContext(a, b)
  {
    SortedCanonical(a.roles, b.roles);
    SortedCanonical(a.groups, b.groups);
    StringsInjective(Sorted(a.roles), Sorted(b.roles));
    StringsInjective(Sorted(a.groups), Sorted(b.groups));
    ActorTypeTextInjective(a.actorType, b.actorType);
    PrincipalTypeTextInjective(a.principalType, b.principalType);
    Equal8(ContextValues(a), ContextValues(b));
  }

  lemma Equal8(v: seq<Value>, w: seq<Value>)
    requires |v| == |w| == 8
    ensures v == w <==> v[0] == w[0] && v[1] == w[1] && v[2] == w[2] && v[3] == w[3] &&
                        v[4] == w[4] && v[5] == w[5] && v[6] == w[6] && v[7] == w[7]
  {
  }

  lemma ContextKeys()
    ensures Distinct(CONTEXT_KEYS) && |CONTEXT_KEYS| == 8
    ensures Distinct(POLICY_KEYS) && |POLICY_KEYS| == 8
  {
  }

  lemma ContextTreeExact(a: Context, b: Context)
    ensures ContextTree(a) == ContextTree(b) <==> SamePolicyContext(a, b)
  {
    assert ContextValues(a) == ContextValues(b) <==> SamePolicyContext(a, b) by {
      ContextValuesExact(a, b);
    }
    assert Record(CONTEXT_KEYS, ContextValues(a)) == Record(CONTEXT_KEYS, ContextValues(b)) <==> ContextValues(a) == ContextValues(b) by {
      ContextKeys();
      RecordInjective(CONTEXT_KEYS, ContextValues(a), ContextValues(b));
    }
  }

  lemma Leaves8(v: seq<Value>)
    requires |v| == 8 && !v[0].JObj? && !v[1].JObj? && !v[2].JObj? && !v[3].JObj?
    requires !v[4].JObj? && !v[5].JObj? && !v[6].JObj? && !v[7].JObj?
    ensures forall i | 0 <= i < 8 :: !v[i].JObj?
  {
  }

  lemma ContextTreeShape(text: Field -> string, c: Context)
    requires forall f :: DotFree(text(f))
    ensures CapturedShape(text, ContextTree(c))
  {
    Leaves8(ContextValues(c));
    ContextKeys();
    LeafRecordShape(text, CONTEXT_KEYS, ContextValues(c));
  }

  /** Equality of everything that was captured, roles and groups up to order. */
  predicate SameCaptured(p: Captured, q: Captured) {
    && ToolName(p.tool) == ToolName(q.tool) && p.arguments == q.arguments
    && SamePolicyContext(p.context, q.context) && p.outcome == q.outcome
    && p.riskLevel == q.riskLevel && p.reasons == q.reasons && p.conditions == q.conditions
  }

  lemma PolicyValuesExact(p: Captured, q: Captured)
    ensures PolicyValues(p) == PolicyValues(q) <==> SameCaptured(p, q)
  {
    ContextTreeExact(p.context, q.context);
    StringsInjective(p.reasons, q.reasons);
    StringsInjective(p.conditions, q.conditions);
    Equal8(PolicyValues(p), PolicyValues(q));
  }

  lemma PolicyTreeExact(p: Captured, q: Captured)
    ensures PolicyTree(p) == PolicyTree(q) <==> SameCaptured(p, q)
  {
    assert PolicyValues(p) == PolicyValues(q) <==> SameCaptured(p, q) by {
      PolicyValuesExact(p, q);
    }
    assert Record(POLICY_KEYS, PolicyValues(p)) == Record(POLICY_KEYS, PolicyValues(q)) <==> PolicyValues(p) == PolicyValues(q) by {
      ContextKeys();
      RecordInjective(POLICY_KEYS, PolicyValues(p), PolicyValues(q));
    }
  }

  lemma PolicyValuesParts(p: Captured)
    ensures var v := PolicyValues(p);
            && v[2] == JObj(p.arguments) && v[3] == ContextTree(p.context)
            && forall i | 0 <= i < 8 && i != 2 && i != 3 :: !v[i].JObj?
  {
  }

  lemma PolicyTreeShape(text: Field -> string, p: Captured)
    requires forall f :: DotFree(text(f))
    requires CapturedShape(text, JObj(p.arguments))
    ensures CapturedShape(text, PolicyTree(p))
  {
    PolicyValuesParts(p);
    ContextTreeShape(text, p.context);
    ContextKeys();
    LeafRecordShape(text, POLICY_KEYS, PolicyValues(p));
  }

  /** The drift check made at revalidation passes exactly when the restored arguments, the tool and
      every policy-relevant part of the context equal what was captured. */
  lemma DriftExact(p: Captured, tool: Tool, c: Context, arguments: Arguments)
    requires CapturedShape(FieldText, JObj(p.arguments)) && CapturedShape(FieldText, JObj(arguments))
    ensures NoDrift(FieldText, PolicyTree(p), PolicyTree(Restored(p, tool, c, arguments))) <==>
            arguments == p.arguments && ToolName(tool) == ToolName(p.tool) && SamePolicyContext(p.context, c)
  {
    FieldSpelling();
    var q := Restored(p, tool, c, arguments);
    PolicyTreeExact(p, q);
    PolicyTreeShape(FieldText, p);
    PolicyTreeShape(FieldText, q);
    FlattenInjective(FieldText, PolicyTree(p), PolicyTree(q), "");
  }

  /** What validation lets through has the captured shape. */
  lemma NormalisedShape(tool: Tool, raw: Arguments)
    requires !tool.Unregistered? && Normalise(tool, raw).Some?
    ensures CapturedShape(FieldText, JObj(Normalise(tool, raw).value))
  {
    FieldSpelling();
    var model, out := InputModel(tool), Normalise(tool, raw).value;
    assert CustomerId in model && CustomerId in out;
    forall k | k in out ensures CapturedShape(FieldText, out[k]) {
      assert k in model && FieldAccepts(model[k], out[k]);
    }
  }

  /** Capture then restore is the identity on the arguments, whatever entities were collected on
      the way, so an unchanged context always yields an empty diff. */
  lemma CaptureRestoreRoundTrip(p: Captured, raw: Arguments, entities: Arguments)
    requires !p.tool.Unregistered? && Normalise(p.tool, raw) == Some(p.arguments)
    ensures var again := Normalise(p.tool, RestoreArguments(p.arguments, entities));
            && again == Some(p.arguments)
            && NoDrift(FieldText, PolicyTree(p), PolicyTree(Restored(p, p.tool, p.context, again.value)))
  {
    var filled := Fillers(RESTORABLE, entities);
    var extra := filled - p.arguments.Keys;
    assert filled + p.arguments == p.arguments + extra;
    NormaliseIdempotent(p.tool, raw, extra);
    NormalisedShape(p.tool, raw);
    DriftExact(p, p.tool, p.context, p.arguments);
  }
}
