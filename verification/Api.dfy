/** The Agent resource, as api/v1alpha1/agent_types.go declares it. */
module Api {
  import opened Prelude

  /** A resource quantity.  Two notations ("1Gi", "1024Mi") can denote one value, and it is the
      value that Cmp compares. */
  datatype Quantity = Quantity(value: int, notation: string)

  type Resources = map<string, Quantity>

  datatype AgentSpec = AgentSpec(
    image: string,
    credentialsSecretName: string,
    storageSize: Quantity,
    storageClassName: Option<string>,
    resources: Resources,
    pins: map<string, string>)

  datatype ConditionStatus = IsTrue | IsFalse | IsUnknown

  datatype Condition = Condition(
    kind: string,
    status: ConditionStatus,
    reason: string,
    message: string,
    observedGeneration: int,
    lastTransition: int)

  datatype AgentStatus = AgentStatus(
    conditions: seq<Condition>,
    observedGeneration: int,
    agent: string,
    epoch: int)

  const SYNCED := "Synced"
  const AVAILABLE := "Available"

  predicate FirstOf(conditions: seq<Condition>, kind: string, i: int) {
    && 0 <= i < |conditions| && conditions[i].kind == kind
    && forall j :: 0 <= j < i ==> conditions[j].kind != kind
  }

  /** The first condition of a kind, which is what meta.FindStatusCondition answers. */
  function FindCondition(conditions: seq<Condition>, kind: string): (r: Option<Condition>)
    ensures r.None? <==> forall c :: c in conditions ==> c.kind != kind
    ensures r.Some? ==> r.value in conditions && r.value.kind == kind
  {
    if conditions == [] then None
    else if conditions[0].kind == kind then Some(conditions[0])
    else FindCondition(conditions[1..], kind)
  }

  /** It is the first, and there is one exactly where something is found. */
  lemma {:induction false} FoundIsFirst(conditions: seq<Condition>, kind: string, i: int)
    requires FirstOf(conditions, kind, i)
    ensures FindCondition(conditions, kind) == Some(conditions[i])
  {
    if i > 0 {
      assert FirstOf(conditions[1..], kind, i - 1);
      FoundIsFirst(conditions[1..], kind, i - 1);
    }
  }

  lemma {:induction false} FirstExists(conditions: seq<Condition>, kind: string) returns (i: int)
    requires FindCondition(conditions, kind).Some?
    ensures FirstOf(conditions, kind, i)
  {
    if conditions[0].kind == kind {
      i := 0;
    } else {
      i := FirstExists(conditions[1..], kind);
      i := i + 1;
    }
  }
}
