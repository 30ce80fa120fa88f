/** The conditions of an Agent, and the two writers of its status. */
module Status {
  import opened Prelude
  import opened Api
  import opened MergePatch

  // --------------------------------------------------------------------- conditions

  /** meta.SetStatusCondition: one condition per kind, and a transition time that moves only with the status. */
  function SetCondition(cs: seq<Condition>, c: Condition, now: int): (r: seq<Condition>)
    ensures |cs| <= |r| <= |cs| + 1
  {
    if cs == [] then [c.(lastTransition := now)]
    else if cs[0].kind == c.kind then
      [c.(lastTransition := if cs[0].status == c.status then cs[0].lastTransition else now)] + cs[1..]
    else [cs[0]] + SetCondition(cs[1..], c, now)
  }

  /** Two conditions say the same, whenever the status last moved. */
  predicate Says(a: Condition, b: Condition) { a.(lastTransition := b.lastTransition) == b }

  predicate Reports(cs: seq<Condition>, c: Condition) {
    var f := FindCondition(cs, c.kind);
    f.Some? && Says(f.value, c)
  }

  lemma {:induction false} SetReports(cs: seq<Condition>, c: Condition, now: int)
    ensures Reports(SetCondition(cs, c, now), c)
    ensures forall k :: k != c.kind ==> FindCondition(SetCondition(cs, c, now), k) == FindCondition(cs, k)
  {
    if cs != [] && cs[0].kind != c.kind {
      SetReports(cs[1..], c, now);
      assert SetCondition(cs, c, now)[1..] == SetCondition(cs[1..], c, now);
    } else if cs != [] {
      assert SetCondition(cs, c, now)[1..] == cs[1..];
    }
  }

  /** The transition time after a set: that of the first condition of the kind while the status is the same, and now where
      the status moves or there was none. */
  lemma {:induction false} SetTransition(cs: seq<Condition>, c: Condition, now: int)
    ensures
      var before, after := FindCondition(cs, c.kind), FindCondition(SetCondition(cs, c, now), c.kind);
      after.Some? && after.value.lastTransition ==
        if before.Some? && before.value.status == c.status then before.value.lastTransition else now
  {
    if cs != [] && cs[0].kind != c.kind {
      SetTransition(cs[1..], c, now);
      assert SetCondition(cs, c, now)[1..] == SetCondition(cs[1..], c, now);
    }
  }

  /** Every other condition stays where it is, as it is. */
  lemma {:induction false} SetFrames(cs: seq<Condition>, c: Condition, now: int, i: nat)
    requires i < |cs| && (cs[i].kind != c.kind || exists j :: 0 <= j < i && cs[j].kind == c.kind)
    ensures SetCondition(cs, c, now)[i] == cs[i]
  {
    if i > 0 && cs[0].kind != c.kind {
      if cs[i].kind == c.kind {
        var j :| 0 <= j < i && cs[j].kind == c.kind;
        assert cs[1..][j - 1].kind == c.kind;
      }
      SetFrames(cs[1..], c, now, i - 1);
    }
  }

  /** Setting a condition changes nothing exactly when it is already reported, whatever the clock says. */
  lemma {:induction false} SetFixpoint(cs: seq<Condition>, c: Condition, now: int)
    ensures SetCondition(cs, c, now) == cs <==> Reports(cs, c)
  {
    if cs != [] {
      if cs[0].kind != c.kind {
        SetFixpoint(cs[1..], c, now);
        assert SetCondition(cs, c, now)[1..] == SetCondition(cs[1..], c, now);
      } else {
        assert SetCondition(cs, c, now)[0] == cs[0] ==> Says(cs[0], c);
      }
    }
  }

  // -------------------------------------------------------------------- on the wire

  function EncodeStatus(c: ConditionStatus): string {
    match c
    case IsTrue => "True"
    case IsFalse => "False"
    case IsUnknown => "Unknown"
  }

  function EncodeCondition(c: Condition): Json {
    Object(map["type" := Text(c.kind), "status" := Text(EncodeStatus(c.status)), "reason" := Text(c.reason),
               "message" := Text(c.message), "lastTransitionTime" := Number(c.lastTransition)]
           + if c.observedGeneration != 0 then map["observedGeneration" := Number(c.observedGeneration)] else map[])
  }

  function EncodeConditions(cs: seq<Condition>): Json {
    List(seq(|cs|, i requires 0 <= i < |cs| => EncodeCondition(cs[i])))
  }

  const CONDITIONS := "conditions"
  const GENERATION := "observedGeneration"
  const AGENT_FIELD := "agent"
  const EPOCH := "epoch"

  /** The status as JSON: empty fields are left out. */
  function Encode(st: AgentStatus): (j: Json)
    ensures j.Object?
  {
    Object((if st.conditions != [] then map[CONDITIONS := EncodeConditions(st.conditions)] else map[])
         + (if st.observedGeneration != 0 then map[GENERATION := Number(st.observedGeneration)] else map[])
         + (if st.agent != "" then map[AGENT_FIELD := Text(st.agent)] else map[])
         + (if st.epoch != 0 then map[EPOCH := Number(st.epoch)] else map[]))
  }

  /** One field of the encoding, where it is present. */
  function Field(st: AgentStatus, k: string): Option<Json> {
    if k == CONDITIONS && st.conditions != [] then Some(EncodeConditions(st.conditions))
    else if k == GENERATION && st.observedGeneration != 0 then Some(Number(st.observedGeneration))
    else if k == AGENT_FIELD && st.agent != "" then Some(Text(st.agent))
    else if k == EPOCH && st.epoch != 0 then Some(Number(st.epoch))
    else None
  }

  lemma EncodeFields(st: AgentStatus, k: string)
    ensures k in Encode(st).fields <==> Field(st, k).Some?
    ensures k in Encode(st).fields ==> Encode(st).fields[k] == Field(st, k).value
  {
    assert |CONDITIONS| == 10 && |GENERATION| == 18 && |AGENT_FIELD| == 5 && |EPOCH| == 5;
    assert AGENT_FIELD[0] != EPOCH[0];
  }

  /** The status on the wire, name by name: a field is there exactly where it is not empty. */
  lemma EncodedAs(st: AgentStatus)
    ensures At(Encode(st), "conditions") == if st.conditions == [] then None else Some(EncodeConditions(st.conditions))
    ensures At(Encode(st), "observedGeneration") ==
      if st.observedGeneration == 0 then None else Some(Number(st.observedGeneration))
    ensures At(Encode(st), "agent") == if st.agent == "" then None else Some(Text(st.agent))
    ensures At(Encode(st), "epoch") == if st.epoch == 0 then None else Some(Number(st.epoch))
  {
    EncodeFields(st, "conditions");
    EncodeFields(st, "observedGeneration");
    EncodeFields(st, "agent");
    EncodeFields(st, "epoch");
    assert |CONDITIONS| == 10 && |GENERATION| == 18 && |AGENT_FIELD| == 5 && |EPOCH| == 5 && AGENT_FIELD[0] != EPOCH[0];
  }

  /** A condition on the wire, name by name. */
  lemma ConditionEncodedAs(c: Condition)
    ensures At(EncodeCondition(c), "type") == Some(Text(c.kind)) && At(EncodeCondition(c), "reason") == Some(Text(c.reason))
    ensures At(EncodeCondition(c), "message") == Some(Text(c.message))
    ensures At(EncodeCondition(c), "lastTransitionTime") == Some(Number(c.lastTransition))
    ensures At(EncodeCondition(c), "status") ==
      Some(Text(if c.status.IsTrue? then "True" else if c.status.IsFalse? then "False" else "Unknown"))
    ensures At(EncodeCondition(c), "observedGeneration") ==
      if c.observedGeneration == 0 then None else Some(Number(c.observedGeneration))
  {
    assert |"type"| == 4 && |"status"| == 6 && |"reason"| == 6 && |"message"| == 7 && |"lastTransitionTime"| == 18;
    assert "status"[0] != "reason"[0] && "lastTransitionTime"[0] != "observedGeneration"[0] && |"observedGeneration"| == 18;
  }

  /** The constructor's patch, which names two fields. */
  function RecordPatch(agent: string, epoch: int): (j: Json)
    ensures j.Object?
  {
    Object(map[AGENT_FIELD := Text(agent), EPOCH := Number(epoch)])
  }

  // ---------------------------------------------------------------------- two writers

  /** What the reconciler holds between its read and its patch. */
  datatype InFlight = Nothing | Deciding(held: AgentStatus, decided: AgentStatus)

  /** The stored status, what the reconciler has in flight, and the last write each of the two made. */
  datatype Shared = Shared(
    stored: Json,
    flight: InFlight,
    conditions: seq<Condition>,
    generation: int,
    agent: string,
    epoch: int)

  datatype Write =
    | Read(held: AgentStatus, conditions: seq<Condition>, generation: int)
    | Patch(outcome: Outcome)
    | Record(agent: string, epoch: int, outcome: Outcome)
    | Restart

  /** One step of either writer.  `Read` is the reconciler reading the object and deciding; `Patch` is writeStatus, which
      sends nothing where nothing was decided anew; `Record` is the constructor's patch, which the CRD refuses for an
      empty agent or an epoch below 1. */
  function Stepped(s: Shared, w: Write): Shared {
    match w
    case Read(held, conditions, generation) =>
      if s.flight.Nothing? && s.stored == Encode(held)
      then s.(flight := Deciding(held, held.(conditions := conditions, observedGeneration := generation)))
      else s
    case Patch(outcome) =>
      if s.flight.Nothing? then s
      else if s.flight.held == s.flight.decided || outcome.Failed? then s.(flight := Nothing)
      else s.(stored := Apply(s.stored, Diff(Encode(s.flight.held), Encode(s.flight.decided))),
              conditions := s.flight.decided.conditions,
              generation := s.flight.decided.observedGeneration,
              flight := Nothing)
    case Record(agent, epoch, outcome) =>
      if outcome.Failed? || agent == "" || epoch < 1 then s
      else s.(stored := Apply(s.stored, RecordPatch(agent, epoch)), agent := agent, epoch := epoch)
    case Restart => s.(flight := Nothing)
  }

  function StepAll(s: Shared, ws: seq<Write>): Shared
    decreases |ws|
  {
    if ws == [] then s else Stepped(StepAll(s, ws[..|ws| - 1]), ws[|ws| - 1])
  }

  function LastWrites(s: Shared): AgentStatus { AgentStatus(s.conditions, s.generation, s.agent, s.epoch) }

  ghost predicate Consistent(s: Shared) {
    && s.stored == Encode(LastWrites(s))
    && (s.flight.Deciding? ==>
          && s.flight.held.conditions == s.conditions && s.flight.held.observedGeneration == s.generation
          && s.flight.decided == s.flight.held.(conditions := s.flight.decided.conditions,
                                                observedGeneration := s.flight.decided.observedGeneration))
  }

  lemma ConditionInjective(a: Condition, b: Condition)
    requires EncodeCondition(a) == EncodeCondition(b)
    ensures a == b
  {
    var f, g := EncodeCondition(a).fields, EncodeCondition(b).fields;
    assert |"type"| == 4 && |"status"| == 6 && |"reason"| == 6 && |"message"| == 7 && |"lastTransitionTime"| == 18;
    assert "status"[0] != "reason"[0] && "lastTransitionTime"[0] != GENERATION[0] && |GENERATION| == 18;
    assert f["type"] == Text(a.kind) && g["type"] == Text(b.kind);
    assert f["status"] == Text(EncodeStatus(a.status)) && g["status"] == Text(EncodeStatus(b.status));
    assert f["reason"] == Text(a.reason) && g["reason"] == Text(b.reason);
    assert f["message"] == Text(a.message) && g["message"] == Text(b.message);
    assert f["lastTransitionTime"] == Number(a.lastTransition) && g["lastTransitionTime"] == Number(b.lastTransition);
    assert GENERATION in f <==> a.observedGeneration != 0;
    assert GENERATION in g <==> b.observedGeneration != 0;
    StatusTextInjective(a.status, b.status);
  }

  lemma StatusTextInjective(a: ConditionStatus, b: ConditionStatus)
    requires EncodeStatus(a) == EncodeStatus(b)
    ensures a == b
  {
    assert |"True"| == 4 && |"False"| == 5 && |"Unknown"| == 7;
  }

  lemma ConditionsInjective(a: seq<Condition>, b: seq<Condition>)
    requires EncodeConditions(a) == EncodeConditions(b)
    ensures a == b
  {
    var x, y := EncodeConditions(a).items, EncodeConditions(b).items;
    assert |x| == |a| && |y| == |b|;
    forall i | 0 <= i < |a| ensures a[i] == b[i] {
      assert x[i] == EncodeCondition(a[i]) && y[i] == EncodeCondition(b[i]);
      ConditionInjective(a[i], b[i]);
    }
  }

  lemma SameField(a: AgentStatus, b: AgentStatus, k: string)
    requires Encode(a) == Encode(b)
    ensures Field(a, k) == Field(b, k)
  {
    EncodeFields(a, k);
    EncodeFields(b, k);
  }

  lemma EncodeInjective(a: AgentStatus, b: AgentStatus)
    requires Encode(a) == Encode(b)
    ensures a == b
  {
    SameField(a, b, CONDITIONS);
    SameField(a, b, GENERATION);
    SameField(a, b, AGENT_FIELD);
    SameField(a, b, EPOCH);
    assert |CONDITIONS| == 10 && |GENERATION| == 18 && |AGENT_FIELD| == 5 && |EPOCH| == 5 && AGENT_FIELD[0] != EPOCH[0];
    if a.conditions != [] && b.conditions != [] { ConditionsInjective(a.conditions, b.conditions); }
  }

  /** A document that holds, at every key, the encoded field of `st`, is the encoding of `st`. */
  lemma EncodedByFields(j: Json, st: AgentStatus)
    requires j.Object?
    requires forall k :: k in j.fields <==> Field(st, k).Some?
    requires forall k :: k in j.fields ==> j.fields[k] == Field(st, k).value
    ensures j == Encode(st)
  {
    forall k ensures (k in j.fields <==> k in Encode(st).fields) && (k in j.fields ==> j.fields[k] == Encode(st).fields[k]) {
      EncodeFields(st, k);
    }
  }

  /** The merge patch from what was read to what was decided, on the status as it is now: a field the reconcile did not move stays. */
  function Merged(held: AgentStatus, decided: AgentStatus, now: AgentStatus): AgentStatus {
    now.(conditions := if decided.conditions != held.conditions then decided.conditions else now.conditions,
         observedGeneration :=
           if decided.observedGeneration != held.observedGeneration then decided.observedGeneration
           else now.observedGeneration)
  }

  /** The patch on the wire does exactly that, whatever the object has become since it was read. */
  lemma PatchWrites(now: AgentStatus, held: AgentStatus, decided: AgentStatus)
    requires decided.agent == held.agent && decided.epoch == held.epoch
    ensures Apply(Encode(now), Diff(Encode(held), Encode(decided))) == Encode(Merged(held, decided, now))
  {
    var r := Apply(Encode(now), Diff(Encode(held), Encode(decided)));
    var st := Merged(held, decided, now);
    forall k ensures (k in r.fields <==> Field(st, k).Some?) && (k in r.fields ==> r.fields[k] == Field(st, k).value) {
      PatchedField(now, held, decided, k);
      assert At(r, k) == Field(st, k);
    }
    EncodedByFields(r, st);
  }

  lemma PatchedField(now: AgentStatus, held: AgentStatus, decided: AgentStatus, k: string)
    requires decided.agent == held.agent && decided.epoch == held.epoch
    ensures Apply(Encode(now), Diff(Encode(held), Encode(decided))).Object?
    ensures At(Apply(Encode(now), Diff(Encode(held), Encode(decided))), k) == Field(Merged(held, decided, now), k)
  {
    EncodeFields(now, k);
    EncodeFields(held, k);
    EncodeFields(decided, k);
    DiffAt(Encode(held), Encode(decided), Encode(now), k);
    MergedField(now, held, decided, k);
  }

  lemma MergedField(now: AgentStatus, held: AgentStatus, decided: AgentStatus, k: string)
    requires decided.agent == held.agent && decided.epoch == held.epoch
    ensures Field(Merged(held, decided, now), k)
         == if Field(held, k) == Field(decided, k) then Field(now, k) else Field(decided, k)
  {
    FieldMoves(held, decided, k);
  }

  /** A field of the encoding differs exactly when the field itself does. */
  lemma FieldMoves(a: AgentStatus, b: AgentStatus, k: string)
    ensures k == CONDITIONS ==> (Field(a, k) == Field(b, k) <==> a.conditions == b.conditions)
    ensures k == GENERATION ==> (Field(a, k) == Field(b, k) <==> a.observedGeneration == b.observedGeneration)
  {
    assert |CONDITIONS| == 10 && |GENERATION| == 18;
    if a.conditions != [] && b.conditions != [] && EncodeConditions(a.conditions) == EncodeConditions(b.conditions) {
      ConditionsInjective(a.conditions, b.conditions);
    }
  }

  lemma RecordWrites(now: AgentStatus, agent: string, epoch: int)
    requires agent != "" && epoch >= 1
    ensures Apply(Encode(now), RecordPatch(agent, epoch)) == Encode(now.(agent := agent, epoch := epoch))
  {
    var r, st := Apply(Encode(now), RecordPatch(agent, epoch)), now.(agent := agent, epoch := epoch);
    assert AGENT_FIELD[0] != EPOCH[0] && |AGENT_FIELD| == 5 && |EPOCH| == 5 && |CONDITIONS| == 10 && |GENERATION| == 18;
    forall k ensures (k in r.fields <==> Field(st, k).Some?) && (k in r.fields ==> r.fields[k] == Field(st, k).value) {
      EncodeFields(now, k);
      if k != AGENT_FIELD && k != EPOCH {
        ApplyFrames(Encode(now), RecordPatch(agent, epoch), k);
      } else {
        ApplySets(Encode(now), RecordPatch(agent, epoch), k);
      }
    }
    EncodedByFields(r, st);
  }

  lemma PatchConsistent(s: Shared, outcome: Outcome)
    requires Consistent(s)
    ensures Consistent(Stepped(s, Patch(outcome)))
  {
    if s.flight.Deciding? {
      PatchWrites(LastWrites(s), s.flight.held, s.flight.decided);
      assert Merged(s.flight.held, s.flight.decided, LastWrites(s)) == LastWrites(s).(
        conditions := s.flight.decided.conditions, observedGeneration := s.flight.decided.observedGeneration);
    }
  }

  lemma RecordConsistent(s: Shared, agent: string, epoch: int, outcome: Outcome)
    requires Consistent(s)
    ensures Consistent(Stepped(s, Record(agent, epoch, outcome)))
  {
    if agent != "" && epoch >= 1 { RecordWrites(LastWrites(s), agent, epoch); }
  }

  lemma StepConsistent(s: Shared, w: Write)
    requires Consistent(s)
    ensures Consistent(Stepped(s, w))
  {
    match w
    case Read(held, conditions, generation) =>
      if s.flight.Nothing? && s.stored == Encode(held) { EncodeInjective(held, LastWrites(s)); }
    case Patch(outcome) => PatchConsistent(s, outcome);
    case Record(agent, epoch, outcome) => RecordConsistent(s, agent, epoch, outcome);
    case Restart =>
  }

  /** Two writers lose nothing.  Under every interleaving of the reconciler's read, decision and patch with the
      constructor's patches, and across restarts, what is stored is each writer's last write of its own fields. */
  lemma {:induction false} TwoWritersLoseNothing(s: Shared, ws: seq<Write>)
    requires Consistent(s)
    ensures var t := StepAll(s, ws);
      Consistent(t) && t.stored == Encode(AgentStatus(t.conditions, t.generation, t.agent, t.epoch))
    decreases |ws|
  {
    if ws != [] {
      TwoWritersLoseNothing(s, ws[..|ws| - 1]);
      StepConsistent(StepAll(s, ws[..|ws| - 1]), ws[|ws| - 1]);
    }
  }
}
