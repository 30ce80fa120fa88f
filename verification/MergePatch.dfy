/** JSON merge patch, section 2 of RFC 7396, and the patch computed between two documents. */
module MergePatch {
  import opened Prelude

  datatype Json =
    | Null
    | Number(n: int)
    | Text(s: string)
    | List(items: seq<Json>)
    | Object(fields: map<string, Json>)

  /** MergePatch(Target, Patch) of the RFC.  An absent target is `Null`, which is not an object. */
  function Apply(target: Json, patch: Json): Json
    decreases patch
  {
    if !patch.Object? then patch
    else
      var base := Fields(target);
      Object(map k | k in base.Keys + patch.fields.Keys && !(k in patch.fields && patch.fields[k].Null?) ::
        if k in patch.fields then Apply(if k in base then base[k] else Null, patch.fields[k]) else base[k])
  }

  function Fields(j: Json): map<string, Json> {
    if j.Object? then j.fields else map[]
  }

  /** The patch taking `a` to `b`: what `b` adds or changes, and `null` for what it drops. */
  function Diff(a: Json, b: Json): Json
    requires a.Object? && b.Object?
    decreases b
  {
    Object(map k | k in a.fields.Keys + b.fields.Keys && Differs(a, b, k) ::
      if k !in b.fields then Null
      else if k in a.fields && a.fields[k].Object? && b.fields[k].Object? then Diff(a.fields[k], b.fields[k])
      else b.fields[k])
  }

  predicate Differs(a: Json, b: Json, k: string)
    requires a.Object? && b.Object?
  {
    if k in a.fields && k in b.fields then a.fields[k] != b.fields[k] else k in a.fields || k in b.fields
  }

  /** No object in the document holds a null: nothing a patch could not express. */
  predicate NullFree(j: Json)
    decreases j
  {
    j.Object? ==> forall k :: k in j.fields ==> !j.fields[k].Null? && NullFree(j.fields[k])
  }

  /** A document patched onto nothing is itself. */
  lemma {:induction false} ApplyToNothing(target: Json, patch: Json)
    requires NullFree(patch) && !target.Object?
    ensures Apply(target, patch) == patch
    decreases patch
  {
    if patch.Object? {
      forall k | k in patch.fields ensures Apply(Null, patch.fields[k]) == patch.fields[k] {
        ApplyToNothing(Null, patch.fields[k]);
      }
    }
  }

  /** Diff then apply.  A patch computed from `a` to `b` takes `a` to `b`. */
  lemma {:induction false} DiffApplies(a: Json, b: Json)
    requires a.Object? && b.Object? && NullFree(b)
    ensures Apply(a, Diff(a, b)) == b
    decreases b
  {
    var d, r := Diff(a, b), Apply(a, Diff(a, b));
    forall k | k in b.fields ensures k in r.fields && r.fields[k] == b.fields[k] {
      if k in a.fields && a.fields[k] != b.fields[k] && a.fields[k].Object? && b.fields[k].Object? {
        DiffApplies(a.fields[k], b.fields[k]);
      } else if k in d.fields {
        ReplacedWhole(if k in a.fields then a.fields[k] else Null, b.fields[k]);
      }
    }
  }

  lemma ReplacedWhole(old_: Json, new_: Json)
    requires NullFree(new_) && (!old_.Object? || !new_.Object?)
    ensures Apply(old_, new_) == new_
  {
    if new_.Object? { ApplyToNothing(old_, new_); }
  }

  /** A patch touches no field it does not name, whatever document it lands on. */
  lemma ApplyFrames(target: Json, patch: Json, k: string)
    requires target.Object? && patch.Object? && k !in patch.fields
    ensures var r := Apply(target, patch);
      r.Object? && (k in r.fields <==> k in target.fields) && (k in r.fields ==> r.fields[k] == target.fields[k])
  {
  }

  /** A plain value a patch names is what the document has there afterwards. */
  lemma ApplySets(target: Json, patch: Json, k: string)
    requires patch.Object? && k in patch.fields && !patch.fields[k].Object? && !patch.fields[k].Null?
    ensures var r := Apply(target, patch); r.Object? && k in r.fields && r.fields[k] == patch.fields[k]
  {
    var base := Fields(target);
    assert Apply(if k in base then base[k] else Null, patch.fields[k]) == patch.fields[k];
  }

  /** A field a patch nulls is gone afterwards. */
  lemma ApplyRemoves(target: Json, patch: Json, k: string)
    requires patch.Object? && k in patch.fields && patch.fields[k].Null?
    ensures var r := Apply(target, patch); r.Object? && k !in r.fields
  {
  }

  /** So a patch computed between two readings that agree on a field leaves that field as the document now has it. */
  lemma DiffFrames(a: Json, b: Json, now: Json, k: string)
    requires a.Object? && b.Object? && now.Object? && !Differs(a, b, k)
    ensures var r := Apply(now, Diff(a, b));
      r.Object? && (k in r.fields <==> k in now.fields) && (k in r.fields ==> r.fields[k] == now.fields[k])
  {
    ApplyFrames(now, Diff(a, b), k);
  }

  /** And where the document still has what was read there, the field becomes what was decided. */
  lemma DiffDecides(a: Json, b: Json, now: Json, k: string)
    requires a.Object? && b.Object? && now.Object? && NullFree(b)
    requires k in now.fields <==> k in a.fields
    requires k in a.fields ==> now.fields[k] == a.fields[k]
    ensures var r := Apply(now, Diff(a, b));
      r.Object? && (k in r.fields <==> k in b.fields) && (k in r.fields ==> r.fields[k] == b.fields[k])
  {
    var d := Diff(a, b);
    if k in d.fields && k in b.fields {
      if k in a.fields && a.fields[k].Object? && b.fields[k].Object? {
        DiffApplies(a.fields[k], b.fields[k]);
      } else {
        ReplacedWhole(if k in a.fields then a.fields[k] else Null, b.fields[k]);
      }
    }
  }

  /** One field of a document. */
  function At(j: Json, k: string): Option<Json> {
    if j.Object? && k in j.fields then Some(j.fields[k]) else None
  }

  /** Where a field is decided as a plain value, it becomes what was decided if the decision moved it, and otherwise stays
      as the document now has it, whatever was read there. */
  lemma DiffAt(a: Json, b: Json, now: Json, k: string)
    requires a.Object? && b.Object? && now.Object?
    requires k in b.fields ==> !b.fields[k].Object? && !b.fields[k].Null?
    ensures Apply(now, Diff(a, b)).Object?
    ensures At(Apply(now, Diff(a, b)), k) == if At(a, k) == At(b, k) then At(now, k) else At(b, k)
  {
    if !Differs(a, b, k) {
      DiffFrames(a, b, now, k);
    } else if k in b.fields {
      ApplySets(now, Diff(a, b), k);
    } else {
      ApplyRemoves(now, Diff(a, b), k);
    }
  }

  /** What a patch leaves of a field, in full: nothing where it says null, the field patched in turn where it names one, and
      the field itself where it does not. */
  lemma ApplyAt(target: Json, patch: Json, k: string)
    requires patch.Object?
    ensures Apply(target, patch).Object?
    ensures At(Apply(target, patch), k) ==
      if At(patch, k) == Some(Null) then None
      else if At(patch, k).Some? then Some(Apply(if At(target, k).Some? then At(target, k).value else Null, At(patch, k).value))
      else At(target, k)
  {
  }

  /** Patching twice with one patch is patching once. */
  lemma {:induction false} ApplyTwice(target: Json, patch: Json)
    ensures Apply(Apply(target, patch), patch) == Apply(target, patch)
    decreases patch
  {
    if patch.Object? {
      var once := Apply(target, patch);
      var twice := Apply(once, patch);
      forall k ensures At(twice, k) == At(once, k) {
        ApplyAt(target, patch, k);
        ApplyAt(once, patch, k);
        if k in patch.fields && !patch.fields[k].Null? {
          ApplyTwice(if At(target, k).Some? then At(target, k).value else Null, patch.fields[k]);
        }
      }
      SameFields(once, twice);
    }
  }

  lemma SameFields(a: Json, b: Json)
    requires a.Object? && b.Object? && forall k :: At(a, k) == At(b, k)
    ensures a == b
  {
    forall k ensures (k in a.fields <==> k in b.fields) && (k in a.fields ==> a.fields[k] == b.fields[k]) {
      assert At(a, k) == At(b, k);
    }
  }

  /** Patches that name no field in common leave the same whichever lands first. */
  lemma ApplyInEitherOrder(target: Json, p: Json, q: Json)
    requires target.Object? && p.Object? && q.Object? && p.fields.Keys !! q.fields.Keys
    ensures Apply(Apply(target, p), q) == Apply(Apply(target, q), p)
  {
    var a, b := Apply(Apply(target, p), q), Apply(Apply(target, q), p);
    forall k ensures At(a, k) == At(b, k) {
      ApplyAt(target, p, k);
      ApplyAt(target, q, k);
      ApplyAt(Apply(target, p), q, k);
      ApplyAt(Apply(target, q), p, k);
      assert k !in p.fields || k !in q.fields;
    }
    SameFields(a, b);
  }
}
