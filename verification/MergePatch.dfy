/** JSON Merge Patch, section 2 of RFC 7396, as the Kubernetes API applies it. */
module MergePatch {
  import opened Prelude
  import opened Json

  function Patched(target: Json, patch: Json): Json
    decreases patch
  {
    if !patch.Obj? then patch else
      var was := FieldsOf(target);
      var merged := map k | k in patch.fields && patch.fields[k] != Null ::
        Patched(if k in was then was[k] else Null, patch.fields[k]);
      Obj((was - patch.fields.Keys) + merged)
  }

  /** Field by field: removed by null, merged where the patch speaks, untouched elsewhere. */
  lemma {:induction false} PatchedField(target: Json, patch: Json, k: string)
    requires patch.Obj?
    ensures Get(Patched(target, patch), k) ==
      if k !in patch.fields then Get(target, k)
      else if patch.fields[k] == Null then None
      else Some(Patched(OrElse(Get(target, k), Null), patch.fields[k]))
  {
  }

  /** Applying the same patch twice changes nothing more. */
  lemma {:induction false} PatchedTwice(target: Json, patch: Json)
    ensures Patched(Patched(target, patch), patch) == Patched(target, patch)
    decreases patch
  {
    if patch.Obj? {
      var once := Patched(target, patch);
      var twice := Patched(once, patch);
      forall k | k in patch.fields && patch.fields[k] != Null
        ensures Patched(OrElse(Get(once, k), Null), patch.fields[k]) == Patched(OrElse(Get(target, k), Null), patch.fields[k])
      {
        PatchedField(target, patch, k);
        PatchedTwice(OrElse(Get(target, k), Null), patch.fields[k]);
      }
      forall k
        ensures Get(twice, k) == Get(once, k)
      {
        PatchedField(target, patch, k);
        PatchedField(once, patch, k);
      }
      SameFields(twice.fields, once.fields);
    }
  }

  lemma {:induction false} SameFields(a: map<string, Json>, b: map<string, Json>)
    requires forall k :: Get(Obj(a), k) == Get(Obj(b), k)
    ensures a == b
  {
    forall k
      ensures k in a <==> k in b
      ensures k in a && k in b ==> a[k] == b[k]
    {
      assert Get(Obj(a), k) == Get(Obj(b), k);
    }
  }
}
