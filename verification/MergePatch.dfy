/** JSON merge patches (section 2 of RFC 7396) and the client's way to compute one. */
module MergePatch {
  import opened Wrappers

  /** A JSON value as a merge patch sees it: every value that is not an object is opaque. */
  datatype Json<K(==), V(==)> = Null | Leaf(value: V) | Obj(members: map<K, Json<K, V>>)

  /** No object member is null, at any depth. */
  predicate NullFree<K, V>(j: Json<K, V>) {
    match j
    case Null => false
    case Leaf(_) => true
    case Obj(m) => forall k | k in m :: NullFree(m[k])
  }

  /** The MergePatch function of section 2 of RFC 7396; an absent target is passed as null. */
  function Apply<K, V>(target: Json<K, V>, patch: Json<K, V>): Json<K, V>
    decreases patch
  {
    if !patch.Obj? then patch
    else
      var present := if target.Obj? then target.members else map[];
      Obj(map k | k in present.Keys + patch.members.Keys && (k in patch.members ==> !patch.members[k].Null?) ::
            if k in patch.members
            then Apply(if k in present then present[k] else Null, patch.members[k])
            else present[k])
  }

  /** What the patch from `a` to `b` says about member `k`, if anything. */
  function Change<K, V>(a: map<K, Json<K, V>>, b: map<K, Json<K, V>>, k: K): Option<Json<K, V>>
    requires k in a.Keys + b.Keys
    decreases Obj(b), 0
  {
    if k !in b then Some(Null)
    else if k !in a then Some(b[k])
    else if a[k].Obj? && b[k].Obj? then
      var sub := Diff(a[k].members, b[k].members);
      if sub.members == map[] then None else Some(sub)
    else if a[k] == b[k] then None
    else Some(b[k])
  }

  /** The patch a client computes from the object it read and the object it mutated. */
  function Diff<K, V>(a: map<K, Json<K, V>>, b: map<K, Json<K, V>>): (patch: Json<K, V>)
    ensures patch.Obj?
    decreases Obj(b), 1
  {
    Obj(map k | k in a.Keys + b.Keys && Change(a, b, k).Some? :: Change(a, b, k).value)
  }

  lemma {:induction false} ApplyToOther<K, V>(target: Json<K, V>, j: Json<K, V>)
    requires !target.Obj? && NullFree(j)
    ensures Apply(target, j) == j
    decreases j
  {
    if j.Obj? {
      forall k | k in j.members
        ensures Apply(Null, j.members[k]) == j.members[k]
      {
        ApplyToOther(Null, j.members[k]);
      }
    }
  }

  /** Round trip: the computed patch turns what was read into what was wanted. */
  lemma {:induction false} RoundTrip<K, V>(a: map<K, Json<K, V>>, b: map<K, Json<K, V>>)
    requires NullFree(Obj(b))
    ensures Apply(Obj(a), Diff(a, b)) == Obj(b)
    decreases Obj(b)
  {
    var patch := Diff(a, b).members;
    var r := Apply(Obj(a), Diff(a, b)).members;
    forall k | k in a.Keys + b.Keys
      ensures k in r <==> k in b
      ensures k in b ==> r[k] == b[k]
    {
      assert k in patch <==> Change(a, b, k).Some?;
      if k in b {
        assert NullFree(b[k]);
        if k in a && a[k].Obj? && b[k].Obj? {
          RoundTrip(a[k].members, b[k].members);
          EmptyPatch(a[k]);
        } else if b[k].Obj? && (k in a ==> !a[k].Obj?) {
          ApplyToOther(if k in a then a[k] else Null, b[k]);
        } else {
          assert Apply(if k in a then a[k] else Null, b[k]) == b[k];
        }
      }
    }
    assert r == b;
  }

  lemma EmptyPatch<K, V>(target: Json<K, V>)
    requires target.Obj?
    ensures Apply(target, Obj(map[])) == target
  {
    assert Apply(target, Obj(map[])).members == target.members;
  }

  /** Frame: on any stored object the patch touches only members whose value the client changed. */
  lemma Frame<K, V>(stored: map<K, Json<K, V>>, a: map<K, Json<K, V>>, b: map<K, Json<K, V>>, k: K)
    requires k in a <==> k in b
    requires k in b ==> a[k] == b[k]
    ensures k !in Diff(a, b).members
    ensures k in Apply(Obj(stored), Diff(a, b)).members <==> k in stored
    ensures k in stored ==> Apply(Obj(stored), Diff(a, b)).members[k] == stored[k]
  {
    if k in b && b[k].Obj? {
      SelfDiff(b[k].members);
    }
  }

  lemma {:induction false} SelfDiff<K, V>(a: map<K, Json<K, V>>)
    ensures Diff(a, a).members == map[]
    decreases Obj(a)
  {
    forall k | k in a
      ensures Change(a, a, k).None?
    {
      if a[k].Obj? {
        SelfDiff(a[k].members);
      }
    }
  }
}
