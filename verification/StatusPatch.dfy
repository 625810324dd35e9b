/** What a status patch does to the stored object, through its JSON form. */
module StatusPatch {
  import opened Wrappers
  import opened TunnelStatus
  import M = MergePatch

  /** Member names of the serialized object and of its status. */
  datatype Member =
    | StatusObject
    | ObservedGenerationField | ConditionsField | TunnelIDField | RstreamNameField | HostnameField
    | ForwardingAddressField | TargetField | AgentDeploymentField | LastErrorField

  const STATUS_FIELDS: set<Member> := {
    ObservedGenerationField, ConditionsField, TunnelIDField, RstreamNameField, HostnameField,
    ForwardingAddressField, TargetField, AgentDeploymentField, LastErrorField}

  datatype Value = Number(n: int) | Text(text: string) | List(conditions: seq<Condition>)

  type Json = M.Json<Member, Value>

  function Field(s: Status, f: Member): Value {
    match f
    case ObservedGenerationField => Number(s.observedGeneration)
    case ConditionsField => List(s.conditions)
    case TunnelIDField => Text(s.tunnelID)
    case RstreamNameField => Text(s.rstreamName)
    case HostnameField => Text(s.hostname)
    case ForwardingAddressField => Text(s.forwardingAddress)
    case TargetField => Text(s.target)
    case AgentDeploymentField => Text(s.agentDeployment)
    case _ => Text(s.lastError)
  }

  /** Every status field is declared `omitempty`. */
  predicate Omitted(v: Value) {
    v == Number(0) || v == Text("") || v == List([])
  }

  function Encode(s: Status): map<Member, Json> {
    map f | f in STATUS_FIELDS && !Omitted(Field(s, f)) :: M.Leaf(Field(s, f))
  }

  function EncodeObject(s: Status): map<Member, Json> {
    map[StatusObject := M.Obj(Encode(s))]
  }

  function NumberAt(m: map<Member, Json>, f: Member): int {
    if f in m && m[f].Leaf? && m[f].value.Number? then m[f].value.n else 0
  }

  function TextAt(m: map<Member, Json>, f: Member): string {
    if f in m && m[f].Leaf? && m[f].value.Text? then m[f].value.text else ""
  }

  function ListAt(m: map<Member, Json>, f: Member): seq<Condition> {
    if f in m && m[f].Leaf? && m[f].value.List? then m[f].value.conditions else []
  }

  function Decode(m: map<Member, Json>): Status {
    Status(
      NumberAt(m, ObservedGenerationField), ListAt(m, ConditionsField), TextAt(m, TunnelIDField),
      TextAt(m, RstreamNameField), TextAt(m, HostnameField), TextAt(m, ForwardingAddressField),
      TextAt(m, TargetField), TextAt(m, AgentDeploymentField), TextAt(m, LastErrorField))
  }

  function DecodeObject(j: Json): Status {
    if j.Obj? && StatusObject in j.members && j.members[StatusObject].Obj?
    then Decode(j.members[StatusObject].members)
    else EMPTY_STATUS
  }

  /** Member `f` of a serialized status `s`. */
  predicate Holds(m: map<Member, Json>, s: Status, f: Member) {
    && (f in m <==> !Omitted(Field(s, f)))
    && (f in m ==> m[f] == M.Leaf(Field(s, f)))
  }

  /** Serialization loses nothing, although empty fields are left out. */
  lemma DecodeReads(m: map<Member, Json>, s: Status)
    requires forall f | f in STATUS_FIELDS :: Holds(m, s, f)
    ensures Decode(m) == s
  {
    assert Holds(m, s, ObservedGenerationField) && Holds(m, s, ConditionsField) && Holds(m, s, TunnelIDField);
    assert Holds(m, s, RstreamNameField) && Holds(m, s, HostnameField) && Holds(m, s, ForwardingAddressField);
    assert Holds(m, s, TargetField) && Holds(m, s, AgentDeploymentField) && Holds(m, s, LastErrorField);
  }

  /** The stored status after the patch from `before` to `after`, computed on the JSON documents. */
  function PatchStored(stored: Status, before: Status, after: Status): Status {
    DecodeObject(M.Apply(M.Obj(EncodeObject(stored)), M.Diff(EncodeObject(before), EncodeObject(after))))
  }

  function Pick<T(==)>(stored: T, before: T, after: T): T {
    if before == after then stored else after
  }

  /** The same, field by field: a field the client left alone keeps its stored value. */
  function Merge(stored: Status, before: Status, after: Status): Status {
    Status(
      Pick(stored.observedGeneration, before.observedGeneration, after.observedGeneration),
      Pick(stored.conditions, before.conditions, after.conditions),
      Pick(stored.tunnelID, before.tunnelID, after.tunnelID),
      Pick(stored.rstreamName, before.rstreamName, after.rstreamName),
      Pick(stored.hostname, before.hostname, after.hostname),
      Pick(stored.forwardingAddress, before.forwardingAddress, after.forwardingAddress),
      Pick(stored.target, before.target, after.target),
      Pick(stored.agentDeployment, before.agentDeployment, after.agentDeployment),
      Pick(stored.lastError, before.lastError, after.lastError))
  }

  /** The JSON merge patch of the API server is the field-wise merge, whatever is stored by now. */
  lemma PatchIsMerge(stored: Status, before: Status, after: Status)
    ensures PatchStored(stored, before, after) == Merge(stored, before, after)
  {
    var r := M.Apply(M.Obj(Encode(stored)), M.Diff(Encode(before), Encode(after))).members;
    forall f | f in STATUS_FIELDS
      ensures Holds(r, Merge(stored, before, after), f)
    {
      FieldPatch(stored, before, after, f);
    }
    DecodeReads(r, Merge(stored, before, after));
    StatusMemberPatch(stored, before, after);
  }

  /** Applied to the very object that was read, the patch stores exactly what the client wanted. */
  lemma PatchRoundTrip(before: Status, after: Status)
    ensures PatchStored(before, before, after) == after
  {
    PatchIsMerge(before, before, after);
  }

  /** In the patch of the whole object the status is patched as a nested object, or left out. */
  lemma StatusMemberPatch(stored: Status, before: Status, after: Status)
    ensures PatchStored(stored, before, after)
         == Decode(M.Apply(M.Obj(Encode(stored)), M.Diff(Encode(before), Encode(after))).members)
  {
    var sub := M.Diff(Encode(before), Encode(after));
    var patch := M.Diff(EncodeObject(before), EncodeObject(after));
    assert EncodeObject(before)[StatusObject] == M.Obj(Encode(before));
    assert M.Change(EncodeObject(before), EncodeObject(after), StatusObject)
        == if sub.members == map[] then None else Some(sub);
    if sub.members == map[] {
      assert sub == M.Obj(map[]);
      M.EmptyPatch(M.Obj(Encode(stored)));
      assert StatusObject !in patch.members;
    } else {
      assert patch.members[StatusObject] == sub;
    }
  }

  /** One field of the patched status. */
  lemma FieldPatch(stored: Status, before: Status, after: Status, f: Member)
    requires f in STATUS_FIELDS
    ensures Holds(M.Apply(M.Obj(Encode(stored)), M.Diff(Encode(before), Encode(after))).members,
                  Merge(stored, before, after), f)
  {
    var a, b, c := Encode(before), Encode(after), Encode(stored);
    if Field(before, f) == Field(after, f) {
      M.Frame(c, a, b, f);
      assert Field(Merge(stored, before, after), f) == Field(stored, f);
    } else if f in b {
      assert M.Change(a, b, f) == Some(b[f]);
      assert M.Apply(if f in c then c[f] else M.Null, b[f]) == b[f];
      assert Field(Merge(stored, before, after), f) == Field(after, f);
    } else {
      OmittedIsUnique(before, after, f);
      assert M.Change(a, b, f) == Some(M.Null);
    }
  }

  lemma OmittedIsUnique(s: Status, t: Status, f: Member)
    ensures Omitted(Field(s, f)) && Omitted(Field(t, f)) ==> Field(s, f) == Field(t, f)
  {
  }
}
