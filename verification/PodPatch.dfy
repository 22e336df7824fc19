/**
 * The JSON patch that the webhook answers with (sysbox-admission/admission/patch.go), applied to
 * the pod's JSON document by the rules of sections 4.1 and 4.3 of RFC 6902.
 */
module PodPatch {

  import opened Wrappers
  import opened Admission

  /** JSON documents; a list of containers stands for its own JSON text. */
  datatype Json =
    | Null
    | Text(text: string)
    | Containers(items: seq<Container>)
    | Object(members: map<string, Json>)

  datatype Op = Add | Replace

  datatype Patch = Patch(op: Op, path: seq<string>, value: Json)

  // ---------------------------------------------------------------- RFC 6902

  /**
   * Both operations set the member that the path names; its parent must exist, and for "replace"
   * so must the member itself.
   */
  function Apply(doc: Json, op: Op, path: seq<string>, value: Json): Option<Json> {
    if path == [] then Some(value)
    else if !doc.Object? then None
    else if |path| == 1 then
      if op.Replace? && path[0] !in doc.members then None
      else Some(Object(doc.members[path[0] := value]))
    else if path[0] !in doc.members then None
    else
      var inner := Apply(doc.members[path[0]], op, path[1..], value);
      if inner.None? then None else Some(Object(doc.members[path[0] := inner.value]))
  }

  function ApplyAll(doc: Json, patches: seq<Patch>): Option<Json>
    decreases |patches|
  {
    if patches == [] then Some(doc)
    else
      var next := Apply(doc, patches[0].op, patches[0].path, patches[0].value);
      if next.None? then None else ApplyAll(next.value, patches[1..])
  }

  // ---------------------------------------------------------------- pods as documents

  function Member(doc: Json, name: string): Json {
    if doc.Object? && name in doc.members then doc.members[name] else Null
  }

  function Field(doc: Json, parent: string, name: string): Json {
    Member(Member(doc, parent), name)
  }

  function MapJson(m: Option<map<string, string>>): Json {
    if m.None? then Null else Object(map k | k in m.value :: Text(m.value[k]))
  }

  function ClassJson(c: Option<string>): Json {
    if c.None? then Null else Text(c.value)
  }

  /** A member decodes to the value of this JSON; a missing member, like null, to nil. */
  predicate DecodesToList(doc: Json, items: seq<Container>) {
    doc == Containers(items) || (doc == Null && items == [])
  }

  /** The document decodes to the pod, as far as the patch is concerned. */
  predicate Decodes(doc: Json, pod: Pod) {
    && Field(doc, "spec", "runtimeClassName") == ClassJson(pod.spec.runtimeClassName)
    && DecodesToList(Field(doc, "spec", "containers"), pod.spec.containers)
    && Field(doc, "metadata", "annotations") == MapJson(pod.annotations)
    && Field(doc, "metadata", "labels") == MapJson(pod.labels)
  }

  // ---------------------------------------------------------------- patchForPod

  function OpFor(wasNil: bool): Op {
    if wasNil then Add else Replace
  }

  const CLASS_PATH := ["spec", "runtimeClassName"]
  const CONTAINERS_PATH := ["spec", "containers"]
  const ANNOTATIONS_PATH := ["metadata", "annotations"]
  const LABELS_PATH := ["metadata", "labels"]

  method PatchForPod(original: Pod, mutated: Pod) returns (patches: seq<Patch>)
    ensures patches == Patches(original, mutated)
  {
    patches := [];
    if original.spec.runtimeClassName != mutated.spec.runtimeClassName {
      var op := Add;
      if original.spec.runtimeClassName.Some? {
        op := Replace;
      }
      patches := patches + [Patch(op, CLASS_PATH, ClassJson(mutated.spec.runtimeClassName))];
    }
    if original.spec.containers != mutated.spec.containers {
      patches := patches + [Patch(Replace, CONTAINERS_PATH, Containers(mutated.spec.containers))];
    }
    if original.annotations != mutated.annotations {
      var op := Add;
      if original.annotations.Some? {
        op := Replace;
      }
      patches := patches + [Patch(op, ANNOTATIONS_PATH, MapJson(mutated.annotations))];
    }
    if original.labels == mutated.labels {
      return;
    }
    var op := Add;
    if original.labels.Some? {
      op := Replace;
    }
    patches := patches + [Patch(op, LABELS_PATH, MapJson(mutated.labels))];
  }

  function When(changed: bool, p: Patch): seq<Patch> {
    if changed then [p] else []
  }

  function Patches(original: Pod, mutated: Pod): seq<Patch> {
    When(original.spec.runtimeClassName != mutated.spec.runtimeClassName,
         Patch(OpFor(original.spec.runtimeClassName.None?), CLASS_PATH, ClassJson(mutated.spec.runtimeClassName)))
    + When(original.spec.containers != mutated.spec.containers,
           Patch(Replace, CONTAINERS_PATH, Containers(mutated.spec.containers)))
    + When(original.annotations != mutated.annotations,
           Patch(OpFor(original.annotations.None?), ANNOTATIONS_PATH, MapJson(mutated.annotations)))
    + When(original.labels != mutated.labels,
           Patch(OpFor(original.labels.None?), LABELS_PATH, MapJson(mutated.labels)))
  }

  // ---------------------------------------------------------------- one operation

  predicate HasParent(doc: Json, parent: string) {
    doc.Object? && parent in doc.members && doc.members[parent].Object?
  }

  predicate HasMember(doc: Json, parent: string, name: string) {
    HasParent(doc, parent) && name in doc.members[parent].members
  }

  function Put(doc: Json, parent: string, name: string, value: Json): Json
    requires HasParent(doc, parent)
  {
    Object(doc.members[parent := Object(doc.members[parent].members[name := value])])
  }

  lemma ApplyPuts(doc: Json, op: Op, parent: string, name: string, value: Json)
    ensures Apply(doc, op, [parent, name], value)
         == if HasParent(doc, parent) && (op.Replace? ==> HasMember(doc, parent, name))
            then Some(Put(doc, parent, name, value)) else None
  {
    assert [parent, name][1..] == [name];
  }

  /** Nothing but that one member differs. */
  ghost predicate Framed(doc: Json, after: Json, parent: string, name: string) {
    && (forall p :: HasParent(after, p) <==> HasParent(doc, p))
    && (forall p :: p != parent ==> Member(after, p) == Member(doc, p))
    && (forall p, n :: (p != parent || n != name) ==>
          Field(after, p, n) == Field(doc, p, n) && (HasMember(after, p, n) <==> HasMember(doc, p, n)))
  }

  lemma PutSets(doc: Json, parent: string, name: string, value: Json)
    requires HasParent(doc, parent)
    ensures var after := Put(doc, parent, name, value);
            Framed(doc, after, parent, name) && Field(after, parent, name) == value
  {
  }

  lemma FieldPresent(doc: Json, parent: string, name: string)
    requires Field(doc, parent, name) != Null
    ensures HasMember(doc, parent, name)
  {
  }

  // ---------------------------------------------------------------- the whole patch

  lemma {:induction false} ApplyAllAppend(doc: Json, a: seq<Patch>, b: seq<Patch>)
    ensures ApplyAll(doc, a + b) == var mid := ApplyAll(doc, a); if mid.None? then None else ApplyAll(mid.value, b)
    decreases |a|
  {
    if a == [] {
      assert a + b == b;
    } else {
      assert (a + b)[1..] == a[1..] + b;
      var next := Apply(doc, a[0].op, a[0].path, a[0].value);
      if next.Some? {
        ApplyAllAppend(next.value, a[1..], b);
      }
    }
  }

  /** A conditional operation on one member: the document afterwards, if there is one. */
  function Step(doc: Json, changed: bool, op: Op, parent: string, name: string, value: Json): Option<Json> {
    if !changed then Some(doc)
    else if HasParent(doc, parent) && (op.Replace? ==> HasMember(doc, parent, name))
    then Some(Put(doc, parent, name, value))
    else None
  }

  lemma ApplyWhen(doc: Json, changed: bool, op: Op, parent: string, name: string, value: Json)
    ensures ApplyAll(doc, When(changed, Patch(op, [parent, name], value)))
         == Step(doc, changed, op, parent, name, value)
  {
    var p := Patch(op, [parent, name], value);
    ApplyPuts(doc, op, parent, name, value);
    if changed {
      assert When(changed, p)[1..] == [];
    }
  }

  function Bind(doc: Option<Json>, changed: bool, op: Op, parent: string, name: string, value: Json): Option<Json> {
    if doc.None? then None else Step(doc.value, changed, op, parent, name, value)
  }

  lemma ApplyThen(doc: Json, before: seq<Patch>, changed: bool, op: Op, parent: string, name: string, value: Json)
    ensures ApplyAll(doc, before + When(changed, Patch(op, [parent, name], value)))
         == Bind(ApplyAll(doc, before), changed, op, parent, name, value)
  {
    ApplyAllAppend(doc, before, When(changed, Patch(op, [parent, name], value)));
    var mid := ApplyAll(doc, before);
    if mid.Some? {
      ApplyWhen(mid.value, changed, op, parent, name, value);
    }
  }

  /** The document after each of the four conditional operations. */
  function AfterClass(doc: Json, o: Pod, m: Pod): Option<Json> {
    Step(doc, o.spec.runtimeClassName != m.spec.runtimeClassName, OpFor(o.spec.runtimeClassName.None?),
         "spec", "runtimeClassName", ClassJson(m.spec.runtimeClassName))
  }

  function AfterContainers(doc: Json, o: Pod, m: Pod): Option<Json> {
    Bind(AfterClass(doc, o, m), o.spec.containers != m.spec.containers, Replace,
         "spec", "containers", Containers(m.spec.containers))
  }

  function AfterAnnotations(doc: Json, o: Pod, m: Pod): Option<Json> {
    Bind(AfterContainers(doc, o, m), o.annotations != m.annotations, OpFor(o.annotations.None?),
         "metadata", "annotations", MapJson(m.annotations))
  }

  function AfterLabels(doc: Json, o: Pod, m: Pod): Option<Json> {
    Bind(AfterAnnotations(doc, o, m), o.labels != m.labels, OpFor(o.labels.None?),
         "metadata", "labels", MapJson(m.labels))
  }

  lemma PatchInSteps(doc: Json, o: Pod, m: Pod)
    ensures ApplyAll(doc, Patches(o, m)) == AfterLabels(doc, o, m)
  {
    var p1 := When(o.spec.runtimeClassName != m.spec.runtimeClassName,
                   Patch(OpFor(o.spec.runtimeClassName.None?), CLASS_PATH, ClassJson(m.spec.runtimeClassName)));
    var p2 := p1 + When(o.spec.containers != m.spec.containers,
                        Patch(Replace, CONTAINERS_PATH, Containers(m.spec.containers)));
    var p3 := p2 + When(o.annotations != m.annotations,
                        Patch(OpFor(o.annotations.None?), ANNOTATIONS_PATH, MapJson(m.annotations)));
    ApplyWhen(doc, o.spec.runtimeClassName != m.spec.runtimeClassName, OpFor(o.spec.runtimeClassName.None?),
              "spec", "runtimeClassName", ClassJson(m.spec.runtimeClassName));
    ApplyThen(doc, p1, o.spec.containers != m.spec.containers, Replace, "spec", "containers",
              Containers(m.spec.containers));
    ApplyThen(doc, p2, o.annotations != m.annotations, OpFor(o.annotations.None?), "metadata", "annotations",
              MapJson(m.annotations));
    ApplyThen(doc, p3, o.labels != m.labels, OpFor(o.labels.None?), "metadata", "labels", MapJson(m.labels));
  }

  /** An operation chosen by whether the member was null needs only the parent object. */
  lemma StepByNil(doc: Json, changed: bool, parent: string, name: string, value: Json)
    ensures var op := OpFor(Field(doc, parent, name) == Null);
            var after := Step(doc, changed, op, parent, name, value);
            && (after.Some? <==> (changed ==> HasParent(doc, parent)))
            && (after.Some? ==>
                  && Framed(doc, after.value, parent, name)
                  && Field(after.value, parent, name) == if changed then value else Field(doc, parent, name))
  {
    if Field(doc, parent, name) != Null {
      FieldPresent(doc, parent, name);
    }
    if HasParent(doc, parent) {
      PutSets(doc, parent, name, value);
    }
  }

  lemma StepReplace(doc: Json, changed: bool, parent: string, name: string, value: Json)
    ensures var after := Step(doc, changed, Replace, parent, name, value);
            && (after.Some? <==> (changed ==> HasMember(doc, parent, name)))
            && (after.Some? ==>
                  && Framed(doc, after.value, parent, name)
                  && Field(after.value, parent, name) == if changed then value else Field(doc, parent, name))
  {
    if HasParent(doc, parent) {
      PutSets(doc, parent, name, value);
    }
  }

  lemma MapJsonNil(m: Option<map<string, string>>)
    ensures MapJson(m) == Null <==> m.None?
  {
  }

  /** What the document must have for every operation of the patch to be defined. */
  predicate SpecPatchable(doc: Json, o: Pod, m: Pod) {
    && (o.spec.runtimeClassName != m.spec.runtimeClassName ==> HasParent(doc, "spec"))
    && (o.spec.containers != m.spec.containers ==> HasMember(doc, "spec", "containers"))
  }

  predicate Patchable(doc: Json, o: Pod, m: Pod) {
    && SpecPatchable(doc, o, m)
    && (o.annotations != m.annotations || o.labels != m.labels ==> HasParent(doc, "metadata"))
  }

  /** The document half-way: the spec is that of the mutated pod, the metadata as it was. */
  ghost predicate HalfWay(doc: Json, half: Json, m: Pod) {
    && Field(half, "spec", "runtimeClassName") == ClassJson(m.spec.runtimeClassName)
    && DecodesToList(Field(half, "spec", "containers"), m.spec.containers)
    && Field(half, "metadata", "annotations") == Field(doc, "metadata", "annotations")
    && Field(half, "metadata", "labels") == Field(doc, "metadata", "labels")
    && (HasParent(half, "metadata") <==> HasParent(doc, "metadata"))
  }

  lemma SpecHalf(doc: Json, o: Pod, m: Pod)
    requires Decodes(doc, o)
    ensures var half := AfterContainers(doc, o, m);
            && (half.Some? <==> SpecPatchable(doc, o, m))
            && (half.Some? ==> HalfWay(doc, half.value, m))
  {
    StepByNil(doc, o.spec.runtimeClassName != m.spec.runtimeClassName, "spec", "runtimeClassName",
              ClassJson(m.spec.runtimeClassName));
    var d1 := AfterClass(doc, o, m);
    if d1.Some? {
      StepReplace(d1.value, o.spec.containers != m.spec.containers, "spec", "containers",
                  Containers(m.spec.containers));
      assert HasMember(d1.value, "spec", "containers") <==> HasMember(doc, "spec", "containers");
      assert Field(d1.value, "spec", "containers") == Field(doc, "spec", "containers");
    }
  }

  lemma MetadataHalf(doc: Json, half: Json, o: Pod, m: Pod)
    requires Decodes(doc, o) && HalfWay(doc, half, m) && AfterContainers(doc, o, m) == Some(half)
    ensures var after := AfterLabels(doc, o, m);
            && (after.Some?
                <==> (o.annotations != m.annotations || o.labels != m.labels ==> HasParent(doc, "metadata")))
            && (after.Some? ==> Decodes(after.value, m))
  {
    MapJsonNil(o.annotations);
    MapJsonNil(o.labels);
    StepByNil(half, o.annotations != m.annotations, "metadata", "annotations", MapJson(m.annotations));
    var d3 := AfterAnnotations(doc, o, m);
    if d3.Some? {
      assert HasParent(d3.value, "metadata") <==> HasParent(half, "metadata");
      assert Field(d3.value, "metadata", "labels") == Field(half, "metadata", "labels");
      StepByNil(d3.value, o.labels != m.labels, "metadata", "labels", MapJson(m.labels));
    }
  }

  /**
   * For any two pods and any document of the first: the patch is defined exactly when the
   * members it replaces or extends are there, and its result is a document of the second.
   */
  lemma PatchYieldsMutated(doc: Json, o: Pod, m: Pod)
    requires Decodes(doc, o)
    ensures var r := ApplyAll(doc, Patches(o, m));
            && (r.Some? <==> Patchable(doc, o, m))
            && (r.Some? ==> Decodes(r.value, m))
  {
    PatchInSteps(doc, o, m);
    SpecHalf(doc, o, m);
    var half := AfterContainers(doc, o, m);
    if half.Some? {
      MetadataHalf(doc, half.value, o, m);
    }
  }

  /** Everything else in the document is as it was. */
  ghost predicate Untouched(doc: Json, after: Json) {
    && (forall p :: p != "spec" && p != "metadata" ==> Member(after, p) == Member(doc, p))
    && (forall n :: n != "runtimeClassName" && n != "containers" ==> Field(after, "spec", n) == Field(doc, "spec", n))
    && (forall n :: n != "annotations" && n != "labels" ==> Field(after, "metadata", n) == Field(doc, "metadata", n))
  }

  lemma StepUntouched(doc: Json, changed: bool, op: Op, parent: string, name: string, value: Json)
    requires [parent, name] in {CLASS_PATH, CONTAINERS_PATH, ANNOTATIONS_PATH, LABELS_PATH}
    ensures var after := Step(doc, changed, op, parent, name, value);
            after.Some? ==> Untouched(doc, after.value)
  {
    assert parent == [parent, name][0] && name == [parent, name][1];
    if HasParent(doc, parent) {
      PutSets(doc, parent, name, value);
    }
  }

  lemma PatchLeavesTheRest(doc: Json, o: Pod, m: Pod)
    ensures var r := ApplyAll(doc, Patches(o, m));
            r.Some? ==> Untouched(doc, r.value)
  {
    PatchInSteps(doc, o, m);
    var d1, d2, d3 := AfterClass(doc, o, m), AfterContainers(doc, o, m), AfterAnnotations(doc, o, m);
    StepUntouched(doc, o.spec.runtimeClassName != m.spec.runtimeClassName, OpFor(o.spec.runtimeClassName.None?),
                  "spec", "runtimeClassName", ClassJson(m.spec.runtimeClassName));
    if d1.Some? {
      StepUntouched(d1.value, o.spec.containers != m.spec.containers, Replace, "spec", "containers",
                    Containers(m.spec.containers));
    }
    if d2.Some? {
      StepUntouched(d2.value, o.annotations != m.annotations, OpFor(o.annotations.None?),
                    "metadata", "annotations", MapJson(m.annotations));
    }
    if d3.Some? {
      StepUntouched(d3.value, o.labels != m.labels, OpFor(o.labels.None?), "metadata", "labels", MapJson(m.labels));
    }
  }

  /** A pod without containers in its document cannot be given any: the patch is undefined. */
  lemma MissingContainersMember(o: Pod, m: Pod)
    requires o.spec.containers == [] && m.spec.containers != []
    requires o.spec.runtimeClassName.None? && o.annotations.None? && o.labels.None?
    ensures Decodes(Object(map[]), o) && ApplyAll(Object(map[]), Patches(o, m)).None?
  {
    PatchYieldsMutated(Object(map[]), o, m);
  }

  /**
   * The webhook's own patches are always defined: whatever the decoder and the document, an
   * admitted pod's patch turns the original's document into one of the mutated pod.
   */
  lemma MutationPatchApplies(decode: Decoder, image: string, doc: Json, pod: Pod)
    requires Decodes(doc, pod) && Mutated(decode, image, false, pod).Admitted?
    ensures var mutated := Mutated(decode, image, false, pod).pod;
            var r := ApplyAll(doc, Patches(pod, mutated));
            && r.Some? && Decodes(r.value, mutated) && Untouched(doc, r.value)
            && mutated == pod.(annotations := mutated.annotations,
                               spec := pod.spec.(containers := mutated.spec.containers))
  {
    var mutated := Mutated(decode, image, false, pod).pod;
    PatchYieldsMutated(doc, pod, mutated);
    PatchLeavesTheRest(doc, pod, mutated);
    if pod.annotations != mutated.annotations {
      FieldPresent(doc, "metadata", "annotations");
    }
    if pod.spec.containers != mutated.spec.containers {
      ConfiguredHasContainers(decode, image, pod);
      FieldPresent(doc, "spec", "containers");
    }
  }

  lemma ConfiguredHasContainers(decode: Decoder, image: string, pod: Pod)
    requires Mutated(decode, image, false, pod).Admitted? && Managed(pod.spec) && Configured(pod)
    ensures pod.spec.containers != []
  {
    var entries := Entries(decode, pod).value;
    assert NamedOk(pod.spec, entries[0]);
  }
}
