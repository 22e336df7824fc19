/**
 * The admission webhook for persistent root filesystem layers: validation of the pod annotation
 * and the mutation that adds the sidecar (sysbox-admission/admission/mutate.go, sidecar.go).
 *
 * Decoding the annotation's JSON text is a parameter; error messages are not modelled.
 */
module Admission {

  import opened Text
  import opened Wrappers
  import opened LexicalPath
  import opened RootfsPaths

  const LAYER_ANNOTATION := "sysbox/rootfs-rw-layer"
  const VOLUME_INIT_ANNOTATION := "sysbox/volume-init"
  const SYSBOX_RUNC := "sysbox-runc"
  const SYSBOX_RUNC_LITE := "sysbox-runc-lite"
  const SIDECAR_NAME := "sysbox-rootfs"

  /** /var/lib/sysbox/rootfs-rw-volume */
  const SIDECAR_NAMES := ["var", "lib", "sysbox", "rootfs-rw-volume"]
  const SIDECAR_PATH := Render(true, SIDECAR_NAMES)

  /** The built-in special paths, by their names. */
  const BUILTIN_NAMES := [
    ["var", "lib", "docker"],
    ["var", "lib", "kubelet"],
    ["var", "lib", "k0s"],
    ["var", "lib", "rancher", "k3s"],
    ["var", "lib", "rancher", "rke2"],
    ["var", "lib", "buildkit"],
    ["var", "lib", "containerd", "io.containerd.snapshotter.v1.overlayfs"]]

  datatype Entry = Entry(name: string, volumeName: string, path: string,
                         persistentSpecialMounts: bool, specialPath: seq<string>)

  datatype VolumeMount = VolumeMount(name: string, mountPath: string)

  /** `rest` stands for all the fields that the webhook never looks at, zero if they are unset. */
  datatype Container = Container(name: string, image: string, volumeMounts: seq<VolumeMount>, rest: nat)

  datatype Volume = Volume(name: string, claim: Option<string>)

  datatype Spec = Spec(runtimeClassName: Option<string>, containers: seq<Container>, volumes: seq<Volume>, rest: nat)

  /** The maps are absent when they are nil. */
  datatype Pod = Pod(annotations: Option<map<string, string>>, labels: Option<map<string, string>>,
                     spec: Spec, rest: nat)

  type Decoder = string -> Option<seq<Entry>>

  // ---------------------------------------------------------------- validation

  predicate HasContainer(spec: Spec, name: string) {
    exists c <- spec.containers :: c.name == name
  }

  /** Claim name of the first volume of that name that is a persistent volume claim. */
  function FindClaim(volumes: seq<Volume>, name: string): Option<string> {
    if volumes == [] then None
    else if volumes[0].name == name && volumes[0].claim.Some? then volumes[0].claim
    else FindClaim(volumes[1..], name)
  }

  function Builtins(): (r: seq<string>)
    ensures |r| == |BUILTIN_NAMES| && forall i :: 0 <= i < |r| ==> r[i] == Render(true, BUILTIN_NAMES[i])
  {
    seq(|BUILTIN_NAMES|, i requires 0 <= i < |BUILTIN_NAMES| => Render(true, BUILTIN_NAMES[i]))
  }

  /** `p` overlaps none of the known paths. */
  predicate ClearOf(p: string, known: seq<string>) {
    forall i :: 0 <= i < |known| ==> !Overlap(p, known[i])
  }

  /** Each special path is usable and overlaps neither a built-in one nor an earlier one. */
  ghost predicate SpecialsOk(paths: seq<string>) {
    && (forall i :: 0 <= i < |paths| ==>
          SpecialPath(paths[i]).Some? && ClearOf(SpecialPath(paths[i]).value, Builtins()))
    && (forall i, j :: 0 <= i < j < |paths| ==>
          !Overlap(SpecialPath(paths[j]).value, SpecialPath(paths[i]).value))
  }

  ghost predicate EntryOk(spec: Spec, e: Entry) {
    && e.volumeName != ""
    && HasContainer(spec, e.name)
    && FindClaim(spec.volumes, e.volumeName).Some? && FindClaim(spec.volumes, e.volumeName).value != ""
    && AdmissionAccepts(e.path)
    && (e.specialPath != [] ==> e.persistentSpecialMounts)
    && SpecialsOk(e.specialPath)
  }

  ghost predicate NamedOk(spec: Spec, e: Entry) {
    e.name != "" && EntryOk(spec, e)
  }

  ghost predicate EntriesOk(spec: Spec, entries: seq<Entry>) {
    && entries != []
    && AllOk(spec, entries)
    && DistinctNames(entries)
  }

  ghost predicate AllOk(spec: Spec, entries: seq<Entry>) {
    forall i :: 0 <= i < |entries| ==> NamedOk(spec, entries[i])
  }

  predicate DistinctNames(entries: seq<Entry>) {
    forall i, j :: 0 <= i < j < |entries| ==> entries[i].name != entries[j].name
  }

  method OverlapsNone(p: string, known: seq<string>) returns (r: bool)
    ensures r <==> ClearOf(p, known)
  {
    var i := 0;
    while i < |known|
      invariant 0 <= i <= |known|
      invariant forall k :: 0 <= k < i ==> !Overlap(p, known[k])
    {
      if Overlap(p, known[i]) {
        return false;
      }
      i := i + 1;
    }
    return true;
  }

  lemma ClearOfBoth(p: string, a: seq<string>, b: seq<string>)
    ensures ClearOf(p, a + b) <==> ClearOf(p, a) && ClearOf(p, b)
  {
    if ClearOf(p, a + b) {
      assert forall i :: 0 <= i < |a| ==> a[i] == (a + b)[i];
      assert forall i :: 0 <= i < |b| ==> b[i] == (a + b)[|a| + i];
    }
  }

  /** The special paths accepted so far, cleaned. */
  ghost predicate CleanedAs(paths: seq<string>, cleaned: seq<string>) {
    |cleaned| == |paths| && forall k :: 0 <= k < |paths| ==> SpecialPath(paths[k]) == Some(cleaned[k])
  }

  /** The next special path is usable and clear of all that are known by then. */
  ghost predicate NextSpecialOk(p: string, cleaned: seq<string>) {
    SpecialPath(p).Some? && ClearOf(SpecialPath(p).value, Builtins() + cleaned)
  }

  /** Accepting one more special path is a matter of that path alone. */
  lemma OneMoreSpecial(paths: seq<string>, cleaned: seq<string>, p: string)
    requires SpecialsOk(paths) && CleanedAs(paths, cleaned)
    ensures SpecialsOk(paths + [p]) <==> NextSpecialOk(p, cleaned)
    ensures SpecialPath(p).Some? ==> CleanedAs(paths + [p], cleaned + [SpecialPath(p).value])
  {
    var all := paths + [p];
    assert all[|paths|] == p;
    assert forall k :: 0 <= k < |paths| ==> all[k] == paths[k];
    if SpecialPath(p).Some? {
      ClearOfBoth(SpecialPath(p).value, Builtins(), cleaned);
    }
  }

  lemma SpecialsPrefix(paths: seq<string>, i: nat)
    requires i <= |paths| && SpecialsOk(paths)
    ensures SpecialsOk(paths[..i])
  {
  }

  /** The step of the loop below: the prefix grows by a good path, and a bad one spoils the list. */
  lemma SpecialStep(paths: seq<string>, i: nat, cleaned: seq<string>)
    requires i < |paths| && SpecialsOk(paths[..i]) && CleanedAs(paths[..i], cleaned)
    ensures NextSpecialOk(paths[i], cleaned) ==>
              && SpecialsOk(paths[..i + 1])
              && CleanedAs(paths[..i + 1], cleaned + [SpecialPath(paths[i]).value])
    ensures !NextSpecialOk(paths[i], cleaned) ==> !SpecialsOk(paths)
  {
    OneMoreSpecial(paths[..i], cleaned, paths[i]);
    assert paths[..i + 1] == paths[..i] + [paths[i]];
    if SpecialsOk(paths) {
      SpecialsPrefix(paths, i + 1);
    }
  }

  method CheckSpecials(paths: seq<string>) returns (ok: bool)
    ensures ok <==> SpecialsOk(paths)
  {
    var known := Builtins();
    ghost var customs: seq<string> := [];
    var i := 0;
    while i < |paths|
      invariant 0 <= i <= |paths|
      invariant SpecialsOk(paths[..i]) && CleanedAs(paths[..i], customs)
      invariant known == Builtins() + customs
    {
      SpecialStep(paths, i, customs);
      var cleaned := SpecialPath(paths[i]);
      if cleaned.None? {
        return false;
      }
      var clear := OverlapsNone(cleaned.value, known);
      if !clear {
        return false;
      }
      customs := customs + [cleaned.value];
      known := known + [cleaned.value];
      i := i + 1;
    }
    assert paths[..i] == paths;
    return true;
  }

  method CheckEntry(spec: Spec, e: Entry) returns (ok: bool)
    ensures ok <==> EntryOk(spec, e)
  {
    if e.volumeName == "" || !HasContainer(spec, e.name) {
      return false;
    }
    var claim := FindClaim(spec.volumes, e.volumeName);
    if claim.None? || claim.value == "" || !AdmissionAccepts(e.path) {
      return false;
    }
    if e.specialPath != [] && !e.persistentSpecialMounts {
      return false;
    }
    ok := CheckSpecials(e.specialPath);
  }

  /** The names of the first entries. */
  ghost predicate SeenNames(entries: seq<Entry>, i: nat, seen: set<string>)
    requires i <= |entries|
  {
    && (forall k :: 0 <= k < i ==> entries[k].name in seen)
    && (forall n <- seen :: exists k :: 0 <= k < i && entries[k].name == n)
  }

  lemma SeenTwice(entries: seq<Entry>, i: nat, seen: set<string>)
    requires i < |entries| && SeenNames(entries, i, seen) && entries[i].name in seen
    ensures !DistinctNames(entries)
  {
    var k :| 0 <= k < i && entries[k].name == entries[i].name;
  }

  /** The loop of parseRootfsAnnotation over the decoded entries. */
  method CheckEntries(spec: Spec, entries: seq<Entry>) returns (ok: bool)
    ensures ok <==> EntriesOk(spec, entries)
  {
    if entries == [] {
      return false;
    }
    var seen := {};
    var i := 0;
    while i < |entries|
      invariant 0 <= i <= |entries|
      invariant AllOk(spec, entries[..i]) && DistinctNames(entries[..i])
      invariant SeenNames(entries, i, seen)
    {
      OneMoreEntry(spec, entries, i, seen);
      if entries[i].name == "" {
        return false;
      }
      if entries[i].name in seen {
        SeenTwice(entries, i, seen);
        return false;
      }
      seen := seen + {entries[i].name};
      var valid := CheckEntry(spec, entries[i]);
      if !valid {
        return false;
      }
      i := i + 1;
    }
    assert entries[..i] == entries;
    return true;
  }

  /** One more entry is fine if it is valid and its name is new; and it must be valid. */
  lemma OneMoreEntry(spec: Spec, entries: seq<Entry>, i: nat, seen: set<string>)
    requires i < |entries| && AllOk(spec, entries[..i]) && DistinctNames(entries[..i]) && SeenNames(entries, i, seen)
    ensures NamedOk(spec, entries[i]) ==> AllOk(spec, entries[..i + 1])
    ensures entries[i].name !in seen ==> DistinctNames(entries[..i + 1])
    ensures !NamedOk(spec, entries[i]) ==> !AllOk(spec, entries)
  {
    assert entries[..i + 1] == entries[..i] + [entries[i]];
  }

  // ---------------------------------------------------------------- special paths of an accepted entry

  /** All special paths of an entry, as names: the built-in ones, then its own. */
  function SpecialNames(e: Entry): seq<seq<string>> {
    BUILTIN_NAMES + seq(|e.specialPath|, i requires 0 <= i < |e.specialPath| => Names(e.specialPath[i]))
  }

  lemma BuiltinsAreNormal(i: nat)
    requires i < |BUILTIN_NAMES|
    ensures Normal(true, BUILTIN_NAMES[i]) && BUILTIN_NAMES[i] != []
  {
    forall k | 0 <= k < |BUILTIN_NAMES[i]| ensures IsName(BUILTIN_NAMES[i][k]) && BUILTIN_NAMES[i][k] != ".." {
      assert |BUILTIN_NAMES[i][k]| > 2;
    }
  }

  lemma BuiltinsAreNotNested(i: nat, j: nat)
    requires i < j < |BUILTIN_NAMES|
    ensures !Nested(BUILTIN_NAMES[i], BUILTIN_NAMES[j])
  {
    var a, b := BUILTIN_NAMES[i], BUILTIN_NAMES[j];
    assert |a| >= 3 && |b| >= 3;
    assert a[2] != b[2] || (|a| == 4 && |b| == 4 && a[3] != b[3]);
  }

  lemma CustomAndBuiltin(p: string, i: nat)
    requires i < |BUILTIN_NAMES| && SpecialPath(p).Some? && ClearOf(SpecialPath(p).value, Builtins())
    ensures !Nested(BUILTIN_NAMES[i], Names(p))
  {
    SpecialPathNames(p);
    BuiltinsAreNormal(i);
    OverlapIsNesting(Names(p), BUILTIN_NAMES[i]);
    assert Builtins()[i] == Render(true, BUILTIN_NAMES[i]);
  }

  lemma CustomAndCustom(p: string, q: string)
    requires SpecialPath(p).Some? && SpecialPath(q).Some? && !Overlap(SpecialPath(q).value, SpecialPath(p).value)
    ensures !Nested(Names(p), Names(q))
  {
    SpecialPathNames(p);
    SpecialPathNames(q);
    OverlapIsNesting(Names(q), Names(p));
  }

  /** The special paths of an accepted entry, built-in and custom, are pairwise not nested. */
  lemma SpecialPathsAreSeparate(spec: Spec, e: Entry, i: nat, j: nat)
    requires EntryOk(spec, e) && i < j < |SpecialNames(e)|
    ensures !Nested(SpecialNames(e)[i], SpecialNames(e)[j])
  {
    var n := |BUILTIN_NAMES|;
    if j < n {
      BuiltinsAreNotNested(i, j);
    } else if i < n {
      CustomAndBuiltin(e.specialPath[j - n], i);
    } else {
      CustomAndCustom(e.specialPath[i - n], e.specialPath[j - n]);
    }
  }

  // ---------------------------------------------------------------- the sidecar

  function RequiredMounts(entries: seq<Entry>, seen: set<string>): seq<VolumeMount> {
    if entries == [] then []
    else
      var v := entries[0].volumeName;
      if v in seen then RequiredMounts(entries[1..], seen)
      else [VolumeMount(v, Join2(SIDECAR_PATH, v))] + RequiredMounts(entries[1..], seen + {v})
  }

  method SidecarMounts(entries: seq<Entry>) returns (mounts: seq<VolumeMount>)
    ensures mounts == RequiredMounts(entries, {})
  {
    var seen: set<string> := {};
    mounts := [];
    var i := 0;
    while i < |entries|
      invariant 0 <= i <= |entries|
      invariant mounts + RequiredMounts(entries[i..], seen) == RequiredMounts(entries, {})
    {
      var v := entries[i].volumeName;
      assert entries[i..][1..] == entries[i + 1..];
      if v !in seen {
        seen := seen + {v};
        mounts := mounts + [VolumeMount(v, Join2(SIDECAR_PATH, v))];
      }
      i := i + 1;
    }
    assert entries[i..] == [];
  }

  predicate UsesVolume(entries: seq<Entry>, v: string) {
    exists e <- entries :: e.volumeName == v
  }

  /** One mount for each distinct volume of the entries that is not yet seen, and no other. */
  lemma {:induction false} OneMountPerVolume(entries: seq<Entry>, seen: set<string>)
    ensures var mounts := RequiredMounts(entries, seen);
            && (forall m <- mounts :: m.name !in seen && UsesVolume(entries, m.name)
                                      && m.mountPath == Join2(SIDECAR_PATH, m.name))
            && (forall e <- entries :: e.volumeName !in seen ==>
                  VolumeMount(e.volumeName, Join2(SIDECAR_PATH, e.volumeName)) in mounts)
            && (forall i, j :: 0 <= i < j < |mounts| ==> mounts[i].name != mounts[j].name)
  {
    if entries != [] {
      var v := entries[0].volumeName;
      OneMountPerVolume(entries[1..], if v in seen then seen else seen + {v});
      assert entries == [entries[0]] + entries[1..];
    }
  }

  /** The mounts are those of the entries' volumes, each once and at its own path. */
  ghost predicate MountsEachOnce(mounts: seq<VolumeMount>, entries: seq<Entry>) {
    && (forall m <- mounts :: UsesVolume(entries, m.name) && m.mountPath == Join2(SIDECAR_PATH, m.name))
    && (forall e <- entries :: VolumeMount(e.volumeName, Join2(SIDECAR_PATH, e.volumeName)) in mounts)
    && (forall i, j :: 0 <= i < j < |mounts| ==> mounts[i].name != mounts[j].name)
  }

  function Sidecar(entries: seq<Entry>, image: string): Container {
    Container(SIDECAR_NAME, image, RequiredMounts(entries, {}), 0)
  }

  /** The containers other than the sidecar, in order. */
  function Others(containers: seq<Container>): seq<Container> {
    if containers == [] then []
    else (if containers[0].name != SIDECAR_NAME then [containers[0]] else []) + Others(containers[1..])
  }

  lemma {:induction false} OthersAreTheOthers(containers: seq<Container>)
    ensures forall c :: c in Others(containers) <==> c in containers && c.name != SIDECAR_NAME
  {
    if containers != [] {
      OthersAreTheOthers(containers[1..]);
      assert containers == [containers[0]] + containers[1..];
    }
  }

  method KeepOthers(containers: seq<Container>) returns (r: seq<Container>)
    ensures r == Others(containers)
  {
    r := [];
    var i := 0;
    while i < |containers|
      invariant 0 <= i <= |containers|
      invariant r + Others(containers[i..]) == Others(containers)
    {
      assert containers[i..][1..] == containers[i + 1..];
      if containers[i].name != SIDECAR_NAME {
        r := r + [containers[i]];
      }
      i := i + 1;
    }
    assert containers[i..] == [];
  }

  method EnsureSidecar(containers: seq<Container>, entries: seq<Entry>, image: string) returns (r: seq<Container>)
    ensures r == Others(containers) + [Sidecar(entries, image)]
  {
    var mounts := SidecarMounts(entries);
    r := KeepOthers(containers);
    r := r + [Container(SIDECAR_NAME, image, mounts, 0)];
  }

  // ---------------------------------------------------------------- mutation

  datatype Outcome = Admitted(pod: Pod) | Rejected

  predicate Managed(spec: Spec) {
    spec.runtimeClassName == Some(SYSBOX_RUNC) || spec.runtimeClassName == Some(SYSBOX_RUNC_LITE)
  }

  predicate Configured(pod: Pod) {
    pod.annotations.Some? && LAYER_ANNOTATION in pod.annotations.value
  }

  /** The entries that the pod asks for; none if the annotation does not decode. */
  function Entries(decode: Decoder, pod: Pod): Option<seq<Entry>>
    requires Configured(pod)
  {
    var raw := pod.annotations.value[LAYER_ANNOTATION];
    if TrimSpace(raw) == "" then None else decode(raw)
  }

  /** delete on the annotation map */
  function WithoutVolumeInit(pod: Pod): Pod {
    if pod.annotations.None? then pod
    else pod.(annotations := Some(pod.annotations.value - {VOLUME_INIT_ANNOTATION}))
  }

  function WithSidecar(pod: Pod, entries: seq<Entry>, image: string): Pod {
    pod.(spec := pod.spec.(containers := Others(pod.spec.containers) + [Sidecar(entries, image)]))
  }

  ghost function Mutated(decode: Decoder, image: string, cancelled: bool, pod: Pod): Outcome {
    if !Managed(pod.spec) then if Configured(pod) then Rejected else Admitted(pod)
    else if !Configured(pod) then if cancelled then Rejected else Admitted(WithoutVolumeInit(pod))
    else
      var entries := Entries(decode, pod);
      if entries.None? || !EntriesOk(pod.spec, entries.value) || cancelled then Rejected
      else Admitted(WithSidecar(WithoutVolumeInit(pod), entries.value, image))
  }

  /** Mutate and mutatePod: the copy is edited step by step. */
  method Mutate(decode: Decoder, image: string, cancelled: bool, pod: Pod) returns (r: Outcome)
    ensures r == Mutated(decode, image, cancelled, pod)
  {
    var mutated := pod;
    if Configured(mutated) && !Managed(mutated.spec) {
      return Rejected;
    }
    if !Managed(mutated.spec) {
      return Admitted(mutated);
    }
    if mutated.annotations.Some? {
      mutated := mutated.(annotations := Some(mutated.annotations.value - {VOLUME_INIT_ANNOTATION}));
    }
    var wanted := Configured(mutated);
    var entries: seq<Entry> := [];
    if wanted {
      var decoded := Entries(decode, mutated);
      if decoded.None? {
        return Rejected;
      }
      entries := decoded.value;
      var ok := CheckEntries(mutated.spec, entries);
      if !ok {
        return Rejected;
      }
    }
    if cancelled {
      return Rejected;
    }
    if wanted {
      var containers := EnsureSidecar(mutated.spec.containers, entries, image);
      mutated := mutated.(spec := mutated.spec.(containers := containers));
    }
    r := Admitted(mutated);
  }

  lemma {:induction false} OthersOfOthers(containers: seq<Container>, tail: Container)
    requires tail.name == SIDECAR_NAME && forall c <- containers :: c.name != SIDECAR_NAME
    ensures Others(containers + [tail]) == containers
  {
    if containers == [] {
      assert containers + [tail] == [tail];
    } else {
      assert containers[0] in containers;
      assert (containers + [tail])[1..] == containers[1..] + [tail];
      OthersOfOthers(containers[1..], tail);
    }
  }

  lemma SidecarKeepsEntriesOk(pod: Pod, entries: seq<Entry>, image: string)
    requires EntriesOk(pod.spec, entries)
    ensures EntriesOk(WithSidecar(pod, entries, image).spec, entries)
  {
    var spec := WithSidecar(pod, entries, image).spec;
    OthersAreTheOthers(pod.spec.containers);
    forall i | 0 <= i < |entries| ensures NamedOk(spec, entries[i]) {
      var name := entries[i].name;
      assert NamedOk(pod.spec, entries[i]);
      var c :| c in pod.spec.containers && c.name == name;
      if c.name == SIDECAR_NAME {
        assert Sidecar(entries, image) in spec.containers;
      } else {
        assert c in Others(pod.spec.containers);
        assert c in spec.containers;
      }
    }
  }

  /** Mutating an admitted pod once more changes nothing. */
  lemma MutateIsIdempotent(decode: Decoder, image: string, pod: Pod)
    requires Mutated(decode, image, false, pod).Admitted?
    ensures var mutated := Mutated(decode, image, false, pod).pod;
            Mutated(decode, image, false, mutated) == Admitted(mutated)
  {
    if Managed(pod.spec) && Configured(pod) {
      var entries := Entries(decode, pod).value;
      var trimmed := WithoutVolumeInit(pod);
      var mutated := WithSidecar(trimmed, entries, image);
      assert WithoutVolumeInit(mutated) == mutated by {
        var a := pod.annotations.value - {VOLUME_INIT_ANNOTATION};
        assert a - {VOLUME_INIT_ANNOTATION} == a;
      }
      assert Entries(decode, mutated) == Some(entries);
      SidecarKeepsEntriesOk(trimmed, entries, image);
      OthersAreTheOthers(pod.spec.containers);
      OthersOfOthers(Others(pod.spec.containers), Sidecar(entries, image));
    } else if pod.annotations.Some? {
      var a := pod.annotations.value - {VOLUME_INIT_ANNOTATION};
      assert a - {VOLUME_INIT_ANNOTATION} == a;
    }
  }

  /**
   * A configured pod that is admitted ends with one sidecar, which mounts each volume of the
   * entries exactly once; its other containers are kept in order.
   */
  lemma ExactlyOneSidecar(decode: Decoder, image: string, pod: Pod)
    requires Configured(pod) && Mutated(decode, image, false, pod).Admitted?
    ensures var containers := Mutated(decode, image, false, pod).pod.spec.containers;
            && containers != []
            && Others(containers) == Others(pod.spec.containers) == containers[..|containers| - 1]
            && containers[|containers| - 1].name == SIDECAR_NAME
            && containers[|containers| - 1].image == image
            && (forall i :: 0 <= i < |containers| - 1 ==> containers[i].name != SIDECAR_NAME)
            && MountsEachOnce(containers[|containers| - 1].volumeMounts, Entries(decode, pod).value)
  {
    var entries := Entries(decode, pod).value;
    var others := Others(pod.spec.containers);
    OthersAreTheOthers(pod.spec.containers);
    OthersOfOthers(others, Sidecar(entries, image));
    OneMountPerVolume(entries, {});
    var containers := others + [Sidecar(entries, image)];
    assert containers[..|containers| - 1] == others;
    assert forall i :: 0 <= i < |others| ==> containers[i] == others[i] && others[i] in others;
  }
}
