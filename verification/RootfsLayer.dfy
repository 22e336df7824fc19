/**
 * The snapshotter's side of the contract (sysbox-snapshotter/rootfs): which annotation entry it
 * selects for a container, and where it finds that entry's volume among the mounts of the
 * running sidecar; and that both agree with what admission put into the pod.
 */
module RootfsLayer {

  import opened Text
  import opened Wrappers
  import opened LexicalPath
  import opened RootfsPaths
  import opened Admission

  datatype Resolution =
    | IncompleteIdentity
    | NotConfigured
    | BadAnnotation
    | SidecarItself
    | UnsafePath
    | SpecUnavailable
    | Layer(entry: Entry)

  /** The first entry of that name. */
  function EntryFor(entries: seq<Entry>, name: string): Option<Entry> {
    if entries == [] then None
    else if entries[0].name == name then Some(entries[0])
    else EntryFor(entries[1..], name)
  }

  function ResolveEntry(entries: seq<Entry>, name: string, specLoads: bool): Resolution {
    var entry := EntryFor(entries, name);
    if entry.None? then NotConfigured
    else if SafeLayerPath(entry.value.path).None? then UnsafePath
    else if !specLoads then SpecUnavailable
    else Layer(entry.value)
  }

  /** ResolveRootfsRwLayer, given whether the sidecar's runtime spec can be loaded. */
  function Resolve(decode: Decoder, name: string, annotation: string, specLoads: bool): Resolution {
    if name == "" then IncompleteIdentity
    else if annotation == "" then NotConfigured
    else
      var entries := decode(annotation);
      if entries.None? then BadAnnotation
      else if name == SIDECAR_NAME then if entries.value == [] then NotConfigured else SidecarItself
      else ResolveEntry(entries.value, name, specLoads)
  }

  method ResolveLayer(decode: Decoder, name: string, annotation: string, specLoads: bool) returns (r: Resolution)
    ensures r == Resolve(decode, name, annotation, specLoads)
  {
    if name == "" {
      return IncompleteIdentity;
    }
    if annotation == "" {
      return NotConfigured;
    }
    var decoded := decode(annotation);
    if decoded.None? {
      return BadAnnotation;
    }
    var entries := decoded.value;
    if name == SIDECAR_NAME {
      return if entries == [] then NotConfigured else SidecarItself;
    }
    var i := 0;
    while i < |entries|
      invariant 0 <= i <= |entries|
      invariant EntryFor(entries, name) == EntryFor(entries[i..], name)
    {
      assert entries[i..][1..] == entries[i + 1..];
      if entries[i].name == name {
        if SafeLayerPath(entries[i].path).None? {
          return UnsafePath;
        }
        return if specLoads then Layer(entries[i]) else SpecUnavailable;
      }
      i := i + 1;
    }
    return NotConfigured;
  }

  // ---------------------------------------------------------------- the mount lookup

  datatype OciMount = OciMount(destination: string, source: string)

  datatype Lookup = NoVolumeName | Malformed | NotFound | Found(source: string)

  /** cleanOCIDestination */
  function CleanDestination(destination: string): string {
    Clean(TrimSpace(destination))
  }

  /** Source of the first mount at that place. */
  function FirstMountAt(mounts: seq<OciMount>, target: string): Lookup {
    if mounts == [] then NotFound
    else if CleanDestination(mounts[0].destination) != target then FirstMountAt(mounts[1..], target)
    else if mounts[0].source == "" then Malformed
    else Found(mounts[0].source)
  }

  /** ResolvePVCMountPath up to the mount's source. */
  function FindVolume(mounts: seq<OciMount>, volume: string): Lookup {
    if volume == "" then NoVolumeName else FirstMountAt(mounts, Join2(SIDECAR_PATH, volume))
  }

  method ResolveMount(mounts: seq<OciMount>, volume: string) returns (r: Lookup)
    ensures r == FindVolume(mounts, volume)
  {
    if volume == "" {
      return NoVolumeName;
    }
    var target := Join2(SIDECAR_PATH, volume);
    var i := 0;
    while i < |mounts|
      invariant 0 <= i <= |mounts|
      invariant FirstMountAt(mounts, target) == FirstMountAt(mounts[i..], target)
    {
      assert mounts[i..][1..] == mounts[i + 1..];
      if CleanDestination(mounts[i].destination) == target {
        return if mounts[i].source == "" then Malformed else Found(mounts[i].source);
      }
      i := i + 1;
    }
    return NotFound;
  }

  // ---------------------------------------------------------------- agreement with admission

  /** The snapshotter's decoder is laxer: what admission decodes, it decodes alike. */
  ghost predicate Laxer(strict: Decoder, lax: Decoder) {
    forall raw :: strict(raw).Some? ==> lax(raw) == strict(raw)
  }

  lemma {:induction false} UniqueEntry(entries: seq<Entry>, i: nat)
    requires i < |entries| && forall j, k :: 0 <= j < k < |entries| ==> entries[j].name != entries[k].name
    ensures EntryFor(entries, entries[i].name) == Some(entries[i])
  {
    if i > 0 {
      assert entries[1..][i - 1] == entries[i];
      UniqueEntry(entries[1..], i - 1);
    }
  }

  /**
   * For every entry of an admitted pod, the snapshotter selects exactly that entry once the
   * sidecar's spec is there, except for an entry that names the sidecar itself: admission accepts
   * it, but the sidecar never gets a persistent layer.
   */
  lemma AdmittedEntryIsSelected(strict: Decoder, lax: Decoder, image: string, pod: Pod, i: nat, specLoads: bool)
    requires Laxer(strict, lax)
    requires Configured(pod) && Mutated(strict, image, false, pod).Admitted?
    requires i < |Entries(strict, pod).value|
    ensures var e := Entries(strict, pod).value[i];
            var annotation := pod.annotations.value[LAYER_ANNOTATION];
            Resolve(lax, e.name, annotation, specLoads)
            == if e.name == SIDECAR_NAME then SidecarItself else if specLoads then Layer(e) else SpecUnavailable
  {
    var entries := Entries(strict, pod).value;
    var annotation := pod.annotations.value[LAYER_ANNOTATION];
    assert lax(annotation) == strict(annotation);
    assert NamedOk(pod.spec, entries[i]);
    UniqueEntry(entries, i);
    ChecksAgree(entries[i].path);
  }

  const SIDECAR_ENTRY := Entry(SIDECAR_NAME, "data", "", false, [])
  const SIDECAR_SPEC := Spec(Some(SYSBOX_RUNC), [Container(SIDECAR_NAME, "own-image", [], 0)],
                             [Volume("data", Some("claim"))], 0)

  lemma SidecarEntryIsOk()
    ensures EntriesOk(SIDECAR_SPEC, [SIDECAR_ENTRY])
  {
    assert SIDECAR_SPEC.containers[0] in SIDECAR_SPEC.containers;
    assert NamedOk(SIDECAR_SPEC, SIDECAR_ENTRY);
  }

  /** A pod whose only container carries the sidecar's name: its entry is admitted and never selected. */
  lemma SidecarEntryIsIgnored(decode: Decoder, raw: string, image: string)
    requires TrimSpace(raw) != "" && decode(raw) == Some([SIDECAR_ENTRY])
    ensures Mutated(decode, image, false, Pod(Some(map[LAYER_ANNOTATION := raw]), None, SIDECAR_SPEC, 0)).Admitted?
    ensures Resolve(decode, SIDECAR_ENTRY.name, raw, true) == SidecarItself
  {
    SidecarEntryIsOk();
  }

  /** Letters, digits and hyphens: what a volume may be called. */
  predicate DnsLabel(name: string) {
    && name != ""
    && forall i :: 0 <= i < |name| ==> 'a' <= name[i] <= 'z' || '0' <= name[i] <= '9' || name[i] == '-'
  }

  lemma DnsLabelIsName(name: string)
    requires DnsLabel(name)
    ensures IsName(name) && name != ".."
  {
    assert name[0] != '.';
  }

  lemma SidecarNamesAreNormal()
    ensures Plain(SIDECAR_NAMES) && Normal(true, SIDECAR_NAMES)
  {
    forall i | 0 <= i < |SIDECAR_NAMES| ensures IsName(SIDECAR_NAMES[i]) && SIDECAR_NAMES[i] != ".." {
      assert |SIDECAR_NAMES[i]| > 2;
    }
  }

  /** A volume is mounted in the sidecar right below the mount path, under its own name. */
  lemma SidecarMountPathOf(volume: string)
    requires DnsLabel(volume)
    ensures Join2(SIDECAR_PATH, volume) == SIDECAR_PATH + "/" + volume
  {
    SidecarNamesAreNormal();
    DnsLabelIsName(volume);
    assert SIDECAR_PATH[0] == SLASH;
    var names := SIDECAR_NAMES + [volume];
    NamesOfRendered(true, SIDECAR_NAMES);
    assert JoinNames([volume]) == volume;
    NamesOfAppended(SIDECAR_PATH, [volume]);
    JoinNamesAppend(SIDECAR_NAMES, [volume]);
    assert "/" + (JoinNames(SIDECAR_NAMES) + "/" + volume) == SIDECAR_PATH + "/" + volume;
  }

  lemma MountPathIsItsOwnDestination(volume: string)
    requires DnsLabel(volume)
    ensures CleanDestination(Join2(SIDECAR_PATH, volume)) == Join2(SIDECAR_PATH, volume)
  {
    SidecarMountPathOf(volume);
    var p := SIDECAR_PATH + "/" + volume;
    assert p[0] == SLASH && p[|p| - 1] == volume[|volume| - 1];
    CleanIsIdempotent(p);
  }

  /**
   * The runtime spec of the running sidecar mounts every volume of the sidecar container where
   * admission asked for it, and nothing else in the same place.
   */
  ghost predicate Realises(mounts: seq<OciMount>, sidecar: Container, source: map<string, string>) {
    && (forall vm <- sidecar.volumeMounts ::
          vm.name in source && source[vm.name] != "" && OciMount(vm.mountPath, source[vm.name]) in mounts)
    && (forall m <- mounts, vm <- sidecar.volumeMounts ::
          CleanDestination(m.destination) == vm.mountPath ==> vm.name in source && m.source == source[vm.name])
  }

  lemma {:induction false} FirstOfTheRightOnes(mounts: seq<OciMount>, target: string, source: string)
    requires source != "" && exists m <- mounts :: CleanDestination(m.destination) == target
    requires forall m <- mounts :: CleanDestination(m.destination) == target ==> m.source == source
    ensures FirstMountAt(mounts, target) == Found(source)
  {
    assert mounts[0] in mounts;
    if CleanDestination(mounts[0].destination) != target {
      var m :| m in mounts && CleanDestination(m.destination) == target;
      assert m in mounts[1..];
      FirstOfTheRightOnes(mounts[1..], target, source);
    }
  }

  /** The lookup finds the source of exactly the sidecar mount that was added for the entry's volume. */
  lemma LookupFindsTheVolume(strict: Decoder, image: string, pod: Pod, i: nat,
                             mounts: seq<OciMount>, source: map<string, string>)
    requires Configured(pod) && Mutated(strict, image, false, pod).Admitted?
    requires i < |Entries(strict, pod).value| && DnsLabel(Entries(strict, pod).value[i].volumeName)
    requires Realises(mounts, Sidecar(Entries(strict, pod).value, image), source)
    ensures var volume := Entries(strict, pod).value[i].volumeName;
            volume in source && FindVolume(mounts, volume) == Found(source[volume])
  {
    var entries := Entries(strict, pod).value;
    var volume := entries[i].volumeName;
    var target := Join2(SIDECAR_PATH, volume);
    var vm := VolumeMount(volume, target);
    OneMountPerVolume(entries, {});
    assert entries[i] in entries;
    assert vm in Sidecar(entries, image).volumeMounts;
    MountPathIsItsOwnDestination(volume);
    assert OciMount(target, source[volume]) in mounts;
    FirstOfTheRightOnes(mounts, target, source[volume]);
  }
}
