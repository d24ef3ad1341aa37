/**
 * The fixtures and the fake reactor of the server-side-apply tests, and the
 * outcomes those tests check, proved for every state of the fake object tracker.
 */
module ServerSideApplyTest {
  import opened Wrappers
  import opened Unstructured
  import opened Sanitizer
  import opened ClientTesting
  import opened ServerSideApply

  const DefaultOwner := "test-owner"
  const TestOwner := OwnerReference("v1", "", "test", DefaultOwner)
  const ServerSideApplyOption := ManifestConfigOption(UpdateStrategy(StrategyServerSideApply, false))
  const NamespacesResource := GroupVersionResource("", "v1", "namespaces")
  const SecretsResource := GroupVersionResource("", "v1", "secrets")

  /** The conflict cause the reactor reports for secrets. */
  const AnnotationsConflict := StatusCause(CauseTypeFieldManagerConflict, "field managed configl", "metadata.annotations")

  // ---------------------------------------------------------------------------
  // The reactor put in front of the fake client's default reactors

  /**
   * `reactor.Handles`: a patch whose type is not the apply type falls out of the
   * type switch to the final `return true`, so every patch is handled, whatever
   * its type, and nothing else is.
   */
  function Handles(action: Action): (r: bool)
    ensures r <==> action.PatchAction?
  {
    match action
    case PatchAction(_, _, _, patchType, _, _, _) =>
      if patchType == ApplyPatchType then true
      else true  // falls through to the final return
    case OtherAction(_, _, _, _) => false
  }

  /** `reactor.React`: always handled; the answer depends on the resource name alone. */
  function React(action: Action): (r: Reaction)
    ensures r.handled
    ensures r.ret.Some? <==> action.resource.resource == "namespaces"
    ensures r.err.Some? <==> action.resource.resource != "namespaces"
    ensures r.ret.Some? ==>
              r.ret.value.Obj? && GetName(r.ret.value.fields) == "test" &&
              GetNamespace(r.ret.value.fields) == "" &&
              NestedString(r.ret.value.fields, ["kind"]) == "Namespace" &&
              NestedString(r.ret.value.fields, ["apiVersion"]) == "v1"
    ensures (r.err.Some? && r.err.value.ApplyConflict?) <==> action.resource.resource == "secrets"
    ensures r.err.Some? && r.err.value.ApplyConflict? ==>
              r.err.value.causes == [AnnotationsConflict] && r.err.value.message == "server side apply secret failed"
    ensures r.err.Some? && !r.err.value.ApplyConflict? ==> r.err.value == Generic("PatchType is not supported")
  {
    match action.resource.resource
    case "namespaces" =>
      var ns := NewUnstructured("v1", "Namespace", "", "test");
      Reaction(true, Some(Obj(ns)), None)
    case "secrets" =>
      Reaction(true, None, Some(ApplyConflict([AnnotationsConflict], "server side apply secret failed")))
    case _ =>
      Reaction(true, None, Some(Generic("PatchType is not supported")))
  }

  /** Two actions on the same resource name get the same reaction. */
  lemma ReactDependsOnlyOnResource(a: Action, b: Action)
    requires a.resource.resource == b.resource.resource
    ensures React(a) == React(b)
  {
  }

  /**
   * The fake dynamic client with the reactor spliced in front of its object
   * tracker: the reactor answers what it handles, the tracker the rest, and an
   * error comes back without an object.
   */
  function FakeClient(tracker: Action -> Reply): (client: Action -> Reply)
    ensures forall a: Action :: a.PatchAction? ==>
              client(a) == Reply(if React(a).err.Some? then None else React(a).ret, React(a).err)
    ensures forall a: Action :: !a.PatchAction? ==> client(a) == tracker(a)
  {
    a => FakeReply(tracker, a)
  }

  /** The reply of the fake client to one action: the reaction chain tried in order. */
  function FakeReply(tracker: Action -> Reply, a: Action): (reply: Reply)
    ensures a.PatchAction? ==>
              reply == Reply(if React(a).err.Some? then None else React(a).ret, React(a).err)
    ensures !a.PatchAction? ==> reply == tracker(a)
  {
    if Handles(a) && React(a).handled then
      var r := React(a);
      Reply(if r.err.Some? then None else r.ret, r.err)
    else tracker(a)
  }

  /** Patches never reach the tracker, so what it holds cannot change their reply; other verbs do reach it. */
  lemma FakeClientRouting(t1: Action -> Reply, t2: Action -> Reply, a: Action)
    ensures a.PatchAction? ==> FakeClient(t1)(a) == FakeClient(t2)(a)
    ensures !a.PatchAction? ==> FakeClient(t1)(a) == t1(a)
  {
  }

  // ---------------------------------------------------------------------------
  // Fixtures, as the unstructured converter lays them out

  /** The one-step and two-step lookups that read an object's type and coordinates. */
  lemma FixtureIdentity(obj: map<string, Value>)
    ensures "apiVersion" in obj ==> NestedField(obj, ["apiVersion"]) == Found(obj["apiVersion"])
    ensures "kind" in obj ==> NestedField(obj, ["kind"]) == Found(obj["kind"])
    ensures Metadata in obj && obj[Metadata].Obj? && "name" in obj[Metadata].fields ==>
              NestedField(obj, [Metadata, "name"]) == Found(obj[Metadata].fields["name"])
    ensures Metadata in obj && obj[Metadata].Obj? && "namespace" in obj[Metadata].fields ==>
              NestedField(obj, [Metadata, "namespace"]) == Found(obj[Metadata].fields["namespace"])
  {
    assert ["apiVersion"][1..] == [] && ["kind"][1..] == [];
    assert [Metadata, "name"][1..] == ["name"] && ["name"][1..] == [];
    assert [Metadata, "namespace"][1..] == ["namespace"] && ["namespace"][1..] == [];
    if Metadata in obj {
      assert NestedField(obj, [Metadata, "name"]) == FieldOf(obj[Metadata], ["name"]);
      assert NestedField(obj, [Metadata, "namespace"]) == FieldOf(obj[Metadata], ["namespace"]);
    }
  }

  /** An object with only its type and its coordinates. */
  function NewUnstructured(apiVersion: string, kind: string, namespace: string, name: string): (obj: map<string, Value>)
    ensures NestedString(obj, ["apiVersion"]) == apiVersion && NestedString(obj, ["kind"]) == kind
    ensures GetNamespace(obj) == namespace && GetName(obj) == name
  {
    var obj := map["apiVersion" := Str(apiVersion), "kind" := Str(kind),
                   "metadata" := Obj(map["namespace" := Str(namespace), "name" := Str(name)])];
    FixtureIdentity(obj);
    obj
  }

  /** A Deployment with a null creation timestamp at the top and in its pod template. */
  function NewDeployment(): (d: map<string, Value>)
    ensures NestedString(d, ["apiVersion"]) == "apps/v1" && NestedString(d, ["kind"]) == "Deployment"
    ensures GetName(d) == "test" && GetNamespace(d) == "test"
    ensures HasTimestamp(Obj(d), [])
  {
    var d := map["apiVersion" := Str("apps/v1"), "kind" := Str("Deployment"),
        "metadata" := Obj(map["name" := Str("test"), "namespace" := Str("test"), "creationTimestamp" := Null]),
        "spec" := Obj(map[
          "replicas" := Int(3),
          "selector" := Null,
          "strategy" := Obj(map[]),
          "template" := Obj(map[
            "metadata" := Obj(map["creationTimestamp" := Null, "labels" := Obj(map["test" := Str("test")])]),
            "spec" := Obj(map["containers" := List([
              Obj(map["name" := Str("test"), "image" := Str("test"), "resources" := Obj(map[])])])])])]),
        "status" := Obj(map[])];
    FixtureIdentity(d);
    RootTimestamp(Obj(d));
    d
  }

  /** The ConfigMap embedded in the ManifestWork fixture. */
  function ConfigMap(): (cm: map<string, Value>)
    ensures NestedString(cm, ["apiVersion"]) == "v1" && NestedString(cm, ["kind"]) == "ConfigMap"
    ensures GetName(cm) == "cm-test" && GetNamespace(cm) == "default"
    ensures HasTimestamp(Obj(cm), [])
  {
    var cm := map["apiVersion" := Str("v1"), "kind" := Str("ConfigMap"),
        "metadata" := Obj(map["name" := Str("cm-test"), "namespace" := Str("default"), "creationTimestamp" := Null]),
        "data" := Obj(map["some" := Str("data")])];
    FixtureIdentity(cm);
    RootTimestamp(Obj(cm));
    cm
  }

  /** A ManifestWork carrying the ConfigMap as its one manifest, both with a null creation timestamp. */
  function NewManifestWork(): (w: map<string, Value>)
    ensures NestedString(w, ["apiVersion"]) == "work.open-cluster-management.io/v1"
    ensures NestedString(w, ["kind"]) == "ManifestWork"
    ensures GetName(w) == "test" && GetNamespace(w) == "test"
    ensures HasTimestamp(Obj(w), [])
  {
    var w := map["apiVersion" := Str("work.open-cluster-management.io/v1"), "kind" := Str("ManifestWork"),
        "metadata" := Obj(map["name" := Str("test"), "namespace" := Str("test"), "creationTimestamp" := Null]),
        "spec" := Obj(map["workload" := Obj(map["manifests" := List([Obj(ConfigMap())])])]),
        "status" := Obj(map["resourceStatus" := Obj(map[])])];
    FixtureIdentity(w);
    RootTimestamp(Obj(w));
    w
  }

  // ---------------------------------------------------------------------------
  // TestRemoveCreationTime

  /** Where the Deployment fixture keeps its two metadata maps. */
  lemma DeploymentMetadata()
    ensures FieldOf(Obj(NewDeployment()), [Metadata]).Found?
    ensures FieldOf(Obj(NewDeployment()), [Metadata]).value.Obj?
    ensures FieldOf(Obj(NewDeployment()), ["spec", "template", Metadata]).Found?
    ensures FieldOf(Obj(NewDeployment()), ["spec", "template", Metadata]).value.Obj?
  {
    var d := NewDeployment();
    assert [Metadata][1..] == [];
    var p := ["spec", "template", Metadata];
    assert p[1..] == ["template", Metadata] && p[1..][1..] == [Metadata] && p[1..][1..][1..] == [];
    var tmpl := d["spec"].fields["template"];
    assert FieldOf(Obj(d), p) == FieldOf(tmpl, [Metadata]);
  }

  /** Where the ManifestWork fixture keeps its metadata map and its manifests. */
  lemma ManifestWorkLayout()
    ensures FieldOf(Obj(NewManifestWork()), [Metadata]).Found?
    ensures FieldOf(Obj(NewManifestWork()), [Metadata]).value.Obj?
    ensures At(Obj(NewManifestWork()), KeyPath(["spec", "workload", "manifests"])) == Some(List([Obj(ConfigMap())]))
  {
    var w := NewManifestWork();
    assert [Metadata][1..] == [];
    var path := KeyPath(["spec", "workload", "manifests"]);
    assert path == [Key("spec"), Key("workload"), Key("manifests")];
    assert path[1..] == [Key("workload"), Key("manifests")] && path[1..][1..] == [Key("manifests")];
    assert path[1..][1..][1..] == [];
    var workload := w["spec"].fields["workload"];
    assert At(Obj(w), path) == At(workload, [Key("manifests")]);
  }

  /** Where the embedded ConfigMap keeps its metadata map and its data. */
  lemma ConfigMapLayout()
    ensures FieldOf(Obj(ConfigMap()), [Metadata]).Found?
    ensures FieldOf(Obj(ConfigMap()), [Metadata]).value.Obj?
    ensures At(Obj(ConfigMap()), KeyPath(["data", "some"])) == Some(Str("data"))
  {
    assert [Metadata][1..] == [];
    var dp := KeyPath(["data", "some"]);
    assert dp == [Key("data"), Key("some")] && dp[1..] == [Key("some")] && dp[1..][1..] == [];
  }

  /** The paths the ManifestWork test reads never cross a creation timestamp. */
  lemma ManifestPathsAvoidTimestamp()
    ensures !CrossesTimestamp(KeyPath(["spec", "workload", "manifests"]))
    ensures !CrossesTimestamp(KeyPath(["data", "some"]))
  {
    var path := KeyPath(["spec", "workload", "manifests"]);
    assert path == [Key("spec"), Key("workload"), Key("manifests")];
    assert path[1..] == [Key("workload"), Key("manifests")] && path[1..][1..] == [Key("manifests")];
    var dp := KeyPath(["data", "some"]);
    assert dp == [Key("data"), Key("some")] && dp[1..] == [Key("some")];
  }

  /** Sanitizes the Deployment in place and reads both timestamps back from the same object. */
  method RemoveCreationTimeFromDeployment() returns (top: Lookup, template: Lookup)
    ensures top == Absent && template == Absent
  {
    var required := new Document(NewDeployment());
    required.RemoveCreationTimeFromMetadata();
    top := NestedField(required.Object, [Metadata, CreationTimestamp]);
    template := NestedField(required.Object, ["spec", "template", Metadata, CreationTimestamp]);

    DeploymentMetadata();
    var path: seq<string> := ["spec", "template"];
    assert [] + [Metadata] == [Metadata] && [] + [Metadata, CreationTimestamp] == [Metadata, CreationTimestamp];
    assert path + [Metadata] == ["spec", "template", Metadata];
    assert path + [Metadata, CreationTimestamp] == ["spec", "template", Metadata, CreationTimestamp];
    SanitizedMetadataAbsent(NewDeployment(), []);
    SanitizedMetadataAbsent(NewDeployment(), path);
  }

  /** The sanitized ManifestWork has no top-level timestamp and still lists the sanitized ConfigMap. */
  lemma SanitizedManifestWork()
    ensures NestedField(SanitizeFields(NewManifestWork()), [Metadata, CreationTimestamp]) == Absent
    ensures NestedSlice(SanitizeFields(NewManifestWork()), ["spec", "workload", "manifests"]) ==
              Found(List([Sanitize(Obj(ConfigMap()))]))
  {
    ManifestWorkLayout();
    ManifestPathsAvoidTimestamp();
    assert [] + [Metadata] == [Metadata] && [] + [Metadata, CreationTimestamp] == [Metadata, CreationTimestamp];
    SanitizedMetadataAbsent(NewManifestWork(), []);
    SanitizeCommutesWithAt(Obj(NewManifestWork()), KeyPath(["spec", "workload", "manifests"]));
    assert Sanitize(List([Obj(ConfigMap())])).items == [Sanitize(Obj(ConfigMap()))];
  }

  /** The sanitized ConfigMap is a map without a timestamp that still holds its data. */
  lemma SanitizedConfigMap()
    ensures Sanitize(Obj(ConfigMap())) == Obj(SanitizeFields(ConfigMap()))
    ensures NestedField(SanitizeFields(ConfigMap()), [Metadata, CreationTimestamp]) == Absent
    ensures NestedField(SanitizeFields(ConfigMap()), ["data", "some"]) == Found(Str("data"))
  {
    ConfigMapLayout();
    ManifestPathsAvoidTimestamp();
    assert [] + [Metadata] == [Metadata] && [] + [Metadata, CreationTimestamp] == [Metadata, CreationTimestamp];
    SanitizedMetadataAbsent(ConfigMap(), []);
    SanitizeCommutesWithAt(Obj(ConfigMap()), KeyPath(["data", "some"]));
  }

  /** Sanitizes the ManifestWork in place and reads its first manifest back from the same object. */
  method RemoveCreationTimeFromManifestWork() returns (top: Lookup, manifests: Lookup, first: Lookup, data: Lookup)
    ensures top == Absent
    ensures manifests.Found? && manifests.value.List? && |manifests.value.items| == 1
    ensures manifests.value.items[0].Obj?
    ensures first == Absent
    ensures data == Found(Str("data"))
  {
    var required := new Document(NewManifestWork());
    required.RemoveCreationTimeFromMetadata();
    top := NestedField(required.Object, [Metadata, CreationTimestamp]);
    manifests := NestedSlice(required.Object, ["spec", "workload", "manifests"]);

    SanitizedManifestWork();
    SanitizedConfigMap();
    var manifest := manifests.value.items[0].fields;
    first := NestedField(manifest, [Metadata, CreationTimestamp]);
    data := NestedField(manifest, ["data", "some"]);
  }

  // ---------------------------------------------------------------------------
  // TestServerSideApply

  /** Applying a new Namespace succeeds and returns an object with the required namespace and name. */
  lemma ApplyNamespaceSucceeds(tracker: Action -> Reply)
    ensures var required := NewUnstructured("v1", "Namespace", "", "test");
            var out := NewServerSideApply(FakeClient(tracker)).Apply(
              NamespacesResource, required, TestOwner, ServerSideApplyOption);
            && out.err.None? && out.obj.Some? && out.obj.value.Obj?
            && GetNamespace(out.obj.value.fields) == GetNamespace(required)
            && GetName(out.obj.value.fields) == GetName(required)
  {
    var required := NewUnstructured("v1", "Namespace", "", "test");
    var applier := NewServerSideApply(FakeClient(tracker));
    var out := applier.Apply(NamespacesResource, required, TestOwner, ServerSideApplyOption);
    var patch := out.actions[0];
    assert FakeClient(tracker)(patch).err.None?;
  }

  /**
   * Applying a Secret the store rejects with a field-manager conflict returns the
   * conflict error with that one cause and no object, after exactly one patch.
   */
  lemma ApplySecretConflicts(tracker: Action -> Reply)
    ensures var required := NewUnstructured("v1", "Secret", "ns1", "test");
            var out := NewServerSideApply(FakeClient(tracker)).Apply(
              SecretsResource, required, TestOwner, ServerSideApplyOption);
            && IsServerSideApplyConflict(out.err)
            && out.err.value.causes == [AnnotationsConflict]
            && out.obj.None?
            && |out.actions| == 1 && Verb(out.actions[0]) == "patch"
  {
    var required := NewUnstructured("v1", "Secret", "ns1", "test");
    var applier := NewServerSideApply(FakeClient(tracker));
    var out := applier.Apply(SecretsResource, required, TestOwner, ServerSideApplyOption);
    var patch := out.actions[0];
    assert FakeClient(tracker)(patch).err == Some(ApplyConflict([AnnotationsConflict], "server side apply secret failed"));
  }
}
