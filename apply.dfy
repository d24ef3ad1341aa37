/**
 * The server-side applier: it sanitizes a copy of the required document, stamps
 * the owner on it, issues one apply patch and classifies the store's reply.
 */
module ServerSideApply {
  import opened Wrappers
  import opened Unstructured
  import opened Sanitizer
  import opened ClientTesting

  /** The controller that owns the applied resource. */
  datatype OwnerReference = OwnerReference(apiVersion: string, kind: string, name: string, uid: string)

  /** The update strategies a manifest may select. */
  datatype UpdateStrategyType = StrategyUpdate | StrategyCreateOnly | StrategyServerSideApply

  /** The options of one apply: the strategy and whether to override fields owned by other managers. */
  datatype UpdateStrategy = UpdateStrategy(strategyType: UpdateStrategyType, force: bool)

  datatype ManifestConfigOption = ManifestConfigOption(updateStrategy: UpdateStrategy)

  /**
   * The errors `Apply` returns: the distinct conflict error carrying the store's
   * causes, any other store error unchanged, or a strategy this applier does not implement.
   */
  datatype ApplyError =
    | ServerSideApplyConflictError(causes: seq<StatusCause>, message: string)
    | StoreFailure(err: StoreError)
    | UnsupportedStrategy(strategyType: UpdateStrategyType)

  /** Whether an error returned by `Apply` is the conflict error (the `errors.As` test). */
  predicate IsServerSideApplyConflict(err: Option<ApplyError>): (r: bool)
    ensures r ==> err.Some? && !err.value.StoreFailure? && !err.value.UnsupportedStrategy?
    ensures err.Some? && !err.value.StoreFailure? && !err.value.UnsupportedStrategy? ==> r
  {
    err.Some? && err.value.ServerSideApplyConflictError?
  }

  /** What one call of `Apply` leaves behind: the actions it issued, the object and the error it returns. */
  datatype ApplyOutcome = ApplyOutcome(actions: seq<Action>, obj: Option<Value>, err: Option<ApplyError>)

  const OwnerReferences := "ownerReferences"

  /** The field manager identity of the work agent. */
  const DefaultFieldManager := "work-agent"

  /** An owner reference as it appears in a document. */
  function OwnerValue(o: OwnerReference): (v: Value)
    ensures v.Obj? && v.fields.Keys == {"apiVersion", "kind", "name", "uid"}
    ensures v.fields["apiVersion"] == Str(o.apiVersion) && v.fields["kind"] == Str(o.kind)
    ensures v.fields["name"] == Str(o.name) && v.fields["uid"] == Str(o.uid)
    ensures Clean(v)
  {
    var m := map["apiVersion" := Str(o.apiVersion), "kind" := Str(o.kind),
                 "name" := Str(o.name), "uid" := Str(o.uid)];
    CleanScalars(m);
    Obj(m)
  }

  /** The entries of `metadata.ownerReferences`, or none when it is missing or not a list. */
  function OwnerRefs(doc: map<string, Value>): (refs: seq<Value>)
    ensures NestedField(doc, [Metadata, OwnerReferences]).Found? &&
            NestedField(doc, [Metadata, OwnerReferences]).value.List? ==>
              refs == NestedField(doc, [Metadata, OwnerReferences]).value.items
    ensures refs != [] ==> NestedField(doc, [Metadata, OwnerReferences]).Found? &&
                           NestedField(doc, [Metadata, OwnerReferences]).value.List?
  {
    match NestedField(doc, [Metadata, OwnerReferences])
    case Found(List(xs)) => xs
    case _ => []
  }

  /** Distinct owners give distinct owner-reference entries. */
  lemma OwnerValueInjective(a: OwnerReference, b: OwnerReference)
    requires OwnerValue(a) == OwnerValue(b)
    ensures a == b
  {
    assert OwnerValue(a).fields["uid"] == OwnerValue(b).fields["uid"];
    assert OwnerValue(a).fields["name"] == OwnerValue(b).fields["name"];
    assert OwnerValue(a).fields["kind"] == OwnerValue(b).fields["kind"];
    assert OwnerValue(a).fields["apiVersion"] == OwnerValue(b).fields["apiVersion"];
  }

  /** Non-empty owner references are the list stored at `metadata.ownerReferences`. */
  lemma OwnerRefsStored(doc: map<string, Value>)
    ensures OwnerRefs(doc) != [] ==>
      Metadata in doc && doc[Metadata].Obj? && OwnerReferences in doc[Metadata].fields &&
      doc[Metadata].fields[OwnerReferences] == List(OwnerRefs(doc))
  {
    assert [Metadata, OwnerReferences][1..] == [OwnerReferences] && [OwnerReferences][1..] == [];
    if Metadata in doc && doc[Metadata].Obj? && OwnerReferences in doc[Metadata].fields {
      assert NestedField(doc, [Metadata, OwnerReferences]) == Found(doc[Metadata].fields[OwnerReferences]) by {
        assert FieldOf(Obj(doc), [Metadata, OwnerReferences]) == FieldOf(doc[Metadata], [OwnerReferences]);
      }
    } else if Metadata in doc && doc[Metadata].Obj? {
      assert FieldOf(Obj(doc), [Metadata, OwnerReferences]) == FieldOf(doc[Metadata], [OwnerReferences]);
    }
  }

  /** The metadata map of a document, or an empty one when it is missing or not a map. */
  function MetadataOf(doc: map<string, Value>): map<string, Value>
  {
    if Metadata in doc && doc[Metadata].Obj? then doc[Metadata].fields else map[]
  }

  /**
   * `doc` with `owner` appended to its owner references. Existing entries are
   * kept, and so is every other field of the document and of its metadata.
   */
  function WithOwner(doc: map<string, Value>, owner: OwnerReference): (r: map<string, Value>)
    ensures OwnerRefs(r) == OwnerRefs(doc) + [OwnerValue(owner)]
    ensures r.Keys == doc.Keys + {Metadata}
    ensures forall k :: k in doc && k != Metadata ==> r[k] == doc[k]
    ensures r[Metadata].Obj? && r[Metadata].fields.Keys == MetadataOf(doc).Keys + {OwnerReferences}
    ensures forall k :: k in MetadataOf(doc) && k != OwnerReferences ==>
              r[Metadata].fields[k] == MetadataOf(doc)[k]
  {
    var meta := MetadataOf(doc);
    var r := doc[Metadata := Obj(meta[OwnerReferences := List(OwnerRefs(doc) + [OwnerValue(owner)])])];
    assert NestedField(r, [Metadata, OwnerReferences]) == Found(List(OwnerRefs(doc) + [OwnerValue(owner)])) by {
      assert [Metadata, OwnerReferences][1..] == [OwnerReferences] && [OwnerReferences][1..] == [];
      assert FieldOf(Obj(r), [Metadata, OwnerReferences]) == FieldOf(r[Metadata], [OwnerReferences]);
      assert FieldOf(r[Metadata], [OwnerReferences]) == FieldOf(List(OwnerRefs(doc) + [OwnerValue(owner)]), []);
    }
    r
  }

  /** Stamping the owner on a document without creation timestamps brings none in. */
  lemma WithOwnerKeepsClean(doc: map<string, Value>, owner: OwnerReference)
    requires Clean(Obj(doc))
    ensures Clean(Obj(WithOwner(doc, owner)))
  {
    var meta := MetadataOf(doc);
    if Metadata in doc && doc[Metadata].Obj? {
      CleanChild(doc, Metadata);
      RootTimestamp(Obj(doc));
    } else {
      CleanScalars(meta);
    }
    assert Clean(Obj(meta)) && CreationTimestamp !in meta;
    var xs := OwnerRefs(doc);
    assert [Metadata, OwnerReferences][1..] == [OwnerReferences] && [OwnerReferences][1..] == [];
    OwnerRefsStored(doc);
    if xs != [] {
      CleanChild(meta, OwnerReferences);
    }
    var ys := xs + [OwnerValue(owner)];
    forall i | 0 <= i < |ys| ensures Clean(ys[i]) {
      if i < |xs| {
        CleanItem(xs, i);
      }
    }
    CleanList(ys);
    CleanUpdate(meta, OwnerReferences, List(ys));
    CleanUpdate(doc, Metadata, Obj(meta[OwnerReferences := List(ys)]));
  }

  /** Sanitizing keeps the name and namespace a document is addressed by. */
  lemma SanitizeKeepsIdentity(doc: map<string, Value>)
    ensures GetName(SanitizeFields(doc)) == GetName(doc)
    ensures GetNamespace(SanitizeFields(doc)) == GetNamespace(doc)
  {
    var p := KeyPath([Metadata, "name"]);
    var q := KeyPath([Metadata, "namespace"]);
    assert p == [Key(Metadata), Key("name")] && q == [Key(Metadata), Key("namespace")];
    assert p[1..] == [Key("name")] && q[1..] == [Key("namespace")];
    SanitizeCommutesWithAt(Obj(doc), p);
    SanitizeCommutesWithAt(Obj(doc), q);
  }

  /** Stamping the owner keeps the name and namespace a document is addressed by. */
  lemma WithOwnerKeepsIdentity(doc: map<string, Value>, owner: OwnerReference)
    ensures GetName(WithOwner(doc, owner)) == GetName(doc)
    ensures GetNamespace(WithOwner(doc, owner)) == GetNamespace(doc)
  {
    assert [Metadata, "name"][1..] == ["name"] && ["name"][1..] == [];
    assert [Metadata, "namespace"][1..] == ["namespace"] && ["namespace"][1..] == [];
  }

  /**
   * The applier, holding the client it writes through and the field manager
   * identity it writes as. The client is the store seen from here: it maps the
   * one request issued to the reply the store gives.
   */
  datatype Applier = Applier(client: Action -> Reply, fieldManager: string)
  {
    /** The single apply patch issued for `required`. */
    function PatchFor(gvr: GroupVersionResource, required: map<string, Value>, owner: OwnerReference,
                      force: bool): (a: Action)
      ensures a.PatchAction? && a.patchType == ApplyPatchType && Verb(a) == "patch"
      ensures a.resource == gvr && a.namespace == GetNamespace(required) && a.name == GetName(required)
      ensures GetNamespace(a.patch) == GetNamespace(required) && GetName(a.patch) == GetName(required)
      ensures Clean(Obj(a.patch))
      ensures OwnerRefs(a.patch) == OwnerRefs(SanitizeFields(required)) + [OwnerValue(owner)]
      ensures a.fieldManager == fieldManager && a.force == force
      ensures a.patch == WithOwner(SanitizeFields(required), owner)
      ensures forall k :: k in required && k != Metadata ==> a.patch[k] == Sanitize(required[k])
    {
      var body := SanitizeFields(required);
      SanitizeIsClean(Obj(required));
      WithOwnerKeepsClean(body, owner);
      SanitizeKeepsIdentity(required);
      WithOwnerKeepsIdentity(body, owner);
      PatchAction(gvr, GetNamespace(required), GetName(required), ApplyPatchType,
                  WithOwner(body, owner), fieldManager, force)
    }

    /**
     * Applies `required` to the resource collection `gvr` on behalf of `owner`.
     * A strategy other than server-side apply fails before anything is sent.
     * Otherwise exactly one patch is issued (there is no retry), an apply
     * conflict becomes the conflict error with the store's causes, any other
     * error is returned as the store reported it, and no object is returned
     * beside an error.
     */
    function Apply(gvr: GroupVersionResource, required: map<string, Value>, owner: OwnerReference,
                   option: ManifestConfigOption): (out: ApplyOutcome)
      ensures option.updateStrategy.strategyType != StrategyServerSideApply ==>
                out == ApplyOutcome([], None, Some(UnsupportedStrategy(option.updateStrategy.strategyType)))
      ensures option.updateStrategy.strategyType == StrategyServerSideApply ==>
                out.actions == [PatchFor(gvr, required, owner, option.updateStrategy.force)]
      ensures out.err.Some? ==> out.obj.None?
      ensures |out.actions| == 1 ==>
                var reply := client(out.actions[0]);
                && (IsServerSideApplyConflict(out.err) <==> reply.err.Some? && reply.err.value.ApplyConflict?)
                && (IsServerSideApplyConflict(out.err) ==> out.err.value.causes == reply.err.value.causes)
                && (reply.err.Some? && reply.err.value.Generic? ==> out.err == Some(StoreFailure(reply.err.value)))
                && (reply.err.None? ==> out.err.None? && out.obj == reply.obj)
    {
      var strategy := option.updateStrategy;
      if strategy.strategyType != StrategyServerSideApply then
        ApplyOutcome([], None, Some(UnsupportedStrategy(strategy.strategyType)))
      else
        var patch := PatchFor(gvr, required, owner, strategy.force);
        var reply := client(patch);
        match reply.err
        case Some(ApplyConflict(causes, message)) =>
          ApplyOutcome([patch], None, Some(ServerSideApplyConflictError(causes, message)))
        case Some(e) => ApplyOutcome([patch], None, Some(StoreFailure(e)))
        case None => ApplyOutcome([patch], reply.obj, None)
    }
  }

  /** `NewServerSideApply`: an applier over the given client, writing as the work agent. */
  function NewServerSideApply(client: Action -> Reply): (a: Applier)
    ensures a.client == client && a.fieldManager == DefaultFieldManager
  {
    Applier(client, DefaultFieldManager)
  }
}
