/**
 * The boundary with the object store as the fake dynamic client sees it: the
 * actions it records, the errors the store reports and the replies it gives.
 */
module ClientTesting {
  import opened Wrappers
  import opened Unstructured

  /** The collection a document belongs to. */
  datatype GroupVersionResource = GroupVersionResource(group: string, version: string, resource: string)

  /** The patch formats a patch request can carry. */
  datatype PatchType = JSONPatchType | MergePatchType | StrategicMergePatchType | ApplyPatchType

  /**
   * A request the client records: a patch, carrying its body, field manager and
   * force flag, or any other verb (get, create, update, ...).
   */
  datatype Action =
    | PatchAction(resource: GroupVersionResource, namespace: string, name: string,
                  patchType: PatchType, patch: map<string, Value>, fieldManager: string, force: bool)
    | OtherAction(verb: string, resource: GroupVersionResource, namespace: string, name: string)

  /** The verb a recorded action reports. */
  function Verb(a: Action): (v: string)
    ensures a.PatchAction? ==> v == "patch"
  {
    match a
    case PatchAction(_, _, _, _, _, _, _) => "patch"
    case OtherAction(verb, _, _, _) => verb
  }

  /** One cause of a failed request: its type, a message and the field concerned. */
  datatype StatusCause = StatusCause(causeType: string, message: string, field: string)

  const CauseTypeFieldManagerConflict := "FieldManagerConflict"

  /**
   * An error from the store: an apply conflict (another manager owns a field the
   * patch changes) with its causes, or any other error.
   */
  datatype StoreError = ApplyConflict(causes: seq<StatusCause>, message: string) | Generic(message: string)

  /** What the client hands back for a request: an object or nil, an error or nil. */
  datatype Reply = Reply(obj: Option<Value>, err: Option<StoreError>)

  /** What a reactor returns: whether it handled the action, and the object and error it answers with. */
  datatype Reaction = Reaction(handled: bool, ret: Option<Value>, err: Option<StoreError>)
}
