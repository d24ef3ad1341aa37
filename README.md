# Server-side apply of the work agent, in Dafny

This project models the server-side-apply unit of the work agent
(`pkg/work/spoke/apply`). The part of it that the unit's tests fix is covered:

- **The creation-timestamp sanitizer** (`removeCreationTimeFromMetadata`).
  A document is an untyped tree (`Unstructured.Value`: null, bool, int,
  string, list, map). The sanitizer deletes `creationTimestamp` from the
  `metadata` map of the document. It also deletes it from every map nested
  anywhere below: the pod template of a Deployment, and each manifest embedded
  in a ManifestWork's `spec.workload.manifests` list. `Sanitizer.Sanitize` and
  `Sanitizer.SanitizeFields` are the pure rewrite. `Sanitizer.Document` is the
  caller's object: a class whose method rewrites its own `Object` map in place,
  so the test reads the result from the same object. The lemmas prove four
  things. No timestamp is left at any depth. A path that avoids the removed
  field, and does not stop at a `metadata` map, leads to the sanitized form
  of what it led to before, so a scalar there reads the same as before.
  Sanitizing twice is the same as sanitizing once. A document with
  no timestamp is left unchanged.
- **The applier** (`ServerSideApply.Applier.Apply`). It sanitizes the required
  document and adds the owner to its owner references. It then issues exactly
  one apply patch to the object's own namespace and name, and classifies the
  store's reply:
  - an apply conflict becomes the distinct `ServerSideApplyConflictError`, with
    the store's causes;
  - any other error is returned unchanged;
  - a success returns the store's object;
  - no object is returned alongside an error.

  The store is a parameter: a function from the issued action to the reply.
- **The fake reactor of the tests** (`Handles`, `React`) and the fake client
  that puts the reactor in front of its object tracker. These, with the
  fixtures, give the outcomes `TestServerSideApply` and `TestRemoveCreationTime`
  check. The scenarios are proved for every content of the object tracker.

Modules: `Wrappers` (Option), `Unstructured` (document tree and accessors),
`Sanitizer`, `ClientTesting` (actions, store errors and replies),
`ServerSideApply` (the applier) and `ServerSideApplyTest` (reactor, fixtures,
test outcomes).

Notes on the model:

- Where the sanitizer meets an embedded manifest, the converter has already
  turned it into a map (the test casts it to a map at
  `server_side_apply_test.go:191`). So the sanitizer recurses through the tree
  structurally, with no byte parsing. This differs from a reading in which each
  embedded payload is parsed from bytes and written back.
- The sanitizer deletes the key rather than storing null. The test's
  `NestedFieldCopy` reports a stored null as present, and the test demands
  "not present".
- `Unstructured.FieldOf` follows the accessor's three outcomes:
  - a null met before the last field reads as not found;
  - any other non-map there reads as an accessor error;
  - a null stored at the last field counts as found.
- The implementation file `pkg/work/spoke/apply/server_side_apply.go` is not
  part of this model. Four things in `Apply` follow the component's documented
  design, not code: the strategy check, the owner stamping, the field manager
  identity (`work-agent`) and the force flag.

## Model

| member | source | states |
|---|---|---|
| `Unstructured.FieldOf` | pkg/work/spoke/apply/server_side_apply_test.go:155-168 | the nested-field accessor finds a value exactly when the key path leads to one, and then finds that value |
| `Unstructured.NestedSlice` | pkg/work/spoke/apply/server_side_apply_test.go:183-189 | a slice lookup succeeds exactly when the field is found and holds a list; a found value of any other kind is an accessor error; a missing field or an error is passed through |
| `Unstructured.NestedString` | pkg/work/spoke/apply/server_side_apply_test.go:94 | a non-empty result is the string stored at that path; a stored string is always returned |
| `Unstructured.GetName` | pkg/work/spoke/apply/server_side_apply_test.go:94 | a non-empty name is the string stored at `metadata.name`; a stored string there is always returned |
| `Unstructured.GetNamespace` | pkg/work/spoke/apply/server_side_apply_test.go:94 | a non-empty namespace is the string stored at `metadata.namespace`; a stored string there is always returned |
| `Sanitizer.Sanitize` | pkg/work/spoke/apply/server_side_apply_test.go:204 | sanitizing keeps the node's kind, its scalar value, its list length and its map keys |
| `Sanitizer.SanitizeFields` | pkg/work/spoke/apply/server_side_apply_test.go:204 | sanitizing a map keeps all its top-level keys |
| `Sanitizer.SanitizeRemovesAt` | pkg/work/spoke/apply/server_side_apply_test.go:155-168 | after sanitizing, no path at any depth, through maps or list elements, ends in `metadata.creationTimestamp` |
| `Sanitizer.SanitizeIsClean` | pkg/work/spoke/apply/server_side_apply_test.go:155-197 | the sanitized document carries no creation timestamp anywhere, embedded manifests included |
| `Sanitizer.SanitizeCleanIsIdentity` | pkg/work/spoke/apply/server_side_apply_test.go:204 | a document with no creation timestamp anywhere is left exactly as it was |
| `Sanitizer.SanitizeIdempotent` | pkg/work/spoke/apply/server_side_apply_test.go:204 | sanitizing twice gives the same document as sanitizing once |
| `Sanitizer.SanitizeCommutesWithAt` | pkg/work/spoke/apply/server_side_apply_test.go:183-191 | a lookup along a path that avoids the removed field, and does not stop at a metadata map, finds the sanitized form of what it found before (so manifests stay a list of maps and data is kept) |
| `Sanitizer.SanitizedMetadataAbsent` | pkg/work/spoke/apply/server_side_apply_test.go:155-168 | wherever the input has a metadata map at some key path, the accessor on the sanitized map reports that path's creation timestamp as not found, with no accessor error |
| `Sanitizer.Document.RemoveCreationTimeFromMetadata` | pkg/work/spoke/apply/server_side_apply_test.go:204-205 | the caller's object map is replaced in place by its sanitized form and carries no timestamp afterwards |
| `ClientTesting.Verb` | pkg/work/spoke/apply/server_side_apply_test.go:54 | a recorded patch action reports the verb "patch" |
| `ServerSideApply.OwnerValue` | pkg/work/spoke/apply/server_side_apply_test.go:40 | an owner reference entry is a map with exactly the keys apiVersion, kind, name and uid, holding the owner's values, and carries no creation timestamp |
| `ServerSideApply.OwnerValueInjective` | pkg/work/spoke/apply/server_side_apply_test.go:40 | distinct owners give distinct owner-reference entries |
| `ServerSideApply.OwnerRefs` | pkg/work/spoke/apply/server_side_apply_test.go:82-83 | the owner references are the list found at `metadata.ownerReferences`, and there are none when no list is found there |
| `ServerSideApply.WithOwner` | pkg/work/spoke/apply/server_side_apply_test.go:82-83 | stamping the owner appends it to the existing owner references and keeps every other field of the document and its metadata |
| `ServerSideApply.WithOwnerKeepsClean` | pkg/work/spoke/apply/server_side_apply_test.go:82-83 | stamping the owner on a timestamp-free document brings no timestamp in |
| `ServerSideApply.SanitizeKeepsIdentity` | pkg/work/spoke/apply/server_side_apply_test.go:94 | sanitizing keeps the document's name and namespace |
| `ServerSideApply.WithOwnerKeepsIdentity` | pkg/work/spoke/apply/server_side_apply_test.go:94 | stamping the owner keeps the document's name and namespace |
| `ServerSideApply.Applier.PatchFor` | pkg/work/spoke/apply/server_side_apply_test.go:82-84 | the one patch is an apply patch to the required namespace and name. Its body is exactly the sanitized required document with the owner stamped on: every top-level field other than metadata is the sanitized field of the required document. The body carries no timestamp, keeps the identity and has the owner appended |
| `ServerSideApply.IsServerSideApplyConflict` | pkg/work/spoke/apply/server_side_apply_test.go:101-102 | an error is the conflict error exactly when it is present and is neither a store failure nor an unsupported strategy |
| `ServerSideApply.Applier.Apply` | pkg/work/spoke/apply/server_side_apply_test.go:82-104 | one patch is issued, never retried. The result is the conflict error exactly when the store reports an apply conflict, with the store's causes. Other errors pass through unchanged. On success the store's object is returned. No object comes with an error. A strategy other than server-side apply fails with no action |
| `ServerSideApply.NewServerSideApply` | pkg/work/spoke/apply/server_side_apply_test.go:74 | the applier writes through the given client as the work agent's field manager |
| `ServerSideApplyTest.Handles` | pkg/work/spoke/apply/server_side_apply_test.go:113-124 | the reactor handles an action exactly when it is a patch, of any patch type (non-apply patches fall through to the final `return true`) |
| `ServerSideApplyTest.React` | pkg/work/spoke/apply/server_side_apply_test.go:128-143 | always handled. "namespaces" answers a v1 Namespace named "test" with an empty namespace and no error. "secrets" answers no object and an apply conflict with the single `FieldManagerConflict` cause on `metadata.annotations` and the message "server side apply secret failed". Any other resource answers no object and "PatchType is not supported" |
| `ServerSideApplyTest.ReactDependsOnlyOnResource` | pkg/work/spoke/apply/server_side_apply_test.go:129 | two actions with the same resource name get the same reaction |
| `ServerSideApplyTest.FakeClient` | pkg/work/spoke/apply/server_side_apply_test.go:66-72 | a patch is answered by the reactor, with no object alongside an error; every other action goes to the object tracker |
| `ServerSideApplyTest.FakeReply` | pkg/work/spoke/apply/server_side_apply_test.go:66-72 | one action's reply: a patch is answered by the reactor, with no object alongside an error; any other action by the object tracker |
| `ServerSideApplyTest.FakeClientRouting` | pkg/work/spoke/apply/server_side_apply_test.go:70-72 | with the reactor in front, a patch's reply does not depend on the object tracker, and every other verb goes to the tracker |
| `ServerSideApplyTest.FixtureIdentity` | pkg/work/spoke/apply/server_side_apply_test.go:94 | the type and coordinate accessors read the stored apiVersion, kind, name and namespace |
| `ServerSideApplyTest.NewUnstructured` | pkg/work/spoke/apply/server_side_apply_test.go:42 | the object reads back the apiVersion, kind, namespace and name it is built with |
| `ServerSideApplyTest.NewDeployment` | pkg/work/spoke/apply/server_side_apply_test.go:210-241 | the fixture is an apps/v1 Deployment test/test with a creation timestamp in its top metadata |
| `ServerSideApplyTest.ConfigMap` | pkg/work/spoke/apply/server_side_apply_test.go:244-259 | the embedded fixture is a v1 ConfigMap default/cm-test with a creation timestamp in its metadata |
| `ServerSideApplyTest.NewManifestWork` | pkg/work/spoke/apply/server_side_apply_test.go:243-281 | the fixture is a ManifestWork test/test with a creation timestamp in its top metadata |
| `ServerSideApplyTest.DeploymentMetadata` | pkg/work/spoke/apply/server_side_apply_test.go:210-241 | the Deployment fixture has metadata maps at the top and in its pod template |
| `ServerSideApplyTest.ManifestWorkLayout` | pkg/work/spoke/apply/server_side_apply_test.go:243-281 | the ManifestWork fixture has a metadata map, and its manifests list holds the ConfigMap as a map |
| `ServerSideApplyTest.ConfigMapLayout` | pkg/work/spoke/apply/server_side_apply_test.go:244-259 | the embedded ConfigMap has a metadata map and the data entry "some" = "data" |
| `ServerSideApplyTest.RemoveCreationTimeFromDeployment` | pkg/work/spoke/apply/server_side_apply_test.go:151-169 | after the in-place sanitizing, both `metadata.creationTimestamp` and `spec.template.metadata.creationTimestamp` read as not found, with no error |
| `ServerSideApplyTest.SanitizedManifestWork` | pkg/work/spoke/apply/server_side_apply_test.go:171-189 | the sanitized ManifestWork has no top-level timestamp, and its manifests are a list holding exactly the sanitized ConfigMap |
| `ServerSideApplyTest.SanitizedConfigMap` | pkg/work/spoke/apply/server_side_apply_test.go:190-197 | the sanitized ConfigMap is a map with no timestamp that still holds "some" = "data" |
| `ServerSideApplyTest.RemoveCreationTimeFromManifestWork` | pkg/work/spoke/apply/server_side_apply_test.go:171-198 | after the in-place sanitizing, the top-level timestamp is not found. The manifests are still a one-element list whose element is a map. That element has no timestamp and still holds its data |
| `ServerSideApplyTest.ApplyNamespaceSucceeds` | pkg/work/spoke/apply/server_side_apply_test.go:38-45 | applying the new Namespace returns no error and an object whose namespace and name equal the required ones, whatever the tracker holds |
| `ServerSideApplyTest.ApplySecretConflicts` | pkg/work/spoke/apply/server_side_apply_test.go:46-56 | applying the Secret returns the conflict error with the single annotations cause and no object. Exactly one action, a "patch", is recorded, whatever the tracker holds |

## Left out

- Serialization is left out: the JSON bytes of the patch, the unstructured converter and `MarshalJSON`. The fixtures are written out as the converted trees they produce. With no bytes, an embedded payload that fails to parse cannot occur here.
- The fixtures carry only null creation timestamps, as the converter emits for a zero time. The model deletes the key whatever its value, but no fixture exercises a non-null one.
- Go maps are shared references, so the sanitizer changes nested maps through those shared references. The model rewrites values instead. Two parents sharing one nested map are therefore not modelled.
- The store's own merge is left out: field ownership tracking, the merged owner list of the converged object and the merge itself. Only the patch the applier sends is specified, not what the store makes of it.
- The object tracker and the default reactors of the fake client are left abstract: any function from action to reply. The scheme setup is left out too.
- The event recorder, the sync context and `context.TODO()` are left out. So are cancellation and concurrency between calls.
- Go's `errors.As` is modelled as a constructor test on the returned error.
- `WithOwner` replaces a `metadata` that is present but not a map. It does not model the error that setting a nested field reports in that case.
- `OwnerRefs` returns the stored list as it is. It does not model the conversion that drops malformed owner-reference entries.
- Floating-point numbers are left out: the document tree has integers only.
- The generated documentation maps of the quota API (`zz_generated.swagger_doc_generated.go`) are left out. They have no behaviour to verify.
