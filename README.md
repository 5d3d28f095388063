# Dry-run capability check and GitTrackObject status reconciliation

A Dafny model of two decision procedures of the faros controller.

- `DryRun` (dry_run.dfy) models `DryRunVerifier.HasSupport`: before the
  controller sends a request with dryRun set, it decides whether the API server
  honours dryRun for a group-version-kind (GVK). The OpenAPI document is fetched
  (a failure is fatal); the document's answer for the GVK is final when it has
  one; otherwise the built-in Namespace kind (`""/v1/Namespace`) is looked up,
  and only if Namespace supports dry-run is the CRD finder asked whether a CRD
  registers the GVK's group and kind (its failure is fatal too). A false answer
  becomes an "unsupported" error naming the GVK. The collaborators are replaced
  by the answers they give (`DryRunVerifier.openAPI`, `DryRunVerifier.finder`,
  and the document as a partial map from GVK to "accepts dryRun"), and
  `HasSupport` returns the outcome together with the trace of collaborator
  calls it made, so that which tiers are consulted is part of what is proved.
- `GitTrackObjectController` (status.dfy) models the status update of a
  GitTrackObject: `setCondition` builds the "in sync" condition (False with the
  error's text, or True with an empty message, with the given reason),
  `updateGitTrackObjectStatus` replaces the object's `Status` in place only when
  the freshly computed status differs structurally (order-sensitive, as
  `reflect.DeepEqual` compares the condition list), and `updateStatus` works on
  a deep copy and calls the API client's `Update` at most once. The object is a
  class with mutable `Meta`, `Spec` and `Status` fields; the client is a class
  that logs every object passed to `Update` and answers with a fixed reply.
- `Wrappers` (wrappers.dfy) holds `Option`, `Result` and `Outcome`.

`HasSupport` falls through to the Namespace tier on every error that
`openapi.SupportsDryRun` returns (pkg/utils/dry_run_verifier.go:52), not only
on a kind that is not found; in the model every GVK absent from the document is
such an error.

The helpers `DryRun.SupportsDryRun` (the library's `openapi.SupportsDryRun`),
`DryRun.GroupKindOf` (`gvk.GroupKind()`), `DryRun.Verdict` (the translation
of the final boolean at pkg/utils/dry_run_verifier.go:63-66) and
`GitTrackObjectController.GetCondition` (a lookup by condition type used to
state the setter's properties) carry no row of their own: what they do is
stated through `DryRun.HasSupport` and the condition lemmas.

## Model

| member | source | states |
|---|---|---|
| `DryRun.HasSupport` | pkg/utils/dry_run_verifier.go:46-67 | exactly one schema fetch, first; a failed fetch returns the download error and consults nothing else; a GVK the document describes is answered by the document alone (nil iff it accepts dryRun) after one lookup; the CRD finder is asked at most once, only with the GVK's group and kind, and exactly when the GVK is unknown and Namespace supports dry-run; an unknown GVK is always followed by the Namespace lookup; a CRD lookup error is reported as "failed to check CRD" carrying the finder's error, exactly when it happens; success iff the tiered decision holds; "unsupported" names the GVK |
| `DryRun.KnownKindIgnoresFinder` | pkg/utils/dry_run_verifier.go:51-66 | for a GVK the document describes, the answer and calls do not depend on the CRD finder |
| `DryRun.UnknownKindWithoutNamespaceSupport` | pkg/utils/dry_run_verifier.go:52-64 | an unknown GVK on a server whose Namespace lacks dry-run is unsupported, and the CRD finder is never called |
| `DryRun.NamespaceLookupErrorIsDiscarded` | pkg/utils/dry_run_verifier.go:54 | a failed Namespace lookup behaves exactly like one answering "no dry-run": its error is dropped, only its boolean counts |
| `DryRun.FinderSeesOnlyGroupKind` | pkg/utils/dry_run_verifier.go:57 | two unknown GVKs differing only in version get the same success or CRD-error verdict: the finder is queried without the version |
| `DryRun.DeploymentWithoutDryRun` | pkg/utils/dry_run_verifier.go:51-65 | apps/v1 Deployment described without dry-run is refused with an error naming the Deployment kind, with no CRD query |
| `DryRun.WidgetBackedByCRD` | pkg/utils/dry_run_verifier.go:52-66 | example.com/v1 Widget absent from the document, with Namespace supporting dry-run and the CRD found, is supported |
| `GitTrackObjectController.NewStatusOpts` | pkg/controller/gittrackobject/status.go:35-39 | the default options carry no error and reason ChildAppliedSuccess, so they yield a single InSync condition that is True with an empty message |
| `GitTrackObjectController.SetGitTrackObjectCondition` | pkg/controller/gittrackobject/status.go:67 | the set condition is in the result; every result condition is the new one or an old one; every old condition of another type survives |
| `GitTrackObjectController.SetThenGet` | pkg/controller/gittrackobject/status.go:78 | after setting c, looking up c's type gives c and every other type reads as before |
| `GitTrackObjectController.SetKeepsUniqueTypes` | pkg/controller/gittrackobject/status.go:67 | setting a condition keeps at most one condition per type |
| `GitTrackObjectController.SetReplacesInPlace` | pkg/controller/gittrackobject/status.go:67 | a condition whose type is present replaces it at the same position, all else unchanged |
| `GitTrackObjectController.SetAppendsNewType` | pkg/controller/gittrackobject/status.go:78 | a condition of a new type is appended at the end |
| `GitTrackObjectController.SetCondition` | pkg/controller/gittrackobject/status.go:58-79 | afterwards the status has a condition of the given type with the given reason: False with the error's text when there is an error, True with an empty message otherwise; other types are untouched; uniqueness per type is kept |
| `GitTrackObjectController.DesiredStatus` | pkg/controller/gittrackobject/status.go:47-49 | the fresh status is exactly one InSync condition with the pass's reason: False with the error's text when the pass had an error, True with an empty message otherwise |
| `GitTrackObjectController.DesiredStatusInjective` | pkg/controller/gittrackobject/status.go:47-51 | equal fresh statuses come only from equal options, so any change in a pass's outcome is detected by the comparison |
| `GitTrackObjectController.GitTrackObject.DeepCopy` | pkg/controller/gittrackobject/status.go:85 | the copy is a new object with the same value |
| `GitTrackObjectController.Client.Update` | pkg/controller/gittrackobject/status.go:91 | the object's value is appended to the write log and the server's reply is returned |
| `GitTrackObjectController.UpdateGitTrackObjectStatus` | pkg/controller/gittrackobject/status.go:43-56 | a nil object gives false and nothing changes; otherwise the result is true iff the prior status differs from the fresh one, the status afterwards is the fresh one in either case, and metadata and spec are unchanged |
| `GitTrackObjectController.ReconcileGitTrackObject.UpdateStatus` | pkg/controller/gittrackobject/status.go:83-97 | `original` is never modified; at most one write; no write and nil when the status is already the fresh one (or the object is nil); otherwise exactly one write of `original` with only its status replaced, and the result wraps the server's error if it refused, nil if not |

## Left out

- `NewDryRunVerifier` (pkg/utils/dry_run_verifier.go:70-85): building the dynamic and discovery clients from a REST config is client wiring with no decision in it.
- The internals of `OpenAPISchema`, `openapi.SupportsDryRun` and `CRDFinder.HasCRD` are network-bound library calls; they are given by their answers. When `SupportsDryRun` fails, its boolean is taken to be false, the zero value a Go function returns beside an error.
- Error texts (`fmt.Errorf`) are not modelled; errors are datatypes carrying the cause's text or the GVK.
- `NewGitTrackObjectCondition` and `SetGitTrackObjectCondition` are not part of this model's source; the setter is modelled as replace-in-place-or-append keyed by type, and the condition's transition timestamps are left out. The "no write when the status is already the fresh one" results therefore assume that a freshly built condition compares equal to the stored one; if the condition builder stamps times, `reflect.DeepEqual` may never find them equal and every pass would write.
- `StatusOpts` is a value, so the nil-pointer dereference of `opts` (pkg/controller/gittrackobject/status.go:49) when `updateGitTrackObjectStatus` is given a nil `opts` and a non-nil object is not modelled.
- `reflect.DeepEqual` and `DeepCopy` are structural equality and value copy on datatypes.
- Logging, `context.TODO()` and the API server's concurrency and conflict handling are left out; a conflict is one more refused `Update`.
- Collaborator answers are fixed for the duration of one call: a server whose schema or CRDs change in the middle of a probe is not modelled.
