/**
 * The dry-run capability check of the controller's utilities: before sending
 * a request with dryRun set, the controller asks whether the API server
 * honours dryRun for the object's group-version-kind. The OpenAPI document
 * is consulted first; a kind it does not describe is assumed to be a CRD if
 * the built-in Namespace kind supports dry-run, in which case the server is
 * asked whether a CRD registers that group and kind.
 *
 * The collaborators (the OpenAPI getter, the SupportsDryRun lookup and the
 * CRD finder) are replaced by the answers they give, and every call made to
 * them is recorded in a trace, so that which tiers are consulted can be
 * stated alongside the answer.
 */
module DryRun {
  import opened Wrappers

  datatype GroupVersionKind = GroupVersionKind(group: string, version: string, kind: string)

  datatype GroupKind = GroupKind(group: string, kind: string)

  /** `gvk.GroupKind()`: the version is dropped. */
  function GroupKindOf(gvk: GroupVersionKind): GroupKind
  {
    GroupKind(gvk.group, gvk.kind)
  }

  /** The reference kind whose support stands in for unknown kinds. */
  const NamespaceGVK := GroupVersionKind("", "v1", "Namespace")

  /**
   * The OpenAPI document, reduced to what the dry-run lookup reads from it:
   * for each kind the document describes, whether it accepts dryRun. A kind
   * that is not a key is one the lookup returns an error for.
   */
  datatype Document = Document(dryRun: map<GroupVersionKind, bool>)

  /** The error `openapi.SupportsDryRun` returns for a kind it cannot find. */
  datatype LookupError = KindNotFound(gvk: GroupVersionKind)

  /**
   * `openapi.SupportsDryRun(doc, gvk)`: the answer and the error, the answer
   * being false whenever an error is returned.
   */
  function SupportsDryRun(doc: Document, gvk: GroupVersionKind): (bool, Option<LookupError>)
  {
    if gvk in doc.dryRun then (doc.dryRun[gvk], None) else (false, Some(KindNotFound(gvk)))
  }

  /**
   * The verifier's two collaborators, given by the answers they return:
   * `openAPI` is what `OpenAPIGetter.OpenAPISchema()` returns (the document or
   * the transport error's text) and `finder` is `Finder.HasCRD` (whether a CRD
   * registers the group and kind, or the error's text).
   */
  datatype DryRunVerifier = DryRunVerifier(
    openAPI: Result<Document, string>,
    finder: GroupKind -> Result<bool, string>)

  /** A call made to a collaborator. */
  datatype Call = FetchOpenAPI | LookupDryRun(gvk: GroupVersionKind) | FindCRD(gk: GroupKind)

  /** The three errors `HasSupport` returns. */
  datatype VerifyError =
    | OpenAPIDownloadFailed(cause: string)
    | CRDCheckFailed(cause: string)
    | Unsupported(gvk: GroupVersionKind)

  /** What `HasSupport` returns, with the collaborator calls it made, in order. */
  datatype Probe = Probe(outcome: Outcome<VerifyError>, calls: seq<Call>)

  /** Whether the Namespace kind is reported to support dry-run; the lookup's error is ignored. */
  predicate NamespaceSupportsDryRun(doc: Document)
  {
    SupportsDryRun(doc, NamespaceGVK).0
  }

  /**
   * The decision the tiers are meant to reach when no collaborator fails:
   * a kind the document describes is judged by the document alone; any other
   * kind is supported exactly when Namespace is and a CRD registers its group
   * and kind.
   */
  predicate DecidedSupported(doc: Document, crd: Result<bool, string>, gvk: GroupVersionKind)
  {
    if gvk in doc.dryRun then doc.dryRun[gvk]
    else NamespaceSupportsDryRun(doc) && crd == Ok(true)
  }

  function Verdict(gvk: GroupVersionKind, supports: bool): Outcome<VerifyError>
  {
    if supports then Pass else Fail(Unsupported(gvk))
  }

  /**
   * `DryRunVerifier.HasSupport(gvk)`: nil when dry-run may be used for gvk,
   * otherwise the reason it may not.
   */
  function HasSupport(v: DryRunVerifier, gvk: GroupVersionKind): (p: Probe)
    // the schema is fetched exactly once, first, and a failed fetch ends the call
    ensures |p.calls| >= 1 && p.calls[0] == FetchOpenAPI && multiset(p.calls)[FetchOpenAPI] == 1
    ensures v.openAPI.Err? <==> p.outcome.Fail? && p.outcome.error.OpenAPIDownloadFailed?
    ensures v.openAPI.Err? ==> p.outcome == Fail(OpenAPIDownloadFailed(v.openAPI.error))
    ensures v.openAPI.Err? ==> p.calls == [FetchOpenAPI]
    // a kind the document describes is answered by the document alone
    ensures v.openAPI.Ok? && gvk in v.openAPI.value.dryRun ==>
              p.calls == [FetchOpenAPI, LookupDryRun(gvk)] &&
              (p.outcome == Pass <==> v.openAPI.value.dryRun[gvk])
    // the CRD finder is asked at most once, only with gvk's group and kind, and only
    // when gvk is unknown to the document and Namespace supports dry-run
    ensures forall c :: c in p.calls && c.FindCRD? ==> c.gk == GroupKindOf(gvk)
    ensures multiset(p.calls)[FindCRD(GroupKindOf(gvk))] <= 1
    ensures FindCRD(GroupKindOf(gvk)) in p.calls <==>
              v.openAPI.Ok? && gvk !in v.openAPI.value.dryRun && NamespaceSupportsDryRun(v.openAPI.value)
    // a failing CRD lookup is reported as such, never as "unsupported"
    ensures (exists cause :: p.outcome == Fail(CRDCheckFailed(cause))) <==>
              FindCRD(GroupKindOf(gvk)) in p.calls && v.finder(GroupKindOf(gvk)).Err?
    ensures FindCRD(GroupKindOf(gvk)) in p.calls && v.finder(GroupKindOf(gvk)).Err? ==>
              p.outcome == Fail(CRDCheckFailed(v.finder(GroupKindOf(gvk)).error))
    // an unknown kind sends the lookup on to Namespace, and to the finder only if Namespace supports dry-run
    ensures v.openAPI.Ok? && gvk !in v.openAPI.value.dryRun ==>
              p.calls == [FetchOpenAPI, LookupDryRun(gvk), LookupDryRun(NamespaceGVK)] +
                         (if NamespaceSupportsDryRun(v.openAPI.value) then [FindCRD(GroupKindOf(gvk))] else [])
    // otherwise the answer is the tiered decision, and "unsupported" names gvk
    ensures p.outcome == Pass <==>
              v.openAPI.Ok? && DecidedSupported(v.openAPI.value, v.finder(GroupKindOf(gvk)), gvk)
    ensures p.outcome.Fail? && p.outcome.error.Unsupported? ==> p.outcome.error.gvk == gvk
  {
    match v.openAPI
    case Err(cause) => Probe(Fail(OpenAPIDownloadFailed(cause)), [FetchOpenAPI])
    case Ok(doc) =>
      var (supports, err) := SupportsDryRun(doc, gvk);
      if err.None? then
        Probe(Verdict(gvk, supports), [FetchOpenAPI, LookupDryRun(gvk)])
      else
        var (nsSupports, _) := SupportsDryRun(doc, NamespaceGVK);
        var asked := [FetchOpenAPI, LookupDryRun(gvk), LookupDryRun(NamespaceGVK)];
        if !nsSupports then
          Probe(Verdict(gvk, false), asked)
        else
          match v.finder(GroupKindOf(gvk))
          case Err(cause) => Probe(Fail(CRDCheckFailed(cause)), asked + [FindCRD(GroupKindOf(gvk))])
          case Ok(found) => Probe(Verdict(gvk, found), asked + [FindCRD(GroupKindOf(gvk))])
  }

  /**
   * A kind the document describes gets the same answer whatever the CRD
   * finder would say: the finder is not consulted.
   */
  lemma KnownKindIgnoresFinder(v1: DryRunVerifier, v2: DryRunVerifier, gvk: GroupVersionKind)
    requires v1.openAPI == v2.openAPI && v1.openAPI.Ok? && gvk in v1.openAPI.value.dryRun
    ensures HasSupport(v1, gvk) == HasSupport(v2, gvk)
  {
  }

  /**
   * An unknown kind on a server whose Namespace does not support dry-run is
   * unsupported, whatever the CRD finder would say.
   */
  lemma UnknownKindWithoutNamespaceSupport(v: DryRunVerifier, gvk: GroupVersionKind)
    requires v.openAPI.Ok? && gvk !in v.openAPI.value.dryRun
    requires !NamespaceSupportsDryRun(v.openAPI.value)
    ensures HasSupport(v, gvk).outcome == Fail(Unsupported(gvk))
    ensures forall c :: c in HasSupport(v, gvk).calls ==> !c.FindCRD?
  {
  }

  /**
   * The Namespace lookup's error is discarded: a document that cannot find
   * Namespace gives every kind the same answer, with the same calls, as one
   * that says Namespace does not support dry-run.
   */
  lemma NamespaceLookupErrorIsDiscarded(v: DryRunVerifier, gvk: GroupVersionKind)
    requires v.openAPI.Ok? && NamespaceGVK !in v.openAPI.value.dryRun
    ensures var doc := v.openAPI.value;
            var v' := v.(openAPI := Ok(Document(doc.dryRun[NamespaceGVK := false])));
            gvk != NamespaceGVK ==> HasSupport(v, gvk) == HasSupport(v', gvk)
  {
  }

  /**
   * Past the document, the CRD finder decides: two finders that agree on
   * gvk's group and kind give the same answer, so versions of one group and
   * kind that the document does not describe are all judged by one CRD query.
   */
  lemma FinderSeesOnlyGroupKind(v: DryRunVerifier, gvk1: GroupVersionKind, gvk2: GroupVersionKind)
    requires v.openAPI.Ok?
    requires gvk1 !in v.openAPI.value.dryRun && gvk2 !in v.openAPI.value.dryRun
    requires gvk1.group == gvk2.group && gvk1.kind == gvk2.kind
    ensures HasSupport(v, gvk1).outcome.Pass? <==> HasSupport(v, gvk2).outcome.Pass?
    ensures HasSupport(v, gvk1).outcome.Fail? && HasSupport(v, gvk1).outcome.error.CRDCheckFailed? <==>
            HasSupport(v, gvk2).outcome.Fail? && HasSupport(v, gvk2).outcome.error.CRDCheckFailed?
  {
  }

  /** A Deployment the schema describes without dry-run is refused by name, with no CRD query. */
  lemma DeploymentWithoutDryRun(finder: GroupKind -> Result<bool, string>)
    ensures var deployment := GroupVersionKind("apps", "v1", "Deployment");
            var v := DryRunVerifier(Ok(Document(map[deployment := false, NamespaceGVK := true])), finder);
            var p := HasSupport(v, deployment);
            p.outcome == Fail(Unsupported(deployment)) && p.outcome.error.gvk.kind == "Deployment" &&
            forall c :: c in p.calls ==> !c.FindCRD?
  {
  }

  /** A Widget the schema does not describe is supported once its CRD is found. */
  lemma WidgetBackedByCRD(finder: GroupKind -> Result<bool, string>)
    requires finder(GroupKind("example.com", "Widget")) == Ok(true)
    ensures var widget := GroupVersionKind("example.com", "v1", "Widget");
            var v := DryRunVerifier(Ok(Document(map[NamespaceGVK := true])), finder);
            HasSupport(v, widget).outcome == Pass
  {
  }
}
