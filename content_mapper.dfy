/**
 * The content mapper of the transform runner (`ContentTransformMapper`):
 * the state read before a node changes (whether it is live), and the save
 * that follows, which republishes a live document and plainly saves every
 * other node. The content, media and member services are not modelled;
 * what they are asked to do is returned as a list of calls, and the answer
 * of the publishing service is a parameter.
 */
module ContentMapper {
  import opened Wrappers
  import opened Platform

  /** `Source.SourceType`; `OutOfRange` is any other value of the enumeration. */
  datatype SourceType = Kind(t: BaseType) | OutOfRange

  /**
   * What `RetrievePreChangeState` reads of a node. `isContent` says whether
   * it is an `IContent` (a document), dates are instants on one clock.
   */
  datatype Node = Node(
    isContent: bool,
    hasPublishedVersion: bool,
    published: bool,
    deletedDate: Option<int>,
    expireDate: Option<int>)

  /**
   * `RetrievePreChangeState(ctx, content)` at the instant `now`: only a
   * document can count as published, never one in the bin or expired by
   * `now`; a published, never-expiring document outside the bin does.
   */
  function RetrievePreChangeState(node: Node, now: int): (r: bool)
    ensures !node.isContent ==> !r
    ensures r ==> (node.hasPublishedVersion || node.published) && node.deletedDate.None?
    ensures node.expireDate.Some? && node.expireDate.value <= now ==> !r
    ensures node.isContent && node.published && node.deletedDate.None? && node.expireDate.None? ==> r
  {
    node.isContent
    && (node.hasPublishedVersion || node.published)
    && node.deletedDate.None?
    && (node.expireDate.None? || node.expireDate.value > now)
  }

  /** A node published at one instant was published at every earlier one. */
  lemma PreChangeStateEarlier(node: Node, now: int, earlier: int)
    requires earlier <= now && RetrievePreChangeState(node, now)
    ensures RetrievePreChangeState(node, earlier)
  {
  }

  /** A call made on one of the platform's services. */
  datatype ServiceCall = SaveAndPublishDocument | SaveDocument | SaveMedia | SaveMember

  /** The answer of `SaveAndPublishWithStatus`: success, and the exception it carries if any. */
  datatype PublishStatus = PublishStatus(success: bool, exception: Option<string>)

  /** The service calls `SaveChanges` makes, and whether it returns or throws. */
  datatype SaveOutcome = SaveOutcome(calls: seq<ServiceCall>, result: Result<()>)

  /** `SaveChanges(ctx, content, preChangeState)`; `publish` is what the publishing call answers. */
  function SaveChanges(source: SourceType, preChangeState: bool, publish: PublishStatus): (r: SaveOutcome)
    ensures |r.calls| <= 2
    ensures SaveAndPublishDocument in r.calls <==> source == Kind(Document) && preChangeState
    ensures r.result.Ok? <==> source.Kind? && (source.t == Document && preChangeState ==> publish.success)
    ensures source.Kind? && !(source.t == Document && preChangeState) ==> |r.calls| == 1
    ensures source.OutOfRange? ==> r.calls == []
  {
    match source
    case Kind(Document) =>
      if preChangeState then
        if publish.success then SaveOutcome([SaveAndPublishDocument], Ok(()))
        else if publish.exception.Some? then SaveOutcome([SaveAndPublishDocument], Err(publish.exception.value))
        else SaveOutcome([SaveAndPublishDocument, SaveDocument], Err("Error publishing the document"))
      else SaveOutcome([SaveDocument], Ok(()))
    case Kind(Media) => SaveOutcome([SaveMedia], Ok(()))
    case Kind(Member) => SaveOutcome([SaveMember], Ok(()))
    case OutOfRange => SaveOutcome([], Err("Specified argument was out of the range of valid values."))
  }

  /** The single plain save that fits a node of base type `t`. */
  function PlainSave(t: BaseType): ServiceCall
  {
    match t
    case Document => SaveDocument
    case Media => SaveMedia
    case Member => SaveMember
  }

  /**
   * Reading the state and then saving: every node that is not a live
   * document gets exactly the one plain save of its kind and the save
   * succeeds; a live document is published, and the save fails exactly when
   * the publishing call does.
   */
  lemma SaveFollowsState(t: BaseType, node: Node, now: int, publish: PublishStatus)
    ensures var r := SaveChanges(Kind(t), RetrievePreChangeState(node, now), publish);
      (!(t == Document && RetrievePreChangeState(node, now)) ==> r == SaveOutcome([PlainSave(t)], Ok(())))
      && (t == Document && RetrievePreChangeState(node, now) ==>
            r.calls[0] == SaveAndPublishDocument && (r.result.Ok? <==> publish.success))
      && (t != Document ==> SaveAndPublishDocument !in r.calls)
  {
  }

  /**
   * A publish that fails without an exception leaves the document saved
   * unpublished before the error is thrown; one that carries an exception
   * rethrows it without a plain save.
   */
  lemma FailedPublish(publish: PublishStatus)
    requires !publish.success
    ensures var r := SaveChanges(Kind(Document), true, publish);
      r.result.Err?
      && (publish.exception.Some? ==> r.calls == [SaveAndPublishDocument] && r.result.error == publish.exception.value)
      && (publish.exception.None? ==> r.calls == [SaveAndPublishDocument, SaveDocument])
  {
  }
}
