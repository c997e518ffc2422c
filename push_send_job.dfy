/** The shared part of the push send jobs: the SMS-fallback policy, the job
    parameters it conditions, the push address of a recipient and the
    extraction of media attachments from an outgoing multimedia message.
    Every collaborator (number canonicalisation, group encoding, directory,
    preferences, content-type tests, storage) is a field of `Context`, read
    as a fixed snapshot for the duration of a call. */
module PushSendJob {
  import opened Wrappers
  import opened Uris
  import PartAuthority

  datatype Context = Context(
    canonicalizeNumber: string -> Option<string>,   // Util.canonicalizeNumber; None is InvalidNumberException
    isEncodedGroup: string -> bool,                 // GroupUtil.isEncodedGroup
    fallbackSmsAllowed: bool,                       // TextSecurePreferences.isFallbackSmsAllowed
    fallbackSmsAskRequired: bool,                   // TextSecurePreferences.isFallbackSmsAskRequired
    directorySupportsSmsFallback: string -> bool,   // TextSecureDirectory.isSmsFallbackSupported
    directoryRelay: string -> Option<string>,       // TextSecureDirectory.getRelay; None is null
    isImageType: string -> bool,                    // ContentType.isImageType
    isAudioType: string -> bool,                    // ContentType.isAudioType
    isVideoType: string -> bool,                    // ContentType.isVideoType
    storage: PartAuthority.Storage)                 // part database and content resolver

  // ---------------------------------------------------------------------------
  // SMS fallback policy

  /** `isSmsFallbackSupported`: fallback is never assumed for a number that
      does not canonicalise, for a group, or when the user has turned it off;
      otherwise the directory decides. */
  function IsSmsFallbackSupported(ctx: Context, destination: string): (b: bool)
    ensures ctx.canonicalizeNumber(destination).None? ==> !b
    ensures ctx.canonicalizeNumber(destination).Some? && ctx.isEncodedGroup(ctx.canonicalizeNumber(destination).value) ==> !b
    ensures !ctx.fallbackSmsAllowed ==> !b
    ensures ctx.canonicalizeNumber(destination).Some? && !ctx.isEncodedGroup(ctx.canonicalizeNumber(destination).value) && ctx.fallbackSmsAllowed
            ==> b == ctx.directorySupportsSmsFallback(ctx.canonicalizeNumber(destination).value)
  {
    match ctx.canonicalizeNumber(destination)
    case None => false
    case Some(e164number) =>
      if ctx.isEncodedGroup(e164number) then false
      else if !ctx.fallbackSmsAllowed then false
      else ctx.directorySupportsSmsFallback(e164number)
  }

  /** `isSmsFallbackApprovalRequired`: the user is asked only about a
      destination that fallback is supported for, and then exactly when the
      ask preference is set. */
  function IsSmsFallbackApprovalRequired(ctx: Context, destination: string): (b: bool)
    ensures b ==> IsSmsFallbackSupported(ctx, destination)
    ensures b ==> ctx.fallbackSmsAskRequired
    ensures IsSmsFallbackSupported(ctx, destination) && ctx.fallbackSmsAskRequired ==> b
  {
    IsSmsFallbackSupported(ctx, destination) && ctx.fallbackSmsAskRequired
  }

  /** A group destination has no fallback whatever the preferences and the
      directory say. */
  lemma GroupNeverFallsBack(ctx: Context, destination: string, allowed: bool, ask: bool, directory: string -> bool)
    requires ctx.canonicalizeNumber(destination).Some?
    requires ctx.isEncodedGroup(ctx.canonicalizeNumber(destination).value)
    ensures !IsSmsFallbackSupported(ctx.(fallbackSmsAllowed := allowed, directorySupportsSmsFallback := directory), destination)
    ensures !IsSmsFallbackApprovalRequired(ctx.(fallbackSmsAllowed := allowed, fallbackSmsAskRequired := ask, directorySupportsSmsFallback := directory), destination)
  {
  }

  // ---------------------------------------------------------------------------
  // Job parameters

  /** Preconditions the job queue checks before it runs a job. */
  datatype Requirement = MasterSecretRequirement | NetworkRequirement

  /** The job contract; `retryCount` None keeps the queue's default. The
      builder of the job queue library accumulates exactly these fields, so
      its `with...` steps are written as updates of this value. */
  datatype JobParameters = JobParameters(
    persistent: bool,
    groupId: Option<string>,
    requirements: seq<Requirement>,
    retryCount: Option<int>)
  {
    function WithPersistence(): JobParameters { this.(persistent := true) }
    function WithGroupId(id: string): JobParameters { this.(groupId := Some(id)) }
    function WithRequirement(r: Requirement): JobParameters { this.(requirements := requirements + [r]) }
    function WithRetryCount(n: int): JobParameters { this.(retryCount := Some(n)) }
  }

  function NewBuilder(): JobParameters
  {
    JobParameters(false, None, [], None)
  }

  /** Retry budget of a job that has no fallback path. */
  const PushOnlyRetryCount: int := 5

  /** `constructParameters`: persistent, grouped by destination, gated on the
      master secret; a push-only destination also waits for the network and
      is retried a bounded number of times. */
  function ConstructParameters(ctx: Context, destination: string): (p: JobParameters)
    ensures p.persistent
    ensures p.groupId == Some(destination)
    ensures |p.requirements| > 0 && p.requirements[0] == MasterSecretRequirement
    ensures !IsSmsFallbackSupported(ctx, destination) ==>
              p.requirements == [MasterSecretRequirement, NetworkRequirement] && p.retryCount == Some(5)
    ensures IsSmsFallbackSupported(ctx, destination) ==>
              p.requirements == [MasterSecretRequirement] && p.retryCount == None
  {
    var builder := NewBuilder().WithPersistence().WithGroupId(destination).WithRequirement(MasterSecretRequirement);
    if !IsSmsFallbackSupported(ctx, destination) then
      builder.WithRequirement(NetworkRequirement).WithRetryCount(PushOnlyRetryCount)
    else
      builder
  }

  /** The network requirement and the bounded retry count come together, and
      exactly when fallback is unsupported. */
  lemma NetworkRequirementIffNoFallback(ctx: Context, destination: string)
    ensures NetworkRequirement in ConstructParameters(ctx, destination).requirements
            <==> !IsSmsFallbackSupported(ctx, destination)
    ensures ConstructParameters(ctx, destination).retryCount.Some?
            <==> NetworkRequirement in ConstructParameters(ctx, destination).requirements
  {
  }

  /** A destination that does not canonicalise is treated as push-only. */
  lemma InvalidNumberIsPushOnly(ctx: Context, destination: string)
    requires ctx.canonicalizeNumber(destination).None?
    ensures ConstructParameters(ctx, destination)
            == JobParameters(true, Some(destination), [MasterSecretRequirement, NetworkRequirement], Some(5))
  {
  }

  /** An individual number the directory reports as push-only. */
  lemma PushOnlyNumberParameters(ctx: Context)
    requires ctx.canonicalizeNumber("+15551234567") == Some("+15551234567")
    requires !ctx.isEncodedGroup("+15551234567")
    requires !ctx.directorySupportsSmsFallback("+15551234567")
    ensures ConstructParameters(ctx, "+15551234567")
            == JobParameters(true, Some("+15551234567"), [MasterSecretRequirement, NetworkRequirement], Some(5))
  {
  }

  // ---------------------------------------------------------------------------
  // Push address

  datatype Recipient = Recipient(recipientId: int, number: string)

  datatype PushAddress = PushAddress(recipientId: int, e164number: string, deviceId: int, relay: Option<string>)

  datatype InvalidNumber = InvalidNumber

  /** `getPushAddress`: the canonical number on device 1 with the
      directory's relay, or the InvalidNumberException of canonicalisation. */
  function GetPushAddress(ctx: Context, recipient: Recipient): (r: Result<PushAddress, InvalidNumber>)
    ensures r.Failure? <==> ctx.canonicalizeNumber(recipient.number).None?
    ensures r.Success? ==> r.value.deviceId == 1
    ensures r.Success? ==> r.value.e164number == ctx.canonicalizeNumber(recipient.number).value
    ensures r.Success? ==> r.value.recipientId == recipient.recipientId
    ensures r.Success? ==> r.value.relay == ctx.directoryRelay(r.value.e164number)
  {
    match ctx.canonicalizeNumber(recipient.number)
    case None => Failure(InvalidNumber)
    case Some(e164number) => Success(PushAddress(recipient.recipientId, e164number, 1, ctx.directoryRelay(e164number)))
  }

  // ---------------------------------------------------------------------------
  // Attachments

  datatype PduPart = PduPart(contentType: string, dataUri: Uri, dataSize: int)

  datatype SendReq = SendReq(databaseMessageId: int, parts: seq<PduPart>)

  /** A `TextSecureAttachmentStream`: where its stream comes from, its type
      and size, and the message whose progress events its observer posts. */
  datatype Attachment = Attachment(source: PartAuthority.Source, contentType: string, length: int, progressMessageId: int)

  predicate IsMediaType(ctx: Context, contentType: string)
  {
    ctx.isImageType(contentType) || ctx.isAudioType(contentType) || ctx.isVideoType(contentType)
  }

  /** A part becomes an attachment when it is media and its stream opens. */
  predicate Qualifies(ctx: Context, part: PduPart)
  {
    IsMediaType(ctx, part.contentType) && PartAuthority.GetPartStream(ctx.storage, part.dataUri).Some?
  }

  function AttachmentOf(messageId: int, part: PduPart): Attachment
  {
    Attachment(PartAuthority.StreamSource(part.dataUri), part.contentType, part.dataSize, messageId)
  }

  /** The attachments of `parts`, in order: one per qualifying part. */
  function ExtractedAttachments(ctx: Context, messageId: int, parts: seq<PduPart>): (r: seq<Attachment>)
    ensures |r| <= |parts|
    ensures forall k :: 0 <= k < |r| ==> r[k].progressMessageId == messageId
  {
    if parts == [] then []
    else
      var last := parts[|parts| - 1];
      ExtractedAttachments(ctx, messageId, parts[..|parts| - 1])
        + (if Qualifies(ctx, last) then [AttachmentOf(messageId, last)] else [])
  }

  /** `getAttachments`: walk the parts in order, keep media parts whose
      stream opens, and skip a part whose open fails. */
  method GetAttachments(ctx: Context, message: SendReq) returns (attachments: seq<Attachment>)
    ensures attachments == ExtractedAttachments(ctx, message.databaseMessageId, message.parts)
  {
    attachments := [];
    var parts := message.parts;
    for i := 0 to |parts|
      invariant attachments == ExtractedAttachments(ctx, message.databaseMessageId, parts[..i])
    {
      var part := parts[i];
      var contentType := part.contentType;
      assert parts[..i + 1][..i] == parts[..i];
      if ctx.isImageType(contentType) || ctx.isAudioType(contentType) || ctx.isVideoType(contentType) {
        var stream := PartAuthority.GetPartStream(ctx.storage, part.dataUri);
        match stream {
          case Some(source) =>
            attachments := attachments + [Attachment(source, contentType, part.dataSize, message.databaseMessageId)];
          case None =>
        }
      }
    }
    assert parts[..|parts|] == parts;
  }

  /** The extracted attachments are the qualifying parts, in their original
      order: `indices` lists exactly the qualifying positions, increasing, and
      the k-th attachment is made from the part at `indices[k]`. */
  lemma {:induction false} ExtractedIsQualifyingSubsequence(ctx: Context, messageId: int, parts: seq<PduPart>)
    returns (indices: seq<nat>)
    ensures |indices| == |ExtractedAttachments(ctx, messageId, parts)|
    ensures forall k :: 0 <= k < |indices| ==> indices[k] < |parts|
    ensures forall k :: 0 <= k < |indices| ==>
              ExtractedAttachments(ctx, messageId, parts)[k] == AttachmentOf(messageId, parts[indices[k]])
    ensures forall j, k :: 0 <= j < k < |indices| ==> indices[j] < indices[k]
    ensures forall i :: 0 <= i < |parts| ==> (Qualifies(ctx, parts[i]) <==> i in indices)
  {
    if parts == [] {
      indices := [];
    } else {
      var n := |parts| - 1;
      var init := parts[..n];
      var prefix := ExtractedIsQualifyingSubsequence(ctx, messageId, init);
      assert forall i :: 0 <= i < n ==> init[i] == parts[i];
      if Qualifies(ctx, parts[n]) {
        indices := prefix + [n];
      } else {
        indices := prefix;
      }
    }
  }

  /** Three parts: an image that opens, a text part, a video that does not
      open. Only the image is attached. */
  lemma ImageTextBrokenVideo(ctx: Context, messageId: int, image: PduPart, text: PduPart, video: PduPart)
    requires ctx.isImageType(image.contentType)
    requires PartAuthority.GetPartStream(ctx.storage, image.dataUri).Some?
    requires !IsMediaType(ctx, text.contentType)
    requires ctx.isVideoType(video.contentType)
    requires PartAuthority.GetPartStream(ctx.storage, video.dataUri).None?
    ensures ExtractedAttachments(ctx, messageId, [image, text, video]) == [AttachmentOf(messageId, image)]
  {
    assert [image, text, video][..2] == [image, text];
    assert [image, text][..1] == [image];
    assert [image][..0] == [];
    assert ExtractedAttachments(ctx, messageId, [image]) == [AttachmentOf(messageId, image)];
    assert ExtractedAttachments(ctx, messageId, [image, text]) == [AttachmentOf(messageId, image)];
  }
}
