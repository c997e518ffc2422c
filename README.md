# Push send job: fallback policy, job parameters, attachments and part URIs

A Dafny model of the shared core of TextSecure's push send jobs
(`PushSendJob`) and of the content-URI routing it reads attachments through
(`PartAuthority`).

- `PushSendJob` decides whether a destination can fall back to SMS:
  - a number that does not canonicalise gets no fallback;
  - so does an encoded group;
  - so does any destination when the user has turned fallback off;
  - otherwise the directory's verdict decides.
- From that verdict it builds the job parameters. They are always persistent, grouped by the destination and gated on the master secret. A push-only destination also waits for the network and is retried 5 times.
- The requirements are kept as an ordered list, in the order the builder receives them.
- `GetPushAddress` addresses the canonical number on device 1, with the directory's relay.
- `GetAttachments` walks a message's parts in order. It keeps image, audio and video parts whose stream opens and silently skips the others.
- `PartAuthority` matches a URI against a fixed two-entry table: `org.thoughtcrime.securesms` with `part/#` or `thumb/#`.
  - A part URI reads the part database's full stream, keyed by the numeric id.
  - A thumb URI reads the thumbnail stream.
  - Anything else goes to the generic content resolver.
  - `IsLocal` tells the two local shapes apart from everything else.
  - `GetPublicPartUri` moves the id onto the public provider's base URI.

Files:

- `wrappers.dfy`: `Option` and `Result`.
- `uris.dfy`: the URI value and decimal numerals. It also holds the behaviour assumed of Android's `ContentUris`.
- `part_authority.dfy`: the routing.
- `push_send_job.dfy`: the job's policy, parameters, address and attachments.

Every collaborator whose code is not part of this model is a field of `PushSendJob.Context`, read as one fixed snapshot per call:

- `Util.canonicalizeNumber` is a function to `Option`, with `None` for `InvalidNumberException`.
- `GroupUtil.isEncodedGroup`, `ContentType.is{Image,Audio,Video}Type` and the directory are uninterpreted functions.
- The two preferences are booleans.
- The storage backends are oracles that say whether an open succeeds.

Assumptions about Android's `UriMatcher` and `ContentUris`, made explicit in `uris.dfy`:

- A URI is an authority plus its path segments. The scheme is not looked at.
- Android never produces an empty path segment, so `#` is modelled as one or more ASCII digits. A pattern matches only a path of the same length.
- `parseId` reads the last segment with `Long.parseLong`. It answers -1 when there is no segment. The model reads an optional sign followed by ASCII digits, as an unbounded integer; the limits of this are listed under "## Left out".
- `withAppendedId` appends the decimal form of the id as one more segment.

## Model

| member | source | states |
|---|---|---|
| PushSendJob.IsSmsFallbackSupported | src/org/thoughtcrime/securesms/jobs/PushSendJob.java:67-85 | false when canonicalisation fails, when the number is an encoded group, or when the fallback preference is off; otherwise equal to the directory's verdict for the canonical number |
| PushSendJob.IsSmsFallbackApprovalRequired | src/org/thoughtcrime/securesms/jobs/PushSendJob.java:93-95 | true only for a destination that supports fallback, only when the ask preference is set, and always when both hold |
| PushSendJob.GroupNeverFallsBack | src/org/thoughtcrime/securesms/jobs/PushSendJob.java:71-73 | an encoded group gets neither fallback nor an approval prompt, whatever the preferences and the directory say |
| PushSendJob.ConstructParameters | src/org/thoughtcrime/securesms/jobs/PushSendJob.java:53-65 | always persistent, group id equal to the destination, master-secret requirement first; without fallback the requirements are exactly master secret then network, with retry count 5; with fallback only master secret, with no retry count set |
| PushSendJob.NetworkRequirementIffNoFallback | src/org/thoughtcrime/securesms/jobs/PushSendJob.java:59-62 | the network requirement is present exactly when fallback is unsupported, and a retry count is set exactly when the network requirement is present |
| PushSendJob.InvalidNumberIsPushOnly | src/org/thoughtcrime/securesms/jobs/PushSendJob.java:53-84 | a destination that fails canonicalisation gets the full push-only parameters: persistent, grouped by destination, master secret and network, retry count 5 |
| PushSendJob.PushOnlyNumberParameters | src/org/thoughtcrime/securesms/jobs/PushSendJob.java:53-85 | for `+15551234567`, an individual number the directory reports as push-only, the parameters are exactly persistent, that group id, master secret and network, retry count 5 |
| PushSendJob.GetPushAddress | src/org/thoughtcrime/securesms/jobs/PushSendJob.java:87-91 | fails exactly when canonicalisation fails; otherwise the address has the canonical number, device id 1, the recipient's id and the directory's relay for that number |
| PushSendJob.ExtractedAttachments | src/org/thoughtcrime/securesms/jobs/PushSendJob.java:97-126 | never more attachments than parts, and every attachment's progress observer is bound to the message's id |
| PushSendJob.GetAttachments | src/org/thoughtcrime/securesms/jobs/PushSendJob.java:97-126 | the loop builds exactly the extracted attachments of all the message's parts |
| PushSendJob.ExtractedIsQualifyingSubsequence | src/org/thoughtcrime/securesms/jobs/PushSendJob.java:100-122 | the attachments correspond one to one, in increasing part order, to exactly the parts that are image, audio or video typed and whose stream opens; each carries its part's stream source, content type and declared size |
| PushSendJob.ImageTextBrokenVideo | src/org/thoughtcrime/securesms/jobs/PushSendJob.java:100-122 | an image that opens, a text part and a video whose open fails give exactly one attachment, the image's |
| PartAuthority.MatchUri | src/org/thoughtcrime/securesms/mms/PartAuthority.java:26-32 | the table gives PART exactly for app authority with `part/<digits>`, THUMB exactly for `thumb/<digits>`, and NO_MATCH exactly for every other URI |
| PartAuthority.PartAndThumbExclusive | src/org/thoughtcrime/securesms/mms/PartAuthority.java:28-32 | no URI has both local shapes, so looking the table up in the other order gives the same match |
| PartAuthority.StreamSource | src/org/thoughtcrime/securesms/mms/PartAuthority.java:38-44 | a part-shaped URI is read from the part stream with its numeric id; a thumb-shaped URI from the thumbnail stream with its id; any other URI from the generic resolver with the URI itself |
| PartAuthority.GetPartStream | src/org/thoughtcrime/securesms/mms/PartAuthority.java:34-45 | for each of the three shapes, a stream from the routed accessor when that accessor's open succeeds, and otherwise the not-found failure |
| PartAuthority.IsLocal | src/org/thoughtcrime/securesms/mms/PartAuthority.java:51-60 | true exactly for the part and thumb shapes, and true exactly when the stream is read from the part database rather than the generic resolver |
| PartAuthority.BaseUrisAreNotLocal | src/org/thoughtcrime/securesms/mms/PartAuthority.java:17-21 | the bare `part` and `thumb` base URIs, which have no id, are not local and go to the generic resolver |
| PartAuthority.AppendedIdRoutesLocally | src/org/thoughtcrime/securesms/mms/PartAuthority.java:20-31 | a natural id appended to the part or thumb base URI routes to the part or thumbnail stream with that same id |
| PartAuthority.GetPublicPartUri | src/org/thoughtcrime/securesms/mms/PartAuthority.java:47-49 | defined exactly when the input's id parses; the result keeps the public base's authority and segments, adds one segment, and parses back to the input's id |
| PartAuthority.LocalPublicUriKeepsId | src/org/thoughtcrime/securesms/mms/PartAuthority.java:47-49 | a local URI always has a public form, and that form's id is the numeric id of the local URI and of its stream source |
| Uris.NatNumeralRoundTrip | src/org/thoughtcrime/securesms/mms/PartAuthority.java:48 | the decimal form of a natural number is a non-empty digit string that reads back to the same number |
| Uris.LongRoundTrip | src/org/thoughtcrime/securesms/mms/PartAuthority.java:48 | parsing the printed form of any id, negative ones included, gives back that id |
| Uris.AppendedIdRoundTrip | src/org/thoughtcrime/securesms/mms/PartAuthority.java:48 | appending an id keeps the base's authority and segments in front, adds exactly one segment, and parses back to the id |
| Uris.ParseIdOfNumeral | src/org/thoughtcrime/securesms/mms/PartAuthority.java:41-42 | a URI whose last segment is a numeral has that numeral's value as its id |

## Left out

- Stream I/O and contents are not modelled. This covers `InputStream`, `PartDatabase.getPartStream`/`getThumbnailStream` and `ContentResolver.openInputStream`. Each backend is an oracle that says whether its open succeeds; an attachment records which accessor, with which key, its stream comes from.
- The master secret passed to `getPartStream` is not modelled. It only feeds decryption inside the part database, which is not part of this model.
- The progress observer and its `EventBus.postSticky` events are not modelled. Each attachment records only the message id its observer is bound to.
- The log lines are not modelled.
- `notifyMediaMessageDeliveryFailed` is not modelled. It only passes through to the message store, the thread store and the notifier, none of which is part of this model.
- `getMediaConstraints` is not modelled. Neither are the job queue engine, its evaluation of requirements and its retry scheduling.
- The code of `Util.canonicalizeNumber`, `Util.toIsoString`, `GroupUtil.isEncodedGroup`, `ContentType`, `TextSecureDirectory` and `TextSecurePreferences` is not part of this model. Each of these is an uninterpreted field of `Context`. A part's content type is held already decoded to a string.
- The directory and the preferences are read again on every call in the source, so a later call can see different values. The model fixes them as one snapshot per call.
- `PartProvider.CONTENT_URI` is not part of this model. `GetPublicPartUri` takes the public base URI as a parameter.
- Uris.ParseId: ids are unbounded integers. The `NumberFormatException` that `Long.parseLong` throws for a value outside [-2^63, 2^63-1] is not modelled, so such a last segment parses in the model.
  - A local URI such as `part/99999999999999999999` still matches `#`. In the source its id would escape `getPartStream` and `getAttachments` as an unchecked exception; the model routes it to the part database.
  - For the same URI, `getPublicPartUri` throws in the source. The model's `GetPublicPartUri` returns a URI, and `LocalPublicUriKeepsId` ("a local URI always has a public form") holds only within the unbounded-id model.
  - A non-local URI whose last segment is out of range also gets a public form in the model but throws in the source.
- Uris.ParseLong: only ASCII digits `0`-`9` are read. Java's `Long.parseLong` also accepts every other Unicode decimal digit (Arabic-Indic digits, for example). For a non-local URI ending in such digits, the model's `GetPublicPartUri` returns None where the source builds a public URI with that id. Local URIs are unaffected, because the matcher's `#` accepts only ASCII digits.
- The general wildcard semantics of `UriMatcher` (`*`, longer tables) and the URI scheme are not modelled. Only the two registered patterns are.
- The job queue's default retry count, used when `retryCount` is `None`, is not modelled.
