/** Routing of attachment content URIs: the fixed two-entry match table, the
    choice of stream accessor, the local/external classification and the
    rewrite onto the public provider URI. */
module PartAuthority {
  import opened Wrappers
  import opened Uris

  const AppAuthority: string := "org.thoughtcrime.securesms"

  /** The base URIs `content://org.thoughtcrime.securesms/part` and `.../thumb`. */
  const PartContentUri: Uri := Uri(AppAuthority, ["part"])
  const ThumbContentUri: Uri := Uri(AppAuthority, ["thumb"])

  /** Result of the matcher: PART_ROW (1), THUMB_ROW (2) or NO_MATCH. */
  datatype Match = PartRow | ThumbRow | NoMatch

  /** One segment of a registered pattern: literal text, or `#`. */
  datatype PatternSegment = Literal(text: string) | Number

  datatype Route = Route(authority: string, pattern: seq<PatternSegment>, code: Match)

  /** The table filled once by the static initialiser and never changed. */
  const Routes: seq<Route> := [
    Route(AppAuthority, [Literal("part"), Number], PartRow),
    Route(AppAuthority, [Literal("thumb"), Number], ThumbRow)
  ]

  predicate SegmentMatches(p: PatternSegment, s: string)
  {
    match p
    case Literal(t) => s == t
    case Number => IsNumeral(s)
  }

  predicate RouteMatches(r: Route, u: Uri)
  {
    && r.authority == u.authority
    && |r.pattern| == |u.segments|
    && forall i :: 0 <= i < |r.pattern| ==> SegmentMatches(r.pattern[i], u.segments[i])
  }

  /** The code of the first route that matches, NoMatch if none does. */
  function Lookup(table: seq<Route>, u: Uri): Match
  {
    if table == [] then NoMatch
    else if RouteMatches(table[0], u) then table[0].code
    else Lookup(table[1..], u)
  }

  /** Looking up a two-entry table tries the first entry, then the second. */
  lemma LookupPair(first: Route, second: Route, u: Uri)
    ensures Lookup([first, second], u)
      == if RouteMatches(first, u) then first.code
         else if RouteMatches(second, u) then second.code
         else NoMatch
  {
    assert [first, second][1..] == [second];
    assert [second][1..] == [];
    assert Lookup([second], u) == if RouteMatches(second, u) then second.code else Lookup([], u);
  }

  /** `org.thoughtcrime.securesms/part/<digits>`. */
  predicate IsPartShape(u: Uri)
  {
    u.authority == AppAuthority && |u.segments| == 2 && u.segments[0] == "part" && IsNumeral(u.segments[1])
  }

  /** `org.thoughtcrime.securesms/thumb/<digits>`. */
  predicate IsThumbShape(u: Uri)
  {
    u.authority == AppAuthority && |u.segments| == 2 && u.segments[0] == "thumb" && IsNumeral(u.segments[1])
  }

  /** `uriMatcher.match(uri)` over the table. */
  function MatchUri(u: Uri): (m: Match)
    ensures m == PartRow <==> IsPartShape(u)
    ensures m == ThumbRow <==> IsThumbShape(u)
    ensures m == NoMatch <==> !IsPartShape(u) && !IsThumbShape(u)
  {
    var partRoute, thumbRoute := Routes[0], Routes[1];
    LookupPair(partRoute, thumbRoute, u);
    assert RouteMatches(partRoute, u) <==> IsPartShape(u) by {
      if |u.segments| == 2 {
        assert SegmentMatches(partRoute.pattern[0], u.segments[0]) <==> u.segments[0] == "part";
        assert SegmentMatches(partRoute.pattern[1], u.segments[1]) <==> IsNumeral(u.segments[1]);
      }
    }
    assert RouteMatches(thumbRoute, u) <==> IsThumbShape(u) by {
      if |u.segments| == 2 {
        assert SegmentMatches(thumbRoute.pattern[0], u.segments[0]) <==> u.segments[0] == "thumb";
        assert SegmentMatches(thumbRoute.pattern[1], u.segments[1]) <==> IsNumeral(u.segments[1]);
      }
    }
    Lookup(Routes, u)
  }

  /** The accessor a stream is read from, with its key. */
  datatype Source =
    | PartStream(id: int)        // PartDatabase.getPartStream
    | ThumbnailStream(id: int)   // PartDatabase.getThumbnailStream
    | ResolverStream(uri: Uri)   // ContentResolver.openInputStream

  /** The `switch` of `getPartStream`: which accessor is asked, with which key. */
  function StreamSource(u: Uri): (s: Source)
    ensures IsPartShape(u) ==> s == PartStream(NumeralValue(u.segments[1]))
    ensures IsThumbShape(u) ==> s == ThumbnailStream(NumeralValue(u.segments[1]))
    ensures !IsPartShape(u) && !IsThumbShape(u) ==> s == ResolverStream(u)
  {
    match MatchUri(u)
    case PartRow => PartStream(ParseId(u).value)
    case ThumbRow => ThumbnailStream(ParseId(u).value)
    case NoMatch => ResolverStream(u)
  }

  /** Whether each backend can open what it is asked for (the stream
      contents are not modelled, only whether the open succeeds). */
  datatype Storage = Storage(
    partOpens: int -> bool,
    thumbnailOpens: int -> bool,
    resolverOpens: Uri -> bool)

  predicate Opens(st: Storage, s: Source)
  {
    match s
    case PartStream(id) => st.partOpens(id)
    case ThumbnailStream(id) => st.thumbnailOpens(id)
    case ResolverStream(u) => st.resolverOpens(u)
  }

  /** `getPartStream`: a stream from the routed accessor, or None for the
      FileNotFoundException that accessor throws. */
  function GetPartStream(st: Storage, u: Uri): (r: Option<Source>)
    ensures IsPartShape(u) ==> r == (if st.partOpens(NumeralValue(u.segments[1])) then Some(PartStream(NumeralValue(u.segments[1]))) else None)
    ensures IsThumbShape(u) ==> r == (if st.thumbnailOpens(NumeralValue(u.segments[1])) then Some(ThumbnailStream(NumeralValue(u.segments[1]))) else None)
    ensures !IsPartShape(u) && !IsThumbShape(u) ==> r == (if st.resolverOpens(u) then Some(ResolverStream(u)) else None)
  {
    var s := StreamSource(u);
    if Opens(st, s) then Some(s) else None
  }

  /** `isLocal`: the URI names a part or a thumbnail in the local database. */
  function IsLocal(u: Uri): (b: bool)
    ensures b <==> IsPartShape(u) || IsThumbShape(u)
    ensures b <==> !StreamSource(u).ResolverStream?
  {
    match MatchUri(u)
    case PartRow => true
    case ThumbRow => true
    case NoMatch => false
  }

  /** `getPublicPartUri`: the same id on the public provider's base URI; None
      stands for the NumberFormatException of `parseId`. */
  function GetPublicPartUri(publicBase: Uri, u: Uri): (r: Option<Uri>)
    ensures r.Some? <==> ParseId(u).Some?
    ensures r.Some? ==> r.value.authority == publicBase.authority
    ensures r.Some? ==> |r.value.segments| == |publicBase.segments| + 1
    ensures r.Some? ==> r.value.segments[..|publicBase.segments|] == publicBase.segments
    ensures r.Some? ==> ParseId(r.value) == ParseId(u)
  {
    match ParseId(u)
    case None => None
    case Some(id) =>
      AppendedIdRoundTrip(publicBase, id);
      Some(WithAppendedId(publicBase, id))
  }

  /** A local URI always has an id, and its public form keeps it. */
  lemma LocalPublicUriKeepsId(publicBase: Uri, u: Uri)
    requires IsLocal(u)
    ensures GetPublicPartUri(publicBase, u).Some?
    ensures ParseId(GetPublicPartUri(publicBase, u).value) == Some(NumeralValue(u.segments[1]) as int)
    ensures StreamSource(u).id == NumeralValue(u.segments[1])
  {
  }

  /** The two classifications never overlap, so the table order does not matter. */
  lemma PartAndThumbExclusive(u: Uri)
    ensures !(IsPartShape(u) && IsThumbShape(u))
    ensures MatchUri(u) == Lookup([Routes[1], Routes[0]], u)
  {
    var thumbFirst := [Routes[1], Routes[0]];
    LookupPair(Routes[1], Routes[0], u);
    if |u.segments| == 2 {
      assert RouteMatches(thumbFirst[0], u) <==> IsThumbShape(u) by {
        assert SegmentMatches(thumbFirst[0].pattern[0], u.segments[0]) <==> u.segments[0] == "thumb";
        assert SegmentMatches(thumbFirst[0].pattern[1], u.segments[1]) <==> IsNumeral(u.segments[1]);
      }
      assert RouteMatches(thumbFirst[1], u) <==> IsPartShape(u) by {
        assert SegmentMatches(thumbFirst[1].pattern[0], u.segments[0]) <==> u.segments[0] == "part";
        assert SegmentMatches(thumbFirst[1].pattern[1], u.segments[1]) <==> IsNumeral(u.segments[1]);
      }
    }
  }

  /** The bare base URIs are not local: they go to the generic resolver. */
  lemma BaseUrisAreNotLocal()
    ensures !IsLocal(PartContentUri) && !IsLocal(ThumbContentUri)
    ensures StreamSource(PartContentUri) == ResolverStream(PartContentUri)
    ensures StreamSource(ThumbContentUri) == ResolverStream(ThumbContentUri)
  {
  }

  /** Appending a numeric id to a base URI yields a local URI that routes to
      the matching accessor with that id. */
  lemma AppendedIdRoutesLocally(id: nat)
    ensures StreamSource(WithAppendedId(PartContentUri, id)) == PartStream(id)
    ensures StreamSource(WithAppendedId(ThumbContentUri, id)) == ThumbnailStream(id)
  {
    NatNumeralRoundTrip(id);
    assert LongToString(id) == NatToNumeral(id);
  }
}
