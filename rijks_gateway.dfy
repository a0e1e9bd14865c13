/**
 * The gateway of the RijksMuseum draft (RijksMuseum/Gateway/RijksmuseumGateway.swift).
 * It holds no state: each load builds a query, hands its URL string to the
 * service and re-wraps the service's result, decoding JSON on success. The
 * service and the decoder are foreign; they are the `fetch` and `decode`
 * parameters. Each load is a function, so it yields exactly one result per
 * service result.
 */
module RijksGateway {
  import opened Wrappers
  import opened Foundation
  import opened Text
  import opened Service
  import SQ = ServiceQuery
  import IQ = RijksImageQuery
  import opened RijksWire

  datatype CollectionLoadingError = ParsingError(parseError: AnyError) | ServiceError(serviceError: ServiceLoadingError)

  datatype CollectionImageLoadingError = ServiceError(serviceError: ServiceLoadingError)

  datatype ArtDetailsLoadingError = ParsingError(parseError: AnyError) | ServiceError(serviceError: ServiceLoadingError)

  datatype ArtDetailsImageLoadingError = ServiceError(serviceError: ServiceLoadingError)

  type CollectionLoadingResult = Result<CollectionInfo, CollectionLoadingError>
  type CollectionImageLoadingResult = Result<Data, CollectionImageLoadingError>
  type ArtDetailsLoadingResult = Result<ArtDetailsInfo, ArtDetailsLoadingError>
  type ArtDetailsImageLoadingResult = Result<Data, ArtDetailsImageLoadingError>

  datatype CollectionImageLoadingScale = Original | Thumbnail {
    function RawValue(): int {
      match this
      case Original => 0
      case Thumbnail => 400
    }
  }

  /** The query `loadCollection` builds: `.all`, with the page and page size given. */
  function CollectionQuery(page: int, count: int): SQ.Query {
    SQ.DefaultQuery(SQ.All).(page := page).(pageSize := count)
  }

  /** The query `loadArtDetails` builds: `.collection(artId)`, otherwise the defaults. */
  function ArtDetailsQuery(artId: string): SQ.Query {
    SQ.DefaultQuery(SQ.Collection(artId))
  }

  /** The builder chain of `loadCollection` yields the query above. */
  method MakeCollectionQuery(page: int, count: int) returns (q: SQ.RijksmuseumServiceQuery)
    ensures fresh(q) && q.Value() == CollectionQuery(page, count)
  {
    q := new SQ.RijksmuseumServiceQuery(SQ.All);
    q := q.WithPage(page);
    q := q.WithPageSize(count);
  }

  /** The collection request names the page and page size it was built for, in JSON and English. */
  lemma CollectionRequestReadsBack(page: int, count: int)
    ensures SQ.ParseUrlString(SQ.UrlString(CollectionQuery(page, count)))
         == Some(SQ.Query(SQ.Json, SQ.En, SQ.All, page, count))
  {
    SQ.ParseUrlStringOf(CollectionQuery(page, count));
  }

  /** The details request names the object it was built for. */
  lemma ArtDetailsRequestReadsBack(artId: string)
    requires SQ.PlainId(artId)
    ensures SQ.ParseUrlString(SQ.UrlString(ArtDetailsQuery(artId)))
         == Some(SQ.Query(SQ.Json, SQ.En, SQ.Collection(artId), 0, 10))
  {
    SQ.ParseUrlStringOf(ArtDetailsQuery(artId));
  }

  /** `loadCollection(page:count:)`. */
  function LoadCollection(page: int, count: int, fetch: Fetch, decode: CollectionDecoder): (r: CollectionLoadingResult)
    ensures var fetched := fetch(SQ.UrlString(CollectionQuery(page, count)));
      && (r.Success? <==> fetched.Success? && decode(fetched.value).Success?)
      && (r.Success? ==> r.value == decode(fetched.value).value)
      && (fetched.Failure? ==> r == Failure(CollectionLoadingError.ServiceError(fetched.error)))
      && (fetched.Success? && decode(fetched.value).Failure? ==>
            r == Failure(CollectionLoadingError.ParsingError(decode(fetched.value).error)))
  {
    match fetch(SQ.UrlString(CollectionQuery(page, count)))
    case Success(data) =>
      (match decode(data)
       case Success(info) => Success(info)
       case Failure(e) => Failure(CollectionLoadingError.ParsingError(e)))
    case Failure(e) => Failure(CollectionLoadingError.ServiceError(e))
  }

  /** `loadArtDetails(artId:)`. */
  function LoadArtDetails(artId: string, fetch: Fetch, decode: ArtDetailsDecoder): (r: ArtDetailsLoadingResult)
    ensures var fetched := fetch(SQ.UrlString(ArtDetailsQuery(artId)));
      && (r.Success? <==> fetched.Success? && decode(fetched.value).Success?)
      && (r.Success? ==> r.value == decode(fetched.value).value)
      && (fetched.Failure? ==> r == Failure(ArtDetailsLoadingError.ServiceError(fetched.error)))
      && (fetched.Success? && decode(fetched.value).Failure? ==>
            r == Failure(ArtDetailsLoadingError.ParsingError(decode(fetched.value).error)))
  {
    match fetch(SQ.UrlString(ArtDetailsQuery(artId)))
    case Success(data) =>
      (match decode(data)
       case Success(info) => Success(info)
       case Failure(e) => Failure(ArtDetailsLoadingError.ParsingError(e)))
    case Failure(e) => Failure(ArtDetailsLoadingError.ServiceError(e))
  }

  /**
   * The URL string `loadArtImageData` asks for: the image URL without its last
   * character, then the scale's raw value. `removeLast()` traps on an empty
   * string, hence the requirement.
   */
  function ArtImageUrlString(url: Url, scale: CollectionImageLoadingScale): (s: string)
    requires 0 < |url.absoluteString|
    ensures var n := |url.absoluteString| - 1;
      && n <= |s| && s[..n] == url.absoluteString[..n]
      && ParseInt(s[n..]) == Some(scale.RawValue())
  {
    var base := DropLast(url.absoluteString);
    IQ.ScaleReadBack(base, scale.RawValue());
    IQ.ImageUrlString(base, Some(scale.RawValue()))
  }

  /** The builder chain of `loadArtImageData` yields the string above. */
  method MakeArtImageQuery(url: Url, scale: CollectionImageLoadingScale) returns (q: IQ.RijksmuseumImageQuery)
    requires 0 < |url.absoluteString|
    ensures fresh(q) && q.UrlString() == ArtImageUrlString(url, scale)
  {
    var urlString := url.absoluteString;
    urlString := DropLast(urlString);
    q := new IQ.RijksmuseumImageQuery(urlString);
    q := q.WithScale(scale.RawValue());
  }

  /** For the API's "=s0" image URLs the original scale asks for the URL unchanged, the thumbnail for "=s400". */
  lemma ImageUrlOfSizeZero(prefix: string)
    ensures ArtImageUrlString(Url(prefix + "0"), Original) == prefix + "0"
    ensures ArtImageUrlString(Url(prefix + "0"), Thumbnail) == prefix + "400"
  {
    assert DropLast(prefix + "0") == prefix;
    assert NatToString(40) == NatToString(4) + [DigitChar(0)];
    assert IntToString(400) == "400";
  }

  /** `loadArtImageData(from:scale:)`: the service's result, bytes or error, unchanged. */
  function LoadArtImageData(url: Url, scale: CollectionImageLoadingScale, fetch: Fetch): (r: ServiceLoadingResult)
    requires 0 < |url.absoluteString|
    ensures r == fetch(ArtImageUrlString(url, scale))
  {
    match fetch(ArtImageUrlString(url, scale))
    case Success(data) => Success(data)
    case Failure(e) => Failure(e)
  }

  /** `loadCollectionImageData(from:)`: thumbnail scale, service errors wrapped. */
  function LoadCollectionImageData(url: Url, fetch: Fetch): (r: CollectionImageLoadingResult)
    requires 0 < |url.absoluteString|
    ensures var fetched := fetch(ArtImageUrlString(url, Thumbnail));
      && (fetched.Success? ==> r == Success(fetched.value))
      && (fetched.Failure? ==> r == Failure(CollectionImageLoadingError.ServiceError(fetched.error)))
  {
    match LoadArtImageData(url, Thumbnail, fetch)
    case Success(data) => Success(data)
    case Failure(e) => Failure(CollectionImageLoadingError.ServiceError(e))
  }

  /** `loadArtDetailsImageData(from:)`: original scale, service errors wrapped. */
  function LoadArtDetailsImageData(url: Url, fetch: Fetch): (r: ArtDetailsImageLoadingResult)
    requires 0 < |url.absoluteString|
    ensures var fetched := fetch(ArtImageUrlString(url, Original));
      && (fetched.Success? ==> r == Success(fetched.value))
      && (fetched.Failure? ==> r == Failure(ArtDetailsImageLoadingError.ServiceError(fetched.error)))
  {
    match LoadArtImageData(url, Original, fetch)
    case Success(data) => Success(data)
    case Failure(e) => Failure(ArtDetailsImageLoadingError.ServiceError(e))
  }
}
