/**
 * The gateway of the ProgrammingAssessment draft
 * (ProgrammingAssessment/Gateway/RijksmuseumGateway.swift). It builds the
 * same service queries as the RijksMuseum draft's gateway, but maps what it
 * decodes to the page and details values itself, and it builds image
 * queries with this draft's image query, whose scale is always appended.
 */
module AssessmentGateway {
  import opened Wrappers
  import opened Foundation
  import opened Text
  import opened Service
  import SQ = ServiceQuery
  import RG = RijksGateway
  import IQ = AssessmentImageQuery
  import opened AssessmentWire
  import opened AssessmentPage
  import opened Titles
  import opened AssessmentCollectionItems
  import AD = AssessmentArtDetailsInteractor

  datatype CollectionLoadingError = ParsingError(parseError: AnyError) | ServiceError(serviceError: ServiceLoadingError)

  datatype CollectionImageLoadingError = ServiceError(serviceError: ServiceLoadingError)

  datatype ArtDetailsLoadingError = ParsingError(parseError: AnyError) | ServiceError(serviceError: ServiceLoadingError)

  datatype ArtDetailsImageLoadingError = ServiceError(serviceError: ServiceLoadingError)

  type CollectionLoadingResult = Result<CollectionPage, CollectionLoadingError>
  type CollectionImageLoadingResult = Result<Data, CollectionImageLoadingError>
  type ArtDetailsLoadingResult = Result<ArtDetails, ArtDetailsLoadingError>
  type ArtDetailsImageLoadingResult = Result<Data, ArtDetailsImageLoadingError>

  datatype CollectionImageLoadingScale = Original | Thumbnail {
    function RawValue(): int {
      match this
      case Original => 0
      case Thumbnail => 400
    }
  }

  /** The page `loadCollection` hands on for what it decoded: titled "Page <page>", one item per object. */
  function PageOf(page: int, info: CollectionInfo, parse: UrlParser): (p: CollectionPage)
    ensures p.title == Some(PageTitle(page))
    ensures p.items == CollectionItems(info.artObjects, parse)
  {
    CollectionPage(Some(PageTitle(page)), CollectionItems(info.artObjects, parse))
  }

  /** `loadCollection(page:count:)`. */
  function LoadCollection(page: int, count: int, fetch: Fetch, decode: CollectionDecoder, parse: UrlParser): (r: CollectionLoadingResult)
    ensures var fetched := fetch(SQ.UrlString(RG.CollectionQuery(page, count)));
      && (r.Success? <==> fetched.Success? && decode(fetched.value).Success?)
      && (r.Success? ==> r.value == PageOf(page, decode(fetched.value).value, parse))
      && (fetched.Failure? ==> r == Failure(CollectionLoadingError.ServiceError(fetched.error)))
      && (fetched.Success? && decode(fetched.value).Failure? ==>
            r == Failure(CollectionLoadingError.ParsingError(decode(fetched.value).error)))
  {
    match fetch(SQ.UrlString(RG.CollectionQuery(page, count)))
    case Success(data) =>
      (match decode(data)
       case Success(info) => Success(PageOf(page, info, parse))
       case Failure(e) => Failure(CollectionLoadingError.ParsingError(e)))
    case Failure(e) => Failure(CollectionLoadingError.ServiceError(e))
  }

  /** A loaded page's title names the page that was asked for. */
  lemma LoadedPageNamesItsPage(page: int, count: int, fetch: Fetch, decode: CollectionDecoder, parse: UrlParser)
    requires LoadCollection(page, count, fetch, decode, parse).Success?
    ensures var p := LoadCollection(page, count, fetch, decode, parse).value;
      p.title.Some? && PageOfTitle(p.title.value) == Some(page)
  {
    PageOfTitleOf(page);
  }

  /** `loadArtDetails(artId:)`: decoded, then mapped by the details interactor's `artDetails`. */
  function LoadArtDetails(artId: string, fetch: Fetch, decode: ArtDetailsDecoder, parse: UrlParser): (r: ArtDetailsLoadingResult)
    ensures var fetched := fetch(SQ.UrlString(RG.ArtDetailsQuery(artId)));
      && (r.Success? <==> fetched.Success? && decode(fetched.value).Success?)
      && (r.Success? ==> r.value == AD.ArtDetailsOf(decode(fetched.value).value, parse))
      && (fetched.Failure? ==> r == Failure(ArtDetailsLoadingError.ServiceError(fetched.error)))
      && (fetched.Success? && decode(fetched.value).Failure? ==>
            r == Failure(ArtDetailsLoadingError.ParsingError(decode(fetched.value).error)))
  {
    match fetch(SQ.UrlString(RG.ArtDetailsQuery(artId)))
    case Success(data) =>
      (match decode(data)
       case Success(info) => Success(AD.ArtDetailsOf(info, parse))
       case Failure(e) => Failure(ArtDetailsLoadingError.ParsingError(e)))
    case Failure(e) => Failure(ArtDetailsLoadingError.ServiceError(e))
  }

  /** The gateway and the details interactor of this draft agree: same request, same details, same kind of error. */
  lemma LoadArtDetailsAgreesWithInteractor(artId: string, fetch: Fetch, decode: ArtDetailsDecoder, parse: UrlParser)
    ensures var g, i := LoadArtDetails(artId, fetch, decode, parse), AD.LoadArtDetails(artId, fetch, decode, parse);
      && (g.Success? <==> i.Success?)
      && (g.Success? ==> g.value == i.value)
      && (g.Failure? && g.error.ServiceError? <==> i.Failure? && i.error.ServiceError?)
  {
  }

  /** The URL string `loadArtImageData` asks for: the image URL without its last character, then the scale. */
  function ArtImageUrlString(url: Url, scale: CollectionImageLoadingScale): (s: string)
    requires 0 < |url.absoluteString|
    ensures var n := |url.absoluteString| - 1;
      && n <= |s| && s[..n] == url.absoluteString[..n]
      && ParseInt(s[n..]) == Some(scale.RawValue())
  {
    var base := DropLast(url.absoluteString);
    IQ.ScaleReadBack(base, scale.RawValue());
    IQ.ImageUrlString(base, scale.RawValue())
  }

  /** The builder chain of `loadArtImageData` yields the string above. */
  method MakeArtImageQuery(url: Url, scale: CollectionImageLoadingScale) returns (q: IQ.RijksmuseumImageQuery)
    requires 0 < |url.absoluteString|
    ensures fresh(q) && q.UrlString() == ArtImageUrlString(url, scale)
  {
    var urlString := url.absoluteString;
    urlString := DropLast(urlString);
    q := new IQ.RijksmuseumImageQuery(urlString);
    q := q.WithScale(scale.RawValue());
  }

  /**
   * The thumbnail the gateway loads is the one the page's `thumbnailUrl`
   * names, and both drafts' gateways ask for the same image URLs.
   */
  lemma ThumbnailAgreesWithPage(url: Url)
    requires 0 < |url.absoluteString|
    ensures ArtImageUrlString(url, Thumbnail) == ThumbnailString(url.absoluteString)
    ensures ArtImageUrlString(url, Thumbnail) == RG.ArtImageUrlString(url, RG.Thumbnail)
    ensures ArtImageUrlString(url, Original) == RG.ArtImageUrlString(url, RG.Original)
  {
    assert NatToString(40) == NatToString(4) + [DigitChar(0)];
    assert IntToString(400) == "400";
  }

  function LoadArtImageData(url: Url, scale: CollectionImageLoadingScale, fetch: Fetch): (r: ServiceLoadingResult)
    requires 0 < |url.absoluteString|
    ensures r == fetch(ArtImageUrlString(url, scale))
  {
    match fetch(ArtImageUrlString(url, scale))
    case Success(data) => Success(data)
    case Failure(e) => Failure(e)
  }

  function LoadCollectionImageData(url: Url, fetch: Fetch): (r: CollectionImageLoadingResult)
    requires 0 < |url.absoluteString|
    ensures var fetched := fetch(ArtImageUrlString(url, Thumbnail));
      && (fetched.Success? ==> r == Success(fetched.value))
      && (fetched.Failure? ==> r == Failure(CollectionImageLoadingError.ServiceError(fetched.error)))
  {
    match LoadArtImageData(url, Thumbnail, fetch)
    case Success(data) => Success(data)
    case Failure(e) => Failure(CollectionImageLoadingError.ServiceError(e))
  }

  function LoadArtDetailsImageData(url: Url, fetch: Fetch): (r: ArtDetailsImageLoadingResult)
    requires 0 < |url.absoluteString|
    ensures var fetched := fetch(ArtImageUrlString(url, Original));
      && (fetched.Success? ==> r == Success(fetched.value))
      && (fetched.Failure? ==> r == Failure(ArtDetailsImageLoadingError.ServiceError(fetched.error)))
  {
    match LoadArtImageData(url, Original, fetch)
    case Success(data) => Success(data)
    case Failure(e) => Failure(ArtDetailsImageLoadingError.ServiceError(e))
  }
}
