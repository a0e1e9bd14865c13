/**
 * The art-details interactor of the Feature draft
 * (Feature/ArtDetails/ArtDetailsInteractor.swift): it maps what the
 * RijksMuseum gateway decoded to the details value and wraps its errors.
 */
module FeatureArtDetailsInteractor {
  import opened Wrappers
  import opened Foundation
  import opened Service
  import SQ = ServiceQuery
  import RG = RijksGateway
  import opened RijksWire

  datatype ArtDetailsError = Loading(error: RG.ArtDetailsLoadingError)

  datatype ArtDetailsImageError = Loading(error: RG.ArtDetailsImageLoadingError)

  type ArtDetailsResult = Result<ArtDetails, ArtDetailsError>
  type ArtDetailsImageResult = Result<Data, ArtDetailsImageError>

  type ArtDetailsGateway = string -> RG.ArtDetailsLoadingResult
  type ArtDetailsImageGateway = Url -> RG.ArtDetailsImageLoadingResult

  /** `ImageInfo.artImage`: the wire fields, the URL parsed. */
  function ArtImageOf(info: DetailsImageInfo, parse: UrlParser): (image: DetailsImage)
    ensures image.guid == info.guid && image.width == info.width && image.height == info.height
    ensures image.url == parse(info.url)
  {
    DetailsImage(info.guid, info.width, info.height, parse(info.url))
  }

  /** `ArtDetailsInfo.artDetails`: the object's `id` (not its object number), title, description and optional image. */
  function ArtDetailsOf(info: ArtDetailsInfo, parse: UrlParser): (d: ArtDetails)
    ensures d.id == info.artObject.id && d.title == info.artObject.title
    ensures d.description == info.artObject.description
    ensures d.webImage.Some? <==> info.artObject.webImage.Some?
    ensures d.webImage.Some? ==> d.webImage.value == ArtImageOf(info.artObject.webImage.value, parse)
  {
    var art := info.artObject;
    ArtDetails(art.id, art.title, art.description,
      match art.webImage
      case None => None
      case Some(i) => Some(ArtImageOf(i, parse)))
  }

  /** The details do not depend on the fields the screen does not show. */
  lemma ArtDetailsIgnoresOtherFields(a: ArtDetailsInfo, b: ArtDetailsInfo, parse: UrlParser)
    requires a.artObject.id == b.artObject.id && a.artObject.title == b.artObject.title
    requires a.artObject.description == b.artObject.description && a.artObject.webImage == b.artObject.webImage
    ensures ArtDetailsOf(a, parse) == ArtDetailsOf(b, parse)
  {
  }

  /** `loadArtDetails(artId:)`: asks the gateway for that object and maps or wraps what comes back. */
  function LoadArtDetails(artId: string, gateway: ArtDetailsGateway, parse: UrlParser): (r: ArtDetailsResult)
    ensures gateway(artId).Success? <==> r.Success?
    ensures r.Success? ==> r.value == ArtDetailsOf(gateway(artId).value, parse)
    ensures r.Failure? ==> r.error == ArtDetailsError.Loading(gateway(artId).error)
  {
    match gateway(artId)
    case Success(info) => Success(ArtDetailsOf(info, parse))
    case Failure(e) => Failure(ArtDetailsError.Loading(e))
  }

  /** `loadArtDetailsImageData(from:)`: the gateway's bytes, or its error wrapped. */
  function LoadArtDetailsImageData(url: Url, gateway: ArtDetailsImageGateway): (r: ArtDetailsImageResult)
    ensures gateway(url).Success? ==> r == Success(gateway(url).value)
    ensures gateway(url).Failure? ==> r == Failure(ArtDetailsImageError.Loading(gateway(url).error))
  {
    match gateway(url)
    case Success(data) => Success(data)
    case Failure(e) => Failure(ArtDetailsImageError.Loading(e))
  }

  /**
   * The interactor over the RijksMuseum gateway: the details image is the
   * original-scale image, and a service failure reaches the caller wrapped twice.
   */
  lemma ImageEndToEnd(url: Url, fetch: Fetch)
    requires 0 < |url.absoluteString|
    ensures var fetched := fetch(RG.ArtImageUrlString(url, RG.Original));
      var r := LoadArtDetailsImageData(url, (u: Url) => if 0 < |u.absoluteString| then RG.LoadArtDetailsImageData(u, fetch) else Failure(RG.ArtDetailsImageLoadingError.ServiceError(InvalidQuery)));
      && (fetched.Success? ==> r == Success(fetched.value))
      && (fetched.Failure? ==> r == Failure(ArtDetailsImageError.Loading(RG.ArtDetailsImageLoadingError.ServiceError(fetched.error))))
  {
    var g: ArtDetailsImageGateway := (u: Url) => if 0 < |u.absoluteString| then RG.LoadArtDetailsImageData(u, fetch) else Failure(RG.ArtDetailsImageLoadingError.ServiceError(InvalidQuery));
    assert g(url) == RG.LoadArtDetailsImageData(url, fetch);
  }
}
