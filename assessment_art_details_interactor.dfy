/**
 * The art-details interactor of the ProgrammingAssessment draft
 * (ProgrammingAssessment/ArtDetails/ArtDetailsInteractor.swift). Unlike the
 * other drafts it calls the service itself, and it declares its own
 * loading-error type. Its `artDetails` mapper is also used by this draft's
 * gateway.
 */
module AssessmentArtDetailsInteractor {
  import opened Wrappers
  import opened Foundation
  import opened Service
  import SQ = ServiceQuery
  import RG = RijksGateway
  import opened AssessmentWire

  datatype ArtDetailsLoadingError = ParsingError(parseError: AnyError) | ServiceError(serviceError: ServiceLoadingError)

  type ArtDetailsLoadingResult = Result<ArtDetails, ArtDetailsLoadingError>

  /** `ArtDetailsInfo.artDetails`: the object's id, title and description, and its web image with the URL parsed. */
  function ArtDetailsOf(info: ArtDetailsInfo, parse: UrlParser): (d: ArtDetails)
    ensures d.id == info.artObject.id && d.title == info.artObject.title
    ensures d.description == info.artObject.description
    ensures d.webImage.guid == info.artObject.webImage.guid
    ensures d.webImage.width == info.artObject.webImage.width && d.webImage.height == info.artObject.webImage.height
    ensures d.webImage.url == parse(info.artObject.webImage.url)
  {
    var art := info.artObject;
    ArtDetails(art.id, art.title, art.description,
      DetailsImage(art.webImage.guid, art.webImage.width, art.webImage.height, parse(art.webImage.url)))
  }

  /** The wire value the details came from, when the image URL is present. */
  function ArtDetailsInfoOf(d: ArtDetails): Option<ArtDetailsInfo> {
    match d.webImage.url
    case None => None
    case Some(u) =>
      Some(ArtDetailsInfo(DetailsArt(d.id, d.title, d.description,
        ImageInfo(d.webImage.guid, d.webImage.width, d.webImage.height, u.absoluteString))))
  }

  /** When the image URL parses as itself, the mapper loses nothing. */
  lemma ArtDetailsInfoOfArtDetails(info: ArtDetailsInfo, parse: UrlParser)
    requires ParsesAs(parse, info.artObject.webImage.url)
    ensures ArtDetailsInfoOf(ArtDetailsOf(info, parse)) == Some(info)
  {
  }

  /** `laodArtDetails(artId:)`: the details query, the service, the decoder, then the mapper. */
  function LoadArtDetails(artId: string, fetch: Fetch, decode: ArtDetailsDecoder, parse: UrlParser): (r: ArtDetailsLoadingResult)
    ensures var fetched := fetch(SQ.UrlString(RG.ArtDetailsQuery(artId)));
      && (r.Success? <==> fetched.Success? && decode(fetched.value).Success?)
      && (r.Success? ==> r.value == ArtDetailsOf(decode(fetched.value).value, parse))
      && (fetched.Failure? ==> r == Failure(ArtDetailsLoadingError.ServiceError(fetched.error)))
      && (fetched.Success? && decode(fetched.value).Failure? ==>
            r == Failure(ArtDetailsLoadingError.ParsingError(decode(fetched.value).error)))
  {
    match fetch(SQ.UrlString(RG.ArtDetailsQuery(artId)))
    case Success(data) =>
      (match decode(data)
       case Success(info) => Success(ArtDetailsOf(info, parse))
       case Failure(e) => Failure(ArtDetailsLoadingError.ParsingError(e)))
    case Failure(e) => Failure(ArtDetailsLoadingError.ServiceError(e))
  }
}
