/**
 * The JSON shapes the museum API returns, as the RijksMuseum draft decodes
 * them (RijksMuseum/Gateway/CollectionInfo.swift,
 * RijksMuseum/Gateway/ArtDetailsInfo.swift), and the art-details domain value
 * (RijksMuseum/ArtDetails/ArtDetails.swift). Decoding itself is foreign.
 */
module RijksWire {
  import opened Wrappers
  import opened Foundation

  /** `CollectionInfo.Art.ImageInfo`. */
  datatype ImageInfo = ImageInfo(
    guid: Option<string>,
    offsetPercentageX: int,
    offsetPercentageY: int,
    width: int,
    height: int,
    url: Option<string>)

  /** `CollectionInfo.Art`. */
  datatype Art = Art(
    links: map<string, string>,
    id: string,
    objectNumber: string,
    title: string,
    hasImage: bool,
    principalOrFirstMaker: string,
    longTitle: string,
    showImage: bool,
    permitDownload: bool,
    webImage: Option<ImageInfo>,
    headerImage: Option<ImageInfo>,
    productionPlaces: seq<string>)

  datatype CollectionInfo = CollectionInfo(elapsedMilliseconds: int, count: nat, artObjects: seq<Art>)

  /** `ArtDetailsInfo.Art.ImageInfo`: every field present. */
  datatype DetailsImageInfo = DetailsImageInfo(
    guid: string,
    offsetPercentageX: int,
    offsetPercentageY: int,
    width: int,
    height: int,
    url: string)

  /** `ArtDetailsInfo.Art`. */
  datatype DetailsArt = DetailsArt(
    id: string,
    priref: string,
    objectNumber: string,
    language: string,
    title: string,
    copyrightHolder: Option<string>,
    webImage: Option<DetailsImageInfo>,
    description: string)

  datatype ArtDetailsInfo = ArtDetailsInfo(artObject: DetailsArt)

  /** `ArtDetails.Image`. */
  datatype DetailsImage = DetailsImage(guid: string, width: int, height: int, url: Option<Url>)

  /** `ArtDetails`: what the details screen shows. */
  datatype ArtDetails = ArtDetails(id: string, title: string, description: string, webImage: Option<DetailsImage>)

  /** `JSONDecoder().decode(CollectionInfo.self, from:)`, left uninterpreted. */
  type CollectionDecoder = Data -> Result<CollectionInfo, AnyError>

  /** `JSONDecoder().decode(ArtDetailsInfo.self, from:)`, left uninterpreted. */
  type ArtDetailsDecoder = Data -> Result<ArtDetailsInfo, AnyError>
}
