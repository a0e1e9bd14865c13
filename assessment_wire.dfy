/**
 * The JSON shapes the ProgrammingAssessment draft decodes. Their declaring
 * files are not part of this model; the fields here are those the draft's
 * mappers read, and, as those mappers require, every image and image field is
 * present.
 */
module AssessmentWire {
  import opened Wrappers
  import opened Foundation

  datatype ImageInfo = ImageInfo(guid: string, width: int, height: int, url: string)

  datatype Art = Art(
    objectNumber: string,
    title: string,
    longTitle: string,
    webImage: ImageInfo,
    headerImage: ImageInfo)

  datatype CollectionInfo = CollectionInfo(artObjects: seq<Art>)

  datatype DetailsArt = DetailsArt(id: string, title: string, description: string, webImage: ImageInfo)

  datatype ArtDetailsInfo = ArtDetailsInfo(artObject: DetailsArt)

  /** `ArtDetails.Image` and `ArtDetails` as this draft builds them. */
  datatype DetailsImage = DetailsImage(guid: string, width: int, height: int, url: Option<Url>)

  datatype ArtDetails = ArtDetails(id: string, title: string, description: string, webImage: DetailsImage)

  type CollectionDecoder = Data -> Result<CollectionInfo, AnyError>

  type ArtDetailsDecoder = Data -> Result<ArtDetailsInfo, AnyError>
}
