/**
 * The collection page the RijksMuseum and Feature drafts use. Its declaring
 * file is not part of this model; its shape is the one the interactor and
 * presenters of those drafts build and read: optional images, an optional
 * image `guid` copied from the wire format, and a plain `String` title.
 */
module RijksPage {
  import opened Wrappers
  import opened Foundation

  datatype Image = Image(guid: Option<string>, width: int, height: int, url: Option<Url>)

  datatype CollectionItem = CollectionItem(
    id: string,
    title: string,
    description: string,
    webImage: Option<Image>,
    headerImage: Option<Image>)
  {
    /** `webImage?.url`: the URL an item model loads, if the item has one. */
    function ImageUrl(): Option<Url> {
      match webImage
      case None => None
      case Some(image) => image.url
    }
  }

  datatype CollectionPage = CollectionPage(title: string, items: seq<CollectionItem>)
}
