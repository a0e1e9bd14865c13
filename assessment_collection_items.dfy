/**
 * The wire-to-page mapper of the ProgrammingAssessment draft, the
 * `collectionItems` extension of `CollectionInfo`
 * (ProgrammingAssessment/Collection/CollectionInteractor.swift). It is kept
 * apart from the interactor because the gateway of the same draft uses it too.
 */
module AssessmentCollectionItems {
  import opened Wrappers
  import opened Foundation
  import opened AssessmentWire
  import opened AssessmentPage

  function ImageOf(info: ImageInfo, parse: UrlParser): (image: Image)
    ensures image.guid == info.guid && image.width == info.width && image.height == info.height
    ensures image.url == parse(info.url)
  {
    Image(info.guid, info.width, info.height, parse(info.url))
  }

  /** One mapped object: `objectNumber` becomes the id and `longTitle` the description. */
  function CollectionItemOf(art: Art, parse: UrlParser): (item: CollectionItem)
    ensures item.id == art.objectNumber && item.title == art.title && item.description == art.longTitle
    ensures item.webImage == ImageOf(art.webImage, parse)
    ensures item.headerImage == ImageOf(art.headerImage, parse)
  {
    CollectionItem(
      art.objectNumber,
      art.title,
      art.longTitle,
      ImageOf(art.webImage, parse),
      ImageOf(art.headerImage, parse))
  }

  /** `artObjects.map { … }`: one item per object, in the same order. */
  function CollectionItems(arts: seq<Art>, parse: UrlParser): (items: seq<CollectionItem>)
    ensures |items| == |arts|
    ensures forall i :: 0 <= i < |arts| ==> items[i] == CollectionItemOf(arts[i], parse)
  {
    if arts == [] then [] else [CollectionItemOf(arts[0], parse)] + CollectionItems(arts[1..], parse)
  }

  /** Mapping two batches one after the other is mapping them together. */
  lemma {:induction false} CollectionItemsAppend(a: seq<Art>, b: seq<Art>, parse: UrlParser)
    ensures CollectionItems(a + b, parse) == CollectionItems(a, parse) + CollectionItems(b, parse)
  {
    if a != [] {
      assert (a + b)[1..] == a[1..] + b;
      CollectionItemsAppend(a[1..], b, parse);
    }
  }

  /** The wire image an image came from, when its URL is present. */
  function ImageInfoOf(image: Image): Option<ImageInfo> {
    match image.url
    case None => None
    case Some(u) => Some(ImageInfo(image.guid, image.width, image.height, u.absoluteString))
  }

  /** The wire object an item came from, when both its image URLs are present. */
  function ArtOf(item: CollectionItem): Option<Art> {
    var web :- ImageInfoOf(item.webImage);
    var header :- ImageInfoOf(item.headerImage);
    Some(Art(item.id, item.title, item.description, web, header))
  }

  /** When both image URLs parse as themselves, the mapper loses nothing of the object. */
  lemma ArtOfCollectionItem(art: Art, parse: UrlParser)
    requires ParsesAs(parse, art.webImage.url) && ParsesAs(parse, art.headerImage.url)
    ensures ArtOf(CollectionItemOf(art, parse)) == Some(art)
  {
  }

  /** When an image URL does not parse, the item keeps the image without a URL. */
  lemma UnparsedImageUrl(art: Art, parse: UrlParser)
    requires parse(art.webImage.url).None?
    ensures CollectionItemOf(art, parse).webImage.url.None?
    ensures ArtOf(CollectionItemOf(art, parse)).None?
  {
  }
}
