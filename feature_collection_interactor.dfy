/**
 * The collection interactor of the Feature draft
 * (Feature/Collection/CollectionInteractor.swift): it completes with a
 * titled page of items mapped from what the RijksMuseum gateway decoded. The
 * gateway is a function parameter; `EndToEnd` composes the interactor with
 * the gateway model.
 */
module FeatureCollectionInteractor {
  import opened Wrappers
  import opened Foundation
  import opened Service
  import SQ = ServiceQuery
  import RG = RijksGateway
  import W = RijksWire
  import opened RijksPage
  import opened Titles

  datatype CollectionError = Loading(error: RG.CollectionLoadingError)

  datatype CollectionImageDataError = Loading(error: RG.CollectionImageLoadingError)

  type CollectionResult = Result<CollectionPage, CollectionError>
  type CollectionImageDataResult = Result<Data, CollectionImageDataError>

  type CollectionGateway = (int, int) -> RG.CollectionLoadingResult
  type CollectionImageGateway = Url -> RG.CollectionImageLoadingResult

  /** `ImageInfo.collectionItemImage`: a missing wire URL and one that does not parse both give no URL. */
  function ImageOf(info: W.ImageInfo, parse: UrlParser): (image: Image)
    ensures image.guid == info.guid && image.width == info.width && image.height == info.height
    ensures image.url.Some? <==> info.url.Some? && parse(info.url.value).Some?
    ensures image.url.Some? ==> image.url == parse(info.url.value)
  {
    Image(info.guid, info.width, info.height,
      match info.url
      case None => None
      case Some(s) => parse(s))
  }

  function OptionalImageOf(info: Option<W.ImageInfo>, parse: UrlParser): (image: Option<Image>)
    ensures image.Some? <==> info.Some?
    ensures image.Some? ==> image.value == ImageOf(info.value, parse)
  {
    match info
    case None => None
    case Some(i) => Some(ImageOf(i, parse))
  }

  /** One mapped object: `objectNumber` becomes the id and `longTitle` the description. */
  function CollectionItemOf(art: W.Art, parse: UrlParser): (item: CollectionItem)
    ensures item.id == art.objectNumber && item.title == art.title && item.description == art.longTitle
    ensures item.webImage == OptionalImageOf(art.webImage, parse)
    ensures item.headerImage == OptionalImageOf(art.headerImage, parse)
  {
    CollectionItem(
      art.objectNumber,
      art.title,
      art.longTitle,
      OptionalImageOf(art.webImage, parse),
      OptionalImageOf(art.headerImage, parse))
  }

  /** The URL a cell would load for the item: the web image's wire URL, parsed, when there is one. */
  lemma ItemImageUrl(art: W.Art, parse: UrlParser)
    ensures var u := CollectionItemOf(art, parse).ImageUrl();
      && (u.Some? <==> art.webImage.Some? && art.webImage.value.url.Some? && parse(art.webImage.value.url.value).Some?)
      && (u.Some? ==> u == parse(art.webImage.value.url.value))
  {
  }

  /** The mapped item depends on the object's number, titles and images only. */
  lemma CollectionItemIgnoresOtherFields(a: W.Art, b: W.Art, parse: UrlParser)
    requires a.objectNumber == b.objectNumber && a.title == b.title && a.longTitle == b.longTitle
    requires a.webImage == b.webImage && a.headerImage == b.headerImage
    ensures CollectionItemOf(a, parse) == CollectionItemOf(b, parse)
  {
  }

  /** `collectionItems`: `artObjects.map { … }`, one item per object, in the same order. */
  function CollectionItems(arts: seq<W.Art>, parse: UrlParser): (items: seq<CollectionItem>)
    ensures |items| == |arts|
    ensures forall i :: 0 <= i < |arts| ==> items[i] == CollectionItemOf(arts[i], parse)
  {
    if arts == [] then [] else [CollectionItemOf(arts[0], parse)] + CollectionItems(arts[1..], parse)
  }

  /** Mapping two batches one after the other is mapping them together. */
  lemma {:induction false} CollectionItemsAppend(a: seq<W.Art>, b: seq<W.Art>, parse: UrlParser)
    ensures CollectionItems(a + b, parse) == CollectionItems(a, parse) + CollectionItems(b, parse)
  {
    if a != [] {
      var head := [CollectionItemOf(a[0], parse)];
      assert (a + b)[0] == a[0];
      assert (a + b)[1..] == a[1..] + b;
      assert CollectionItems(a + b, parse) == head + CollectionItems(a[1..] + b, parse);
      CollectionItemsAppend(a[1..], b, parse);
      assert CollectionItems(a, parse) == head + CollectionItems(a[1..], parse);
    }
  }

  /** `loadCollection(page:count:)`: asks the gateway for that page and size, titles and maps what comes back. */
  function LoadCollection(page: int, count: int, gateway: CollectionGateway, parse: UrlParser): (r: CollectionResult)
    ensures gateway(page, count).Success? <==> r.Success?
    ensures r.Success? ==> r.value.title == PageTitle(page)
    ensures r.Success? ==> r.value.items == CollectionItems(gateway(page, count).value.artObjects, parse)
    ensures r.Failure? ==> r.error == CollectionError.Loading(gateway(page, count).error)
  {
    match gateway(page, count)
    case Success(info) => Success(CollectionPage(PageTitle(page), CollectionItems(info.artObjects, parse)))
    case Failure(e) => Failure(CollectionError.Loading(e))
  }

  /** `loadCollectionItemImageData(from:)`: the gateway's bytes, or its error wrapped. */
  function LoadCollectionItemImageData(url: Url, gateway: CollectionImageGateway): (r: CollectionImageDataResult)
    ensures gateway(url).Success? ==> r == Success(gateway(url).value)
    ensures gateway(url).Failure? ==> r == Failure(CollectionImageDataError.Loading(gateway(url).error))
  {
    match gateway(url)
    case Success(data) => Success(data)
    case Failure(e) => Failure(CollectionImageDataError.Loading(e))
  }

  /**
   * The interactor over the RijksMuseum gateway: a page arrives exactly when
   * the service answered the collection request for that page and size and
   * the answer decoded; it carries one item per decoded object.
   */
  lemma EndToEnd(page: int, count: int, fetch: Fetch, decode: W.CollectionDecoder, parse: UrlParser)
    ensures var fetched := fetch(SQ.UrlString(RG.CollectionQuery(page, count)));
      var r := LoadCollection(page, count, (p, c) => RG.LoadCollection(p, c, fetch, decode), parse);
      && (r.Success? <==> fetched.Success? && decode(fetched.value).Success?)
      && (r.Success? ==> r.value.title == PageTitle(page))
      && (r.Success? ==> |r.value.items| == |decode(fetched.value).value.artObjects|)
      && (fetched.Failure? ==> r == Failure(CollectionError.Loading(RG.CollectionLoadingError.ServiceError(fetched.error))))
  {
    var g: CollectionGateway := (p, c) => RG.LoadCollection(p, c, fetch, decode);
    assert g(page, count) == RG.LoadCollection(page, count, fetch, decode);
  }
}
