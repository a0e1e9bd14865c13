/**
 * The collection interactor of the ProgrammingAssessment draft
 * (ProgrammingAssessment/Collection/CollectionInteractor.swift). The gateway
 * it calls is the `gateway` parameter: a function from the page and page
 * size it is asked for to the result it completes with. As written, this
 * draft's interactor receives decoded `CollectionInfo` from the gateway, so
 * that is the gateway result modelled here.
 */
module AssessmentCollectionInteractor {
  import opened Wrappers
  import opened Foundation
  import opened AssessmentWire
  import opened AssessmentPage
  import opened Titles
  import opened AssessmentCollectionItems
  import AG = AssessmentGateway

  datatype CollectionError = Loading(error: AG.CollectionLoadingError)

  datatype CollectionImageDataError = Loading(error: AG.CollectionImageLoadingError)

  type CollectionResult = Result<CollectionPage, CollectionError>
  type CollectionImageDataResult = Result<Data, CollectionImageDataError>

  type CollectionGateway = (int, int) -> Result<CollectionInfo, AG.CollectionLoadingError>
  type CollectionImageGateway = Url -> AG.CollectionImageLoadingResult

  /** `loadCollection(page:count:)`: asks the gateway for that page and size, titles and maps what comes back. */
  function LoadCollection(page: int, count: int, gateway: CollectionGateway, parse: UrlParser): (r: CollectionResult)
    ensures gateway(page, count).Success? <==> r.Success?
    ensures r.Success? ==> r.value.title == Some(PageTitle(page))
    ensures r.Success? ==> r.value.items == CollectionItems(gateway(page, count).value.artObjects, parse)
    ensures r.Failure? ==> r.error == CollectionError.Loading(gateway(page, count).error)
  {
    match gateway(page, count)
    case Success(info) => Success(CollectionPage(Some(PageTitle(page)), CollectionItems(info.artObjects, parse)))
    case Failure(e) => Failure(CollectionError.Loading(e))
  }

  /** `loadCollectionItemImageData(from:)`: the gateway's bytes, or its error wrapped. */
  function LoadCollectionItemImageData(url: Url, gateway: CollectionImageGateway): (r: CollectionImageDataResult)
    ensures gateway(url).Success? ==> r == Success(gateway(url).value)
    ensures gateway(url).Failure? ==> r == Failure(CollectionImageDataError.Loading(gateway(url).error))
  {
    match gateway(url)
    case Success(data) => Success(data)
    case Failure(e) => Failure(CollectionImageDataError.Loading(e))
  }

  /** The interactor and this draft's gateway build the same page from the same decoded objects. */
  lemma InteractorPageIsGatewayPage(page: int, count: int, gateway: CollectionGateway, parse: UrlParser)
    requires gateway(page, count).Success?
    ensures LoadCollection(page, count, gateway, parse).value == AG.PageOf(page, gateway(page, count).value, parse)
  {
  }
}
