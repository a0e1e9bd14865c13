/**
 * The collection presenter of the Feature draft
 * (Feature/Collection/CollectionPresenter.swift). It behaves as the
 * RijksMuseum draft's presenter, but addresses items by `IndexPath`
 * (section = page, row = index) and wraps the cell contents in a tile model.
 *
 * The interactor answers asynchronously. Each request the presenter issues is
 * kept in `pageLoads` or `imageLoads` until the interactor completes it, and
 * a completion is an event method (`PageLoadSucceeded`, `PageLoadFailed`,
 * `ImageLoadSucceeded`, `ImageLoadFailed`) given which outstanding request
 * it answers. Calls to
 * the view, the interactor and the router are recorded in the ghost `calls`.
 * The interactor's result types are those of
 * Feature/Collection/CollectionInteractor.swift.
 */
module FeatureCollectionPresenter {
  import opened Wrappers
  import opened Foundation
  import opened Traces
  import opened CollectionViewModels
  import opened RijksPage
  import FCI = FeatureCollectionInteractor

  /** The tile a cell shows: image bytes and a title. */
  datatype TileModel = TileModel(imageData: Data, title: string)

  /** `CollectionViewCellModel(tileModel:)`. */
  datatype CellModel = CellModel(tileModel: TileModel)

  /** `CollectionViewHeaderModel`. */
  datatype HeaderModel = HeaderModel(title: string)

  /** The errors the presenter hands to `displayError(error:)`. */
  datatype PresentedError = CollectionFailure(collectionError: FCI.CollectionError) | ImageFailure(imageError: FCI.CollectionImageDataError)

  /** A call the presenter makes on its view, interactor or router. */
  datatype Call =
    | ViewConfigure(model: CollectionViewModel)
    | ViewDisplayError(error: PresentedError)
    | ViewUpdateCollection
    | InteractorLoadCollection(page: int, count: int)
    | InteractorLoadImage(url: Url)
    | RouterRouteToArtDetail(artId: string)

  predicate IsUpdate(c: Call) { c.ViewUpdateCollection? }
  predicate IsPageRequest(c: Call) { c.InteractorLoadCollection? }
  predicate IsImageRequest(c: Call) { c.InteractorLoadImage? }

  /** Which entry point issued a page request: their completions differ. */
  datatype LoadKind = FirstLoad | NextPage

  /** An outstanding `loadCollection(page:count:)` request. */
  datatype PageLoad = PageLoad(kind: LoadKind, page: int, count: int)

  /** An outstanding image request for the item at `indexPath`, whose title the completion uses. */
  datatype ImageLoad = ImageLoad(indexPath: IndexPath, url: Url, title: string)

  const ResultsOnPage := 30

  class CollectionPresenter {
    /** Whether a router is attached (`router` is optional). */
    var hasRouter: bool
    var currentPage: int
    const resultsOnPage: int
    var collectionPages: seq<CollectionPage>
    var pageLoads: seq<PageLoad>
    var imageLoads: seq<ImageLoad>
    ghost var calls: seq<Call>

    predicate HasItem(page: int, index: int)
      reads this
    {
      0 <= page < |collectionPages| && 0 <= index < |collectionPages[page].items|
    }

    /** The image request still names the item it was issued for: its URL and title. */
    predicate Awaits(load: ImageLoad)
      reads this
    {
      && HasItem(load.indexPath.section, load.indexPath.row)
      && collectionPages[load.indexPath.section].items[load.indexPath.row].ImageUrl() == Some(load.url)
      && collectionPages[load.indexPath.section].items[load.indexPath.row].title == load.title
    }

    /**
     * The presenter's invariant: one page per successful load, each followed by
     * `updateCollection()`, and `currentPage` one past the last page loaded;
     * every outstanding page request was for a page no later than the current
     * one, and every outstanding image request still matches its item.
     */
    ghost predicate Valid()
      reads this
    {
      && resultsOnPage == ResultsOnPage
      && currentPage == 1 + |collectionPages|
      && Count(calls, IsUpdate) == |collectionPages|
      && (forall l :: l in pageLoads ==> l.count == resultsOnPage && 1 <= l.page <= currentPage)
      && (forall l :: l in imageLoads ==> Awaits(l))
    }

    constructor (hasRouter: bool)
      ensures Valid()
      ensures this.hasRouter == hasRouter
      ensures currentPage == 1 && resultsOnPage == 30 && collectionPages == []
      ensures pageLoads == [] && imageLoads == [] && calls == []
    {
      this.hasRouter := hasRouter;
      currentPage := 1;
      resultsOnPage := ResultsOnPage;
      collectionPages := [];
      pageLoads := [];
      imageLoads := [];
      calls := [];
    }

    ghost method Tell(c: Call)
      modifies this
      ensures calls == old(calls) + [c]
      ensures Count(calls, IsUpdate) == Count(old(calls), IsUpdate) + (if IsUpdate(c) then 1 else 0)
      ensures hasRouter == old(hasRouter) && currentPage == old(currentPage) && collectionPages == old(collectionPages)
      ensures pageLoads == old(pageLoads) && imageLoads == old(imageLoads)
    {
      CountSnoc(calls, c, IsUpdate);
      calls := calls + [c];
    }

    /** `loadCollection()`: show the loading configuration, then ask for the current page. */
    method LoadCollection()
      requires Valid()
      modifies this
      ensures Valid()
      ensures pageLoads == old(pageLoads) + [PageLoad(FirstLoad, currentPage, resultsOnPage)]
      ensures calls == old(calls) + [ViewConfigure(LoadingModel), InteractorLoadCollection(currentPage, resultsOnPage)]
      ensures collectionPages == old(collectionPages) && currentPage == old(currentPage)
      ensures imageLoads == old(imageLoads) && hasRouter == old(hasRouter)
    {
      Tell(ViewConfigure(LoadingModel));
      Tell(InteractorLoadCollection(currentPage, resultsOnPage));
      pageLoads := pageLoads + [PageLoad(FirstLoad, currentPage, resultsOnPage)];
    }

    /** `loadNextPage()`: ask for the current page, without configuring the view. */
    method LoadNextPage()
      requires Valid()
      modifies this
      ensures Valid()
      ensures pageLoads == old(pageLoads) + [PageLoad(NextPage, currentPage, resultsOnPage)]
      ensures calls == old(calls) + [InteractorLoadCollection(currentPage, resultsOnPage)]
      ensures collectionPages == old(collectionPages) && currentPage == old(currentPage)
      ensures imageLoads == old(imageLoads) && hasRouter == old(hasRouter)
    {
      Tell(InteractorLoadCollection(currentPage, resultsOnPage));
      pageLoads := pageLoads + [PageLoad(NextPage, currentPage, resultsOnPage)];
    }

    /** `updateNext(page:)`: append the page, tell the view, advance the counter. */
    method UpdateNext(page: CollectionPage)
      requires Valid()
      modifies this
      ensures Valid()
      ensures collectionPages == old(collectionPages) + [page] && currentPage == old(currentPage) + 1
      ensures calls == old(calls) + [ViewUpdateCollection]
      ensures pageLoads == old(pageLoads) && imageLoads == old(imageLoads) && hasRouter == old(hasRouter)
    {
      collectionPages := collectionPages + [page];
      Tell(ViewUpdateCollection);
      currentPage := currentPage + 1;
    }

    /** Removes the outstanding page request `k`; what is left was outstanding before. */
    method Take(k: nat) returns (load: PageLoad)
      requires Valid() && k < |pageLoads|
      modifies this
      ensures Valid()
      ensures load == old(pageLoads[k]) && pageLoads == RemoveAt(old(pageLoads), k)
      ensures calls == old(calls) && collectionPages == old(collectionPages) && currentPage == old(currentPage)
      ensures imageLoads == old(imageLoads) && hasRouter == old(hasRouter)
    {
      load := pageLoads[k];
      forall l | l in RemoveAt(pageLoads, k)
        ensures l in pageLoads
      {
        RemoveAtKeeps(pageLoads, k, l);
      }
      pageLoads := RemoveAt(pageLoads, k);
    }

    /**
     * The interactor completes the outstanding page request `k` with a page:
     * exactly one page is appended; a first load also shows the success
     * configuration, before the view update.
     */
    method PageLoadSucceeded(k: nat, page: CollectionPage)
      requires Valid() && k < |pageLoads|
      modifies this
      ensures Valid()
      ensures collectionPages == old(collectionPages) + [page] && currentPage == old(currentPage) + 1
      ensures pageLoads == RemoveAt(old(pageLoads), k)
      ensures calls == old(calls) + (if old(pageLoads[k]).kind == FirstLoad then [ViewConfigure(LoadSuccessModel)] else [])
                                  + [ViewUpdateCollection]
      ensures imageLoads == old(imageLoads) && hasRouter == old(hasRouter)
    {
      var load := Take(k);
      if load.kind == FirstLoad {
        Tell(ViewConfigure(LoadSuccessModel));
      }
      UpdateNext(page);
    }

    /**
     * The interactor completes the outstanding page request `k` with an error:
     * neither the pages nor the counter change. A failed first load shows the
     * failure configuration and the error and is not retried; a failed
     * next-page load shows the error and calls `loadNextPage()` again, which
     * asks for the page that is current now.
     */
    method PageLoadFailed(k: nat, error: FCI.CollectionError)
      requires Valid() && k < |pageLoads|
      modifies this
      ensures Valid()
      ensures collectionPages == old(collectionPages) && currentPage == old(currentPage)
      ensures old(pageLoads[k]).kind == FirstLoad ==>
        && pageLoads == RemoveAt(old(pageLoads), k)
        && calls == old(calls) + [ViewConfigure(LoadFailModel), ViewDisplayError(CollectionFailure(error))]
      ensures old(pageLoads[k]).kind == NextPage ==>
        && pageLoads == RemoveAt(old(pageLoads), k) + [PageLoad(NextPage, currentPage, resultsOnPage)]
        && calls == old(calls) + [ViewDisplayError(CollectionFailure(error)), InteractorLoadCollection(currentPage, resultsOnPage)]
      ensures old(pageLoads[k]).kind == NextPage && old(pageLoads[k]).page == currentPage ==>
        pageLoads[|pageLoads| - 1] == old(pageLoads[k])
      ensures imageLoads == old(imageLoads) && hasRouter == old(hasRouter)
    {
      var load := Take(k);
      if load.kind == FirstLoad {
        Tell(ViewConfigure(LoadFailModel));
        Tell(ViewDisplayError(CollectionFailure(error)));
      } else {
        Tell(ViewDisplayError(CollectionFailure(error)));
        LoadNextPage();
      }
    }

    function NumberOfPages(): (n: int)
      reads this
      ensures n == |collectionPages|
    {
      |collectionPages|
    }

    function NumberOfItems(page: int): (n: int)
      reads this
      requires 0 <= page < |collectionPages|
      ensures n == |collectionPages[page].items|
    {
      |collectionPages[page].items|
    }

    /** The page count is the number of successful loads, and the counter is one past it. */
    lemma PagesCountSuccessfulLoads()
      requires Valid()
      ensures NumberOfPages() == Count(calls, IsUpdate)
      ensures currentPage == NumberOfPages() + 1
    {
    }

    /** `headerModel(on:)`: the page's title, delivered at once. */
    function HeaderModelOn(page: int): (h: HeaderModel)
      reads this
      requires 0 <= page < |collectionPages|
      ensures h.title == collectionPages[page].title
    {
      HeaderModel(collectionPages[page].title)
    }

    /**
     * `itemModel(at:)`: section and row name the page and the item. An item
     * without an image URL gets its model at once, with empty image data, and
     * nothing is requested; otherwise its image is requested and the model
     * comes with the completion.
     */
    method ItemModel(indexPath: IndexPath) returns (immediate: Option<CellModel>)
      requires Valid() && HasItem(indexPath.section, indexPath.row)
      modifies this
      ensures Valid()
      ensures collectionPages == old(collectionPages) && currentPage == old(currentPage)
      ensures var item := collectionPages[indexPath.section].items[indexPath.row];
        && (item.ImageUrl().None? ==>
              immediate == Some(CellModel(TileModel([], item.title))) && imageLoads == old(imageLoads) && calls == old(calls))
        && (item.ImageUrl().Some? ==>
              && immediate.None?
              && imageLoads == old(imageLoads) + [ImageLoad(indexPath, item.ImageUrl().value, item.title)]
              && calls == old(calls) + [InteractorLoadImage(item.ImageUrl().value)])
      ensures pageLoads == old(pageLoads) && hasRouter == old(hasRouter)
    {
      var page := indexPath.section;
      var index := indexPath.row;
      var item := collectionPages[page].items[index];
      match item.ImageUrl() {
        case None =>
          immediate := Some(CellModel(TileModel([], item.title)));
        case Some(url) =>
          Tell(InteractorLoadImage(url));
          imageLoads := imageLoads + [ImageLoad(indexPath, url, item.title)];
          immediate := None;
      }
    }

    /** Removes the outstanding image request `k`; it still matches its item. */
    method TakeImage(k: nat) returns (load: ImageLoad)
      requires Valid() && k < |imageLoads|
      modifies this
      ensures Valid() && Awaits(load)
      ensures load == old(imageLoads[k]) && imageLoads == RemoveAt(old(imageLoads), k)
      ensures calls == old(calls) && collectionPages == old(collectionPages) && currentPage == old(currentPage)
      ensures pageLoads == old(pageLoads) && hasRouter == old(hasRouter)
    {
      load := imageLoads[k];
      assert load in imageLoads;
      forall l | l in RemoveAt(imageLoads, k)
        ensures l in imageLoads
      {
        RemoveAtKeeps(imageLoads, k, l);
      }
      imageLoads := RemoveAt(imageLoads, k);
    }

    /** The interactor completes the outstanding image request `k` with bytes: the model carries them and the item's title. */
    method ImageLoadSucceeded(k: nat, data: Data) returns (model: CellModel)
      requires Valid() && k < |imageLoads|
      modifies this
      ensures Valid()
      ensures model == CellModel(TileModel(data, old(imageLoads[k]).title))
      ensures imageLoads == RemoveAt(old(imageLoads), k) && calls == old(calls)
      ensures collectionPages == old(collectionPages) && currentPage == old(currentPage)
      ensures pageLoads == old(pageLoads) && hasRouter == old(hasRouter)
    {
      var load := TakeImage(k);
      model := CellModel(TileModel(data, load.title));
    }

    /**
     * The interactor completes the outstanding image request `k` with an error:
     * the error is shown and `itemModel` runs again for the same index path,
     * which issues the same request.
     */
    method ImageLoadFailed(k: nat, error: FCI.CollectionImageDataError)
      requires Valid() && k < |imageLoads|
      modifies this
      ensures Valid()
      ensures imageLoads == RemoveAt(old(imageLoads), k) + [old(imageLoads[k])]
      ensures calls == old(calls) + [ViewDisplayError(ImageFailure(error)), InteractorLoadImage(old(imageLoads[k]).url)]
      ensures collectionPages == old(collectionPages) && currentPage == old(currentPage)
      ensures pageLoads == old(pageLoads) && hasRouter == old(hasRouter)
    {
      var load := TakeImage(k);
      Tell(ViewDisplayError(ImageFailure(error)));
      var again := ItemModel(load.indexPath);
    }

    /** `chooseItem(at:)`: route to the id of the item at that section and row, if a router is attached. */
    method ChooseItem(indexPath: IndexPath)
      requires Valid() && HasItem(indexPath.section, indexPath.row)
      modifies this
      ensures Valid()
      ensures collectionPages == old(collectionPages) && currentPage == old(currentPage)
      ensures calls == old(calls) + (if hasRouter then [RouterRouteToArtDetail(collectionPages[indexPath.section].items[indexPath.row].id)] else [])
      ensures pageLoads == old(pageLoads) && imageLoads == old(imageLoads) && hasRouter == old(hasRouter)
    {
      var page := indexPath.section;
      var itemIndex := indexPath.row;
      if hasRouter {
        Tell(RouterRouteToArtDetail(collectionPages[page].items[itemIndex].id));
      }
    }
  }

  /** A new presenter's first load asks for page 1 with 30 results. */
  method FirstRequest() returns (load: PageLoad)
    ensures load == PageLoad(FirstLoad, 1, 30)
  {
    var p := new CollectionPresenter(false);
    p.LoadCollection();
    load := p.pageLoads[0];
  }

  /** A successful first load leaves one page, counter 2, nothing outstanding and one view update. */
  method FirstLoadSucceeds(page: CollectionPage) returns (pages: seq<CollectionPage>, current: int, pending: seq<PageLoad>)
    ensures pages == [page] && current == 2 && pending == []
  {
    var p := new CollectionPresenter(false);
    p.LoadCollection();
    p.PageLoadSucceeded(0, page);
    pages, current, pending := p.collectionPages, p.currentPage, p.pageLoads;
  }

  /** A failed first load leaves no page, counter 1 and no new request. */
  method FirstLoadFails(e: FCI.CollectionError) returns (pages: seq<CollectionPage>, current: int, pending: seq<PageLoad>)
    ensures pages == [] && current == 1 && pending == []
  {
    var p := new CollectionPresenter(false);
    p.LoadCollection();
    p.PageLoadFailed(0, e);
    pages, current, pending := p.collectionPages, p.currentPage, p.pageLoads;
  }

  /** A failed next-page load asks again for the same page: the interactor is called twice. */
  method NextPageFailureRetries(e: FCI.CollectionError) returns (pending: seq<PageLoad>, current: int, ghost requests: nat)
    ensures pending == [PageLoad(NextPage, 1, 30)] && current == 1 && requests == 2
  {
    var p := new CollectionPresenter(false);
    p.LoadNextPage();
    p.PageLoadFailed(0, e);
    pending, current := p.pageLoads, p.currentPage;
    assert p.calls == [InteractorLoadCollection(1, 30)] + [ViewDisplayError(CollectionFailure(e))] + [InteractorLoadCollection(1, 30)];
    CountSnoc([InteractorLoadCollection(1, 30)], ViewDisplayError(CollectionFailure(e)), IsPageRequest);
    CountSnoc([InteractorLoadCollection(1, 30)] + [ViewDisplayError(CollectionFailure(e))], InteractorLoadCollection(1, 30), IsPageRequest);
    CountSnoc([], InteractorLoadCollection(1, 30), IsPageRequest);
    assert [] + [InteractorLoadCollection(1, 30)] == [InteractorLoadCollection(1, 30)];
    requests := Count(p.calls, IsPageRequest);
  }

  /** A failed image load asks again for the same image: the interactor is called twice. */
  method ImageFailureRetries(page: CollectionPage, e: FCI.CollectionImageDataError)
      returns (pending: seq<ImageLoad>, ghost imageRequests: nat)
    requires 0 < |page.items| && page.items[0].ImageUrl().Some?
    ensures pending == [ImageLoad(IndexPath(0, 0), page.items[0].ImageUrl().value, page.items[0].title)]
    ensures imageRequests == 2
  {
    var p := new CollectionPresenter(false);
    p.LoadNextPage();
    p.PageLoadSucceeded(0, page);
    ghost var before := p.calls;
    var immediate := p.ItemModel(IndexPath(0, 0));
    p.ImageLoadFailed(0, e);
    pending := p.imageLoads;
    var url := page.items[0].ImageUrl().value;
    assert p.calls == before + [InteractorLoadImage(url)] + [ViewDisplayError(ImageFailure(e))] + [InteractorLoadImage(url)];
    assert before == [InteractorLoadCollection(1, 30)] + [ViewUpdateCollection];
    CountSnoc([], InteractorLoadCollection(1, 30), IsImageRequest);
    assert [] + [InteractorLoadCollection(1, 30)] == [InteractorLoadCollection(1, 30)];
    CountSnoc([InteractorLoadCollection(1, 30)], ViewUpdateCollection, IsImageRequest);
    CountSnoc(before, InteractorLoadImage(url), IsImageRequest);
    CountSnoc(before + [InteractorLoadImage(url)], ViewDisplayError(ImageFailure(e)), IsImageRequest);
    CountSnoc(before + [InteractorLoadImage(url)] + [ViewDisplayError(ImageFailure(e))], InteractorLoadImage(url), IsImageRequest);
    imageRequests := Count(p.calls, IsImageRequest);
  }

  /** Choosing the first item of the first page routes once, with that item's id. */
  method ChooseRoutesWithItemId(page: CollectionPage) returns (ghost routed: seq<Call>)
    requires 0 < |page.items|
    ensures routed == [RouterRouteToArtDetail(page.items[0].id)]
  {
    var p := new CollectionPresenter(true);
    p.LoadCollection();
    p.PageLoadSucceeded(0, page);
    ghost var before := p.calls;
    p.ChooseItem(IndexPath(0, 0));
    routed := p.calls[|before|..];
  }
}
