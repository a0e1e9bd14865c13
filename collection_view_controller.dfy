/**
 * The bookkeeping of the ProgrammingAssessment collection view controller
 * (ProgrammingAssessment/Collection/View/CollectionViewController.swift),
 * without UIKit: the cache of cell models by position, the set of positions
 * whose model has been requested, the flag that turns repeated "last cell
 * shown" events into one next-page request, the data-source counts and the
 * footer rule. The controller drives this draft's presenter; the
 * presenter's asynchronous completions reach it through the `Presenter*`
 * event methods, which run the presenter's handler and then the closure the
 * controller passed to it.
 */
module AssessmentCollectionViewController {
  import opened Wrappers
  import opened Foundation
  import opened AssessmentPage
  import P = AssessmentCollectionPresenter
  import Traces

  function Max(a: int, b: int): int {
    if a < b then b else a
  }

  /**
   * `lastIndexPath`, from the section count the collection view reports and
   * the item count of its last section, both clamped at 0.
   */
  function LastIndexPath(numberOfSections: int, lastSectionItems: int): (ip: IndexPath)
    ensures 0 <= ip.section && 0 <= ip.row
    ensures 1 <= numberOfSections ==> ip.section == numberOfSections - 1
    ensures numberOfSections <= 1 ==> ip.section == 0
    ensures 1 <= lastSectionItems ==> ip.row == lastSectionItems - 1
    ensures lastSectionItems <= 1 ==> ip.row == 0
  {
    IndexPath(Max(numberOfSections - 1, 0), Max(lastSectionItems - 1, 0))
  }

  /** The footer rule (the indicator animates, and the footer gets a size) for `section`. */
  predicate FooterIsActive(numberOfSections: int, lastSectionItems: int, section: int) {
    LastIndexPath(numberOfSections, lastSectionItems).section == section
  }

  /** Of the sections on screen, exactly the last one has an active footer. */
  lemma OnlyLastFooterIsActive(numberOfSections: int, lastSectionItems: int, section: int)
    requires 0 <= section < numberOfSections
    ensures FooterIsActive(numberOfSections, lastSectionItems, section) <==> section == numberOfSections - 1
  {
  }

  class CollectionViewController {
    var presenter: P.CollectionPresenter?
    var cachedItemsModels: map<IndexPath, P.CellModel>
    var loadingNextPage: bool
    var loadingIndexPaths: set<IndexPath>

    /** A position is never both cached and awaited. */
    ghost predicate Valid()
      reads this, presenter
    {
      && cachedItemsModels.Keys !! loadingIndexPaths
      && (presenter != null ==> presenter.Valid())
    }

    constructor (presenter: P.CollectionPresenter?)
      requires presenter != null ==> presenter.Valid()
      ensures Valid()
      ensures this.presenter == presenter
      ensures cachedItemsModels == map[] && loadingIndexPaths == {} && !loadingNextPage
    {
      this.presenter := presenter;
      cachedItemsModels := map[];
      loadingNextPage := false;
      loadingIndexPaths := {};
    }

    /** `numberOfSections(in:)`: the presenter's page count, or 1 without a presenter. */
    function NumberOfSections(): (n: int)
      reads this, presenter
      ensures presenter == null ==> n == 1
      ensures presenter != null ==> n == |presenter.collectionPages|
    {
      if presenter == null then 1 else presenter.NumberOfPages()
    }

    /** `collectionView(_:numberOfItemsInSection:)`: the page's item count, or 0 without a presenter. */
    function NumberOfItems(section: int): (n: int)
      reads this, presenter
      requires presenter != null ==> 0 <= section < |presenter.collectionPages|
      ensures presenter == null ==> n == 0
      ensures presenter != null ==> n == |presenter.collectionPages[section].items|
    {
      if presenter == null then 0 else presenter.NumberOfItems(section)
    }

    /** The header of `section`: the page's title, or no header model without a presenter. */
    function HeaderModel(section: int): (h: Option<P.HeaderModel>)
      reads this, presenter
      requires presenter != null ==> 0 <= section < |presenter.collectionPages|
      ensures presenter == null ==> h.None?
      ensures presenter != null ==> h == Some(P.HeaderModel(presenter.collectionPages[section].title))
    {
      if presenter == null then None else Some(presenter.HeaderModelOn(section))
    }

    /** The completion passed to `itemModel`: cache the model and stop awaiting the position. */
    method ItemModelDelivered(ip: IndexPath, model: P.CellModel)
      requires Valid()
      modifies this
      ensures Valid()
      ensures cachedItemsModels == old(cachedItemsModels)[ip := model]
      ensures loadingIndexPaths == old(loadingIndexPaths) - {ip}
      ensures presenter == old(presenter) && loadingNextPage == old(loadingNextPage)
    {
      cachedItemsModels := cachedItemsModels[ip := model];
      loadingIndexPaths := loadingIndexPaths - {ip};
    }

    /**
     * `collectionView(_:cellForItemAt:)`. A cached position configures the cell
     * from the cache and asks nothing; an awaited one asks nothing either.
     * Otherwise the position is marked as awaited and its model requested; a
     * model the presenter delivers at once is cached at once.
     */
    method CellForItemAt(ip: IndexPath) returns (fromCache: Option<P.CellModel>)
      requires Valid()
      requires presenter != null ==> presenter.HasItem(ip.section, ip.row)
      modifies this, presenter
      ensures Valid()
      ensures presenter == old(presenter) && loadingNextPage == old(loadingNextPage)
      ensures ip in old(cachedItemsModels) ==>
        && fromCache == Some(old(cachedItemsModels)[ip])
        && cachedItemsModels == old(cachedItemsModels) && loadingIndexPaths == old(loadingIndexPaths)
        && (presenter != null ==> unchanged(presenter))
      ensures ip !in old(cachedItemsModels) && ip in old(loadingIndexPaths) ==>
        && fromCache.None?
        && cachedItemsModels == old(cachedItemsModels) && loadingIndexPaths == old(loadingIndexPaths)
        && (presenter != null ==> unchanged(presenter))
      ensures ip !in old(cachedItemsModels) && ip !in old(loadingIndexPaths) && presenter == null ==>
        && fromCache.None?
        && cachedItemsModels == old(cachedItemsModels) && loadingIndexPaths == old(loadingIndexPaths) + {ip}
      ensures ip !in old(cachedItemsModels) && ip !in old(loadingIndexPaths) && presenter != null ==>
        var item := old(presenter.collectionPages[ip.section].items[ip.row]);
        && fromCache.None?
        && presenter.collectionPages == old(presenter.collectionPages)
        && presenter.currentPage == old(presenter.currentPage)
        && presenter.pageLoads == old(presenter.pageLoads)
        && presenter.hasRouter == old(presenter.hasRouter)
        && (item.webImage.url.None? ==>
              && cachedItemsModels == old(cachedItemsModels)[ip := P.CellModel([], item.title)]
              && loadingIndexPaths == old(loadingIndexPaths)
              && presenter.imageLoads == old(presenter.imageLoads)
              && presenter.calls == old(presenter.calls))
        && (item.webImage.url.Some? ==>
              && cachedItemsModels == old(cachedItemsModels)
              && loadingIndexPaths == old(loadingIndexPaths) + {ip}
              && presenter.imageLoads == old(presenter.imageLoads) + [P.ImageLoad(ip.section, ip.row, item.webImage.url.value, item.title)]
              && presenter.calls == old(presenter.calls) + [P.InteractorLoadImage(item.webImage.url.value, P.AG.Thumbnail)])
    {
      if ip in cachedItemsModels {
        fromCache := Some(cachedItemsModels[ip]);
      } else if ip !in loadingIndexPaths {
        fromCache := None;
        loadingIndexPaths := loadingIndexPaths + {ip};
        if presenter != null {
          var immediate := presenter.ItemModel(ip.section, ip.row);
          if immediate.Some? {
            ItemModelDelivered(ip, immediate.value);
          }
        }
      } else {
        fromCache := None;
      }
    }

    /** The presenter's image request `k` succeeds: its model is cached under the position the request was made for. */
    method PresenterImageLoadSucceeded(k: nat, data: Data)
      requires Valid() && presenter != null && k < |presenter.imageLoads|
      modifies this, presenter
      ensures Valid()
      ensures var load := old(presenter.imageLoads[k]);
        var ip := IndexPath(load.page, load.index);
        && cachedItemsModels == old(cachedItemsModels)[ip := P.CellModel(data, load.title)]
        && loadingIndexPaths == old(loadingIndexPaths) - {ip}
      ensures presenter == old(presenter) && loadingNextPage == old(loadingNextPage)
      ensures presenter.imageLoads == Traces.RemoveAt(old(presenter.imageLoads), k)
      ensures presenter.collectionPages == old(presenter.collectionPages) && presenter.currentPage == old(presenter.currentPage)
      ensures presenter.pageLoads == old(presenter.pageLoads)
      ensures presenter.calls == old(presenter.calls) && presenter.hasRouter == old(presenter.hasRouter)
    {
      var load := presenter.imageLoads[k];
      var model := presenter.ImageLoadSucceeded(k, data);
      ItemModelDelivered(IndexPath(load.page, load.index), model);
    }

    /** The presenter's image request `k` fails: the presenter retries it; the position stays awaited. */
    method PresenterImageLoadFailed(k: nat, error: P.FCI.CollectionImageDataError)
      requires Valid() && presenter != null && k < |presenter.imageLoads|
      modifies presenter
      ensures Valid()
      ensures presenter.imageLoads == Traces.RemoveAt(old(presenter.imageLoads), k) + [old(presenter.imageLoads[k])]
      ensures presenter.calls == old(presenter.calls)
        + [P.ViewDisplayError(P.ImageFailure(error)), P.InteractorLoadImage(old(presenter.imageLoads[k]).url, P.AG.Thumbnail)]
      ensures presenter.collectionPages == old(presenter.collectionPages) && presenter.currentPage == old(presenter.currentPage)
      ensures presenter.pageLoads == old(presenter.pageLoads) && presenter.hasRouter == old(presenter.hasRouter)
    {
      presenter.ImageLoadFailed(k, error);
    }

    /** `updateCollection()`: a section is inserted (left to UIKit) and next-page loading is allowed again. */
    method UpdateCollection()
      requires Valid()
      modifies this
      ensures Valid()
      ensures !loadingNextPage
      ensures presenter == old(presenter) && cachedItemsModels == old(cachedItemsModels)
      ensures loadingIndexPaths == old(loadingIndexPaths)
    {
      loadingNextPage := false;
    }

    /** The presenter's page request `k` succeeds, and its `updateCollection()` call reaches this view. */
    method PresenterPageLoadSucceeded(k: nat, page: CollectionPage)
      requires Valid() && presenter != null && k < |presenter.pageLoads|
      modifies this, presenter
      ensures Valid()
      ensures !loadingNextPage
      ensures presenter == old(presenter)
      ensures presenter.collectionPages == old(presenter.collectionPages) + [page]
      ensures presenter.currentPage == old(presenter.currentPage) + 1
      ensures presenter.pageLoads == Traces.RemoveAt(old(presenter.pageLoads), k)
      ensures presenter.calls == old(presenter.calls)
        + (if old(presenter.pageLoads[k]).kind == P.FirstLoad then [P.ViewConfigure(P.LoadSuccessConfiguration)] else [])
        + [P.ViewUpdateCollection]
      ensures presenter.imageLoads == old(presenter.imageLoads) && presenter.hasRouter == old(presenter.hasRouter)
      ensures cachedItemsModels == old(cachedItemsModels) && loadingIndexPaths == old(loadingIndexPaths)
    {
      presenter.PageLoadSucceeded(k, page);
      UpdateCollection();
    }

    /** The presenter's page request `k` fails: no view update arrives, so the flag stays as it was. */
    method PresenterPageLoadFailed(k: nat, error: P.FCI.CollectionError)
      requires Valid() && presenter != null && k < |presenter.pageLoads|
      modifies presenter
      ensures Valid()
      ensures presenter.collectionPages == old(presenter.collectionPages) && presenter.currentPage == old(presenter.currentPage)
      ensures presenter.imageLoads == old(presenter.imageLoads) && presenter.hasRouter == old(presenter.hasRouter)
      ensures old(presenter.pageLoads[k]).kind == P.FirstLoad ==>
        && presenter.pageLoads == Traces.RemoveAt(old(presenter.pageLoads), k)
        && presenter.calls == old(presenter.calls)
             + [P.ViewConfigure(P.LoadFailConfiguration), P.ViewDisplayError(P.CollectionFailure(error))]
      ensures old(presenter.pageLoads[k]).kind == P.NextPage ==>
        && presenter.pageLoads == Traces.RemoveAt(old(presenter.pageLoads), k) + [P.PageLoad(P.NextPage, presenter.currentPage, 30)]
        && presenter.calls == old(presenter.calls)
             + [P.ViewDisplayError(P.CollectionFailure(error)), P.InteractorLoadCollection(presenter.currentPage, 30)]
    {
      presenter.PageLoadFailed(k, error);
    }

    /**
     * `collectionView(_:willDisplay:forItemAt:)`, given the counts the collection
     * view reports. Only the last index path, and only while no next page is
     * being loaded, sets the flag and asks the presenter for the next page.
     */
    method WillDisplay(ip: IndexPath, numberOfSections: int, lastSectionItems: int)
      requires Valid()
      modifies this, presenter
      ensures Valid()
      ensures presenter == old(presenter)
      ensures cachedItemsModels == old(cachedItemsModels) && loadingIndexPaths == old(loadingIndexPaths)
      ensures ip == LastIndexPath(numberOfSections, lastSectionItems) && !old(loadingNextPage) ==>
        && loadingNextPage
        && (presenter != null ==>
              && presenter.pageLoads == old(presenter.pageLoads) + [P.PageLoad(P.NextPage, presenter.currentPage, 30)]
              && presenter.calls == old(presenter.calls) + [P.InteractorLoadCollection(presenter.currentPage, 30)]
              && presenter.collectionPages == old(presenter.collectionPages)
              && presenter.currentPage == old(presenter.currentPage)
              && presenter.imageLoads == old(presenter.imageLoads)
              && presenter.hasRouter == old(presenter.hasRouter))
      ensures !(ip == LastIndexPath(numberOfSections, lastSectionItems) && !old(loadingNextPage)) ==>
        loadingNextPage == old(loadingNextPage) && (presenter != null ==> unchanged(presenter))
    {
      if ip == LastIndexPath(numberOfSections, lastSectionItems) && !loadingNextPage {
        loadingNextPage := true;
        if presenter != null {
          presenter.LoadNextPage();
        }
      }
    }

    /** `collectionView(_:didSelectItemAt:)`: section and row become page and item index. */
    method DidSelectItemAt(ip: IndexPath)
      requires Valid()
      requires presenter != null ==> presenter.HasItem(ip.section, ip.row)
      modifies presenter
      ensures Valid()
      ensures presenter != null ==>
        presenter.calls == old(presenter.calls)
          + (if presenter.hasRouter then [P.RouterRouteToArtDetail(old(presenter.collectionPages[ip.section].items[ip.row]).id)] else [])
      ensures presenter != null ==>
        && presenter.collectionPages == old(presenter.collectionPages) && presenter.currentPage == old(presenter.currentPage)
        && presenter.pageLoads == old(presenter.pageLoads) && presenter.imageLoads == old(presenter.imageLoads)
        && presenter.hasRouter == old(presenter.hasRouter)
    {
      if presenter != null {
        presenter.ChooseItem(ip.row, ip.section);
      }
    }

    /** `viewDidLoad()` and the background's tap (`retryToLoad()`): the presenter's `loadCollection()`. */
    method LoadCollection()
      requires Valid()
      modifies presenter
      ensures Valid()
      ensures presenter != null ==>
        && presenter.pageLoads == old(presenter.pageLoads) + [P.PageLoad(P.FirstLoad, presenter.currentPage, 30)]
        && presenter.calls == old(presenter.calls)
             + [P.ViewConfigure(P.LoadingConfiguration), P.InteractorLoadCollection(presenter.currentPage, 30)]
        && presenter.collectionPages == old(presenter.collectionPages) && presenter.currentPage == old(presenter.currentPage)
        && presenter.imageLoads == old(presenter.imageLoads) && presenter.hasRouter == old(presenter.hasRouter)
    {
      if presenter != null {
        presenter.LoadCollection();
      }
    }
  }

  /** Showing the same uncached cell twice while its image loads requests the image once. */
  method SecondDisplayDoesNotRequestAgain(page: CollectionPage) returns (pending: seq<P.ImageLoad>, awaited: set<IndexPath>)
    requires 0 < |page.items| && page.items[0].webImage.url.Some?
    ensures pending == [P.ImageLoad(0, 0, page.items[0].webImage.url.value, page.items[0].title)]
    ensures awaited == {IndexPath(0, 0)}
  {
    var p := new P.CollectionPresenter(false);
    var c := new CollectionViewController(p);
    c.LoadCollection();
    c.PresenterPageLoadSucceeded(0, page);
    var first := c.CellForItemAt(IndexPath(0, 0));
    var second := c.CellForItemAt(IndexPath(0, 0));
    pending, awaited := p.imageLoads, c.loadingIndexPaths;
  }

  /** Once the image arrives the position is served from the cache, with the loaded bytes and the item's title. */
  method CachedAfterLoad(page: CollectionPage, data: Data) returns (shown: Option<P.CellModel>, pending: seq<P.ImageLoad>)
    requires 0 < |page.items| && page.items[0].webImage.url.Some?
    ensures shown == Some(P.CellModel(data, page.items[0].title)) && pending == []
  {
    var p := new P.CollectionPresenter(false);
    var c := new CollectionViewController(p);
    c.LoadCollection();
    c.PresenterPageLoadSucceeded(0, page);
    var first := c.CellForItemAt(IndexPath(0, 0));
    c.PresenterImageLoadSucceeded(0, data);
    shown := c.CellForItemAt(IndexPath(0, 0));
    pending := p.imageLoads;
  }

  /**
   * After the first page is shown, showing its last cell twice asks for one
   * next page (page 2); after that page arrives the last cell of the new last
   * section asks again, for page 3.
   */
  method NextPageRequestedOncePerPage(page1: CollectionPage, page2: CollectionPage)
      returns (first: seq<P.PageLoad>, second: seq<P.PageLoad>)
    requires 0 < |page1.items| && 0 < |page2.items|
    ensures first == [P.PageLoad(P.NextPage, 2, 30)]
    ensures second == [P.PageLoad(P.NextPage, 3, 30)]
  {
    var p := new P.CollectionPresenter(false);
    var c := new CollectionViewController(p);
    c.LoadCollection();
    c.PresenterPageLoadSucceeded(0, page1);
    var last1 := IndexPath(0, |page1.items| - 1);
    c.WillDisplay(last1, 1, |page1.items|);
    c.WillDisplay(last1, 1, |page1.items|);
    first := p.pageLoads;
    c.PresenterPageLoadSucceeded(0, page2);
    c.WillDisplay(IndexPath(1, |page2.items| - 1), 2, |page2.items|);
    second := p.pageLoads;
  }

  /**
   * A tap after the controller has loaded the first page and shown the first
   * cell still reaches the router: the presenter routes once, with the item's id.
   */
  method TapAfterLoadRoutes(page: CollectionPage) returns (ghost routed: seq<P.Call>)
    requires 0 < |page.items|
    ensures routed == [P.RouterRouteToArtDetail(page.items[0].id)]
  {
    var p := new P.CollectionPresenter(true);
    var c := new CollectionViewController(p);
    c.LoadCollection();
    c.PresenterPageLoadSucceeded(0, page);
    var shown := c.CellForItemAt(IndexPath(0, 0));
    ghost var before := p.calls;
    c.DidSelectItemAt(IndexPath(0, 0));
    routed := p.calls[|before|..];
  }
}
