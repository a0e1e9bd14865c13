/**
 * The early prototype of the collection presenter
 * (ProgrammingAssessment/CollectionPresenter.swift): it starts at page 0 with
 * pages of 10, keeps one flat list of items, and has no item or header
 * models yet. Its item type is that of ProgrammingAssessment/CollectionItem.swift;
 * its `CollectionViewModel` has a title only. A failed load is printed, which
 * the trace records as `ConsoleError`, and not retried.
 */
module PrototypeCollectionPresenter {
  import opened Wrappers
  import opened Foundation
  import opened Traces

  datatype Image = Image(width: int, height: int, url: Option<Url>)

  datatype CollectionItem = CollectionItem(id: string, title: string, description: string, webImage: Image, headerImage: Image)

  datatype CollectionViewModel = CollectionViewModel(title: string)

  datatype CellModel = CellModel(imageData: Data, title: string)

  datatype HeaderModel = HeaderModel(title: string)

  datatype Call =
    | ViewConfigure(model: CollectionViewModel)
    | InteractorLoadCollection(page: int, count: int)
    | ConsoleError(error: AnyError)

  predicate IsConfigure(c: Call) { c.ViewConfigure? }
  predicate IsPageRequest(c: Call) { c.InteractorLoadCollection? }

  /** An outstanding `loadCollection(page:count:complition:)` request. */
  datatype PageLoad = PageLoad(page: int, count: int)

  /** The batches, concatenated in the order they arrived. */
  function Flatten(batches: seq<seq<CollectionItem>>): seq<CollectionItem> {
    if batches == [] then [] else batches[0] + Flatten(batches[1..])
  }

  /** Appending a batch appends its items after all earlier ones. */
  lemma {:induction false} FlattenSnoc(batches: seq<seq<CollectionItem>>, batch: seq<CollectionItem>)
    ensures Flatten(batches + [batch]) == Flatten(batches) + batch
  {
    if batches == [] {
      assert [] + [batch] == [batch];
      assert [batch][1..] == [];
    } else {
      assert (batches + [batch])[0] == batches[0];
      assert (batches + [batch])[1..] == batches[1..] + [batch];
      FlattenSnoc(batches[1..], batch);
    }
  }

  const ResultsOnPage := 10

  class CollectionPresenter {
    var currentPage: int
    const resultsOnPage: int
    var collectionItems: seq<CollectionItem>
    var pageLoads: seq<PageLoad>
    /** The item batches of the successful loads, oldest first. */
    ghost var loaded: seq<seq<CollectionItem>>
    ghost var calls: seq<Call>

    /**
     * The counter is the number of successful loads, the list holds their
     * items in arrival order, and every outstanding request was for a page no
     * later than the current one.
     */
    ghost predicate Valid()
      reads this
    {
      && resultsOnPage == ResultsOnPage
      && currentPage == |loaded|
      && collectionItems == Flatten(loaded)
      && (forall l :: l in pageLoads ==> l.count == resultsOnPage && 0 <= l.page <= currentPage)
    }

    constructor ()
      ensures Valid()
      ensures currentPage == 0 && resultsOnPage == 10 && collectionItems == []
      ensures pageLoads == [] && loaded == [] && calls == []
    {
      currentPage := 0;
      resultsOnPage := ResultsOnPage;
      collectionItems := [];
      pageLoads := [];
      loaded := [];
      calls := [];
    }

    /** `loadCollection()`: configure the view once, then exactly one `loadNextPage()`. */
    method LoadCollection()
      requires Valid()
      modifies this
      ensures Valid()
      ensures pageLoads == old(pageLoads) + [PageLoad(currentPage, resultsOnPage)]
      ensures calls == old(calls) + [ViewConfigure(CollectionViewModel("Collection")), InteractorLoadCollection(currentPage, resultsOnPage)]
      ensures collectionItems == old(collectionItems) && currentPage == old(currentPage) && loaded == old(loaded)
    {
      calls := calls + [ViewConfigure(CollectionViewModel("Collection"))];
      LoadNextPage();
    }

    /** `loadNextPage()`: ask for the current page. */
    method LoadNextPage()
      requires Valid()
      modifies this
      ensures Valid()
      ensures pageLoads == old(pageLoads) + [PageLoad(currentPage, resultsOnPage)]
      ensures calls == old(calls) + [InteractorLoadCollection(currentPage, resultsOnPage)]
      ensures collectionItems == old(collectionItems) && currentPage == old(currentPage) && loaded == old(loaded)
    {
      calls := calls + [InteractorLoadCollection(currentPage, resultsOnPage)];
      pageLoads := pageLoads + [PageLoad(currentPage, resultsOnPage)];
    }

    /** Removes the outstanding request `k`; what is left was outstanding before. */
    method Take(k: nat)
      requires Valid() && k < |pageLoads|
      modifies this
      ensures Valid()
      ensures pageLoads == RemoveAt(old(pageLoads), k)
      ensures calls == old(calls) && collectionItems == old(collectionItems)
      ensures currentPage == old(currentPage) && loaded == old(loaded)
    {
      forall l | l in RemoveAt(pageLoads, k)
        ensures l in pageLoads
      {
        RemoveAtKeeps(pageLoads, k, l);
      }
      pageLoads := RemoveAt(pageLoads, k);
    }

    /** The interactor completes request `k` with items: all of them are appended, in order, and the counter advances. */
    method PageLoadSucceeded(k: nat, items: seq<CollectionItem>)
      requires Valid() && k < |pageLoads|
      modifies this
      ensures Valid()
      ensures collectionItems == old(collectionItems) + items
      ensures currentPage == old(currentPage) + 1
      ensures loaded == old(loaded) + [items]
      ensures pageLoads == RemoveAt(old(pageLoads), k) && calls == old(calls)
    {
      Take(k);
      FlattenSnoc(loaded, items);
      collectionItems := collectionItems + items;
      loaded := loaded + [items];
      currentPage := currentPage + 1;
    }

    /** The interactor completes request `k` with an error: it is printed, nothing else changes and nothing is re-requested. */
    method PageLoadFailed(k: nat, error: AnyError)
      requires Valid() && k < |pageLoads|
      modifies this
      ensures Valid()
      ensures collectionItems == old(collectionItems) && currentPage == old(currentPage) && loaded == old(loaded)
      ensures pageLoads == RemoveAt(old(pageLoads), k)
      ensures calls == old(calls) + [ConsoleError(error)]
    {
      Take(k);
      calls := calls + [ConsoleError(error)];
    }

    /** `numberOfPages()`: a constant 0 in this draft, whatever was loaded. */
    function NumberOfPages(): (n: int)
      ensures n == 0
    {
      0
    }

    /** `numberOfItems(on:)`: a constant 0 in this draft. */
    function NumberOfItems(page: int): (n: int)
      ensures n == 0
    {
      0
    }

    /** `itemModel(on:at:completion:)`: the completion is never called. */
    method ItemModel(page: int, index: int) returns (delivered: Option<CellModel>)
      ensures delivered.None?
    {
      delivered := None;
    }

    /** `headerModel(on:completion:)`: the completion is never called. */
    method HeaderModelOn(page: int) returns (delivered: Option<HeaderModel>)
      ensures delivered.None?
    {
      delivered := None;
    }
  }

  /** The first load asks for page 0 with 10 results, configuring the view exactly once and calling the interactor exactly once. */
  method FirstRequest() returns (pending: seq<PageLoad>, ghost configures: nat, ghost requests: nat)
    ensures pending == [PageLoad(0, 10)] && configures == 1 && requests == 1
  {
    var p := new CollectionPresenter();
    p.LoadCollection();
    pending := p.pageLoads;
    var c0, c1 := ViewConfigure(CollectionViewModel("Collection")), InteractorLoadCollection(0, 10);
    assert p.calls == [] + [c0] + [c1];
    CountSnoc([], c0, IsConfigure);
    CountSnoc([] + [c0], c1, IsConfigure);
    CountSnoc([], c0, IsPageRequest);
    CountSnoc([] + [c0], c1, IsPageRequest);
    configures, requests := Count(p.calls, IsConfigure), Count(p.calls, IsPageRequest);
  }

  /** Two successful loads list the first batch, then the second, and leave the counter at 2. */
  method TwoLoads(first: seq<CollectionItem>, second: seq<CollectionItem>) returns (items: seq<CollectionItem>, current: int)
    ensures items == first + second && current == 2
  {
    var p := new CollectionPresenter();
    p.LoadCollection();
    p.PageLoadSucceeded(0, first);
    p.LoadNextPage();
    p.PageLoadSucceeded(0, second);
    items, current := p.collectionItems, p.currentPage;
  }

  /** A failed first load leaves no items, counter 0 and nothing outstanding. */
  method FailedLoadIsNotRetried(error: AnyError) returns (items: seq<CollectionItem>, current: int, pending: seq<PageLoad>)
    ensures items == [] && current == 0 && pending == []
  {
    var p := new CollectionPresenter();
    p.LoadCollection();
    p.PageLoadFailed(0, error);
    items, current, pending := p.collectionItems, p.currentPage, p.pageLoads;
  }
}
