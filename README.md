# Rijksmuseum collection browser — a verified model of its core

The repository holds several successive drafts of one small iOS app. The app
browses the Rijksmuseum collection through the museum's public API:

- a paged grid of art objects, each with a thumbnail;
- a detail screen per object.

The drafts are:

- **RijksMuseum**;
- **Feature**, the RijksMuseum draft with `IndexPath`-based presenter calls;
- **ProgrammingAssessment** (here "PA"), which has its own page type, gateway, interactors and collection view controller;
- an early **prototype** presenter inside PA.

This project models, in Dafny, the parts of those drafts that are sequential logic rather than UIKit or network glue.

- **Collection presenters** (`RijksCollectionPresenter`, `FeatureCollectionPresenter`, `AssessmentCollectionPresenter`, `PrototypeCollectionPresenter`).
  - Each is a class with the source's fields: the pages (or items) loaded so far and the `currentPage` counter.
  - The interactor's asynchronous completions become event methods. `PageLoadSucceeded` and `PageLoadFailed` answer an outstanding page request; `ImageLoadSucceeded` and `ImageLoadFailed` answer an outstanding image request.
  - The outstanding requests are themselves fields (`pageLoads`, `imageLoads`). A retry is a re-issued request.
  - The calls the presenter makes on its view, interactor and router are recorded in a ghost trace `calls`, so call counts can be stated.
  - The invariant `Valid()` ties the page count, the counter and the number of `updateCollection()` calls together.
- **The PA collection view controller** (`AssessmentCollectionViewController`).
  - The cell-model cache is a `map` from index path to model.
  - The set of positions whose model is awaited, and the `loadingNextPage` flag.
  - The clamped `lastIndexPath`, the data-source counts and the footer rule.
  - The presenter's completions reach it through `Presenter*` event methods.
- **Query builders** (`ServiceQuery`, `RijksImageQuery`, `AssessmentImageQuery`).
  - The API query's URL string, whose every field is proved to be readable back from it.
  - The fluent builders, each of which sets one field and returns the same object.
  - The image queries' scale suffix.
- **Gateways, interactors and mappers** (`RijksGateway`, `AssessmentGateway`, `FeatureCollectionInteractor`, `FeatureArtDetailsInteractor`, `AssessmentCollectionInteractor`, `AssessmentArtDetailsInteractor`, `AssessmentCollectionItems`).
  - The wire-to-domain maps and the page title "Page N".
  - The image URL rewrite (drop the last character, append the scale).
  - The re-wrapping of service, decoding and gateway errors.
  - Lemmas compose interactor and gateway end to end.

The service, `JSONDecoder` and `URL(string:)` are foreign code; they are function parameters.

- `fetch: string -> ServiceLoadingResult` is the service seen from the URL string of the query it is given.
- A decoder is a `Data -> Result<Info, AnyError>`.
- A URL parser is a `string -> Option<Url>`. `Foundation.ParsesAs(parse, s)` says that `s` parses as itself.

Supporting modules:

- `Text`: Swift's decimal rendering of an `Int`, `removeLast()`, and small parsers proving the rendering is read back exactly.
- `Traces`: counting the calls in a trace, and removing one outstanding request.
- `Wrappers`: `Option` and `Result`.
- `Foundation`: `Data`, `Url`, `IndexPath`, errors.
- `Service`: the service's error and result types.
- `RijksWire`, `AssessmentWire`: the decoded wire types.
- `RijksPage`: the RijksMuseum/Feature page type.
- `CollectionViewModels`: the view-model configurations.
- `Titles`: page titles.

## Model

| member | source | states |
|---|---|---|
| Service.GetData | RijksMuseum/Service/Service.swift:19-36 | `getData(query:)` on the query's URL string: `.invalidQuery` exactly when `URL(string:)` rejects it; otherwise the session's bytes pass through and its error `e` becomes `.requestError(e)` |
| Text.IntToString | RijksMuseum/Service/RijksmuseumServiceQuery.swift:67 | Swift's decimal rendering of an `Int`: non-empty, all digits exactly when non-negative, a leading minus otherwise; ParseIntToString reads it back exactly |
| Text.DropLast | RijksMuseum/Gateway/RijksmuseumGateway.swift:131-132 | `removeLast()` on a copy: one character shorter, and putting the last character back gives the original; an empty string is excluded because `removeLast()` traps |
| ServiceQuery.ParseFormat | RijksMuseum/Service/RijksmuseumServiceQuery.swift:5-9 | a string is read as a format exactly when it is that format's raw value ("json", "jsonp", "xml") |
| ServiceQuery.Format.RawValue | RijksMuseum/Service/RijksmuseumServiceQuery.swift:5-9 | the raw values "json", "jsonp" and "xml"; ParseFormat reads each back as its own format only |
| ServiceQuery.ParseCulture | RijksMuseum/Service/RijksmuseumServiceQuery.swift:11-14 | a string is read as a culture exactly when it is that culture's raw value ("en", "nl") |
| ServiceQuery.Culture.RawValue | RijksMuseum/Service/RijksmuseumServiceQuery.swift:11-14 | the raw values "en" and "nl"; ParseCulture reads each back as its own culture only |
| ServiceQuery.Request.Description | RijksMuseum/Service/RijksmuseumServiceQuery.swift:22-31 | every description starts with "collection", and it is exactly "collection" only for `.all` |
| ServiceQuery.ParseDescriptionOf | RijksMuseum/Service/RijksmuseumServiceQuery.swift:22-31 | a request whose id holds no '/' is read back unchanged from its description ("collection", "collection/id", "collection/id/tiles") |
| ServiceQuery.DescriptionAmbiguous | RijksMuseum/Service/RijksmuseumServiceQuery.swift:26-29 | without that restriction `.collection(id + "/tiles")` and `.tiles(id)` are different requests with the same description |
| ServiceQuery.ParseQueryItemsOf | RijksMuseum/Service/RijksmuseumServiceQuery.swift:67 | the part after '?' ("key=…&format=…&p=…&ps=…") gives back the format, page and page size |
| ServiceQuery.ParseUrlStringOf | RijksMuseum/Service/RijksmuseumServiceQuery.swift:66-68 | the `getUrl` string (base URL, culture, description, key, format, page, page size) gives back every field of the query, for plain request ids |
| ServiceQuery.UrlStringInjective | RijksMuseum/Service/RijksmuseumServiceQuery.swift:66-68 | two queries with plain ids and the same URL string are the same query |
| ServiceQuery.DefaultQuery | RijksMuseum/Service/RijksmuseumServiceQuery.swift:36-40 | the field defaults json, en, page 0 and page size 10; the constructor's contract says a new query holds exactly these |
| ServiceQuery.UrlString | RijksMuseum/Service/RijksmuseumServiceQuery.swift:67 | the string `getUrl()` interpolates and hands to `URL(string:)`; ParseUrlStringOf reads every field back from it and UrlStringInjective follows |
| ServiceQuery.RijksmuseumServiceQuery.GetUrl | RijksMuseum/Service/RijksmuseumServiceQuery.swift:66-68 | `getUrl()`: the foreign parser applied to that string, for the query's current fields |
| ServiceQuery.RijksmuseumServiceQuery.constructor | RijksMuseum/Service/RijksmuseumServiceQuery.swift:36-44 | a new query has the given request, format json, culture en, page 0 and page size 10 |
| ServiceQuery.RijksmuseumServiceQuery.WithFormat | RijksMuseum/Service/RijksmuseumServiceQuery.swift:46-49 | sets the format only, every other field unchanged, and returns the same object |
| ServiceQuery.RijksmuseumServiceQuery.WithCulture | RijksMuseum/Service/RijksmuseumServiceQuery.swift:51-54 | sets the culture only and returns the same object |
| ServiceQuery.RijksmuseumServiceQuery.WithPage | RijksMuseum/Service/RijksmuseumServiceQuery.swift:56-59 | sets the page only and returns the same object |
| ServiceQuery.RijksmuseumServiceQuery.WithPageSize | RijksMuseum/Service/RijksmuseumServiceQuery.swift:61-64 | sets the page size only and returns the same object |
| RijksImageQuery.ScaleReadBack | RijksMuseum/Service/RijksmuseumImageQuery.swift:17-20 | with a scale, the URL string starts with the query's URL and the rest reads back as the scale |
| RijksImageQuery.ImageUrlString | RijksMuseum/Service/RijksmuseumImageQuery.swift:18-19 | the URL is always a prefix, and the string is the URL itself exactly when no scale is set (the `?? ""` appendix) |
| RijksImageQuery.RijksmuseumImageQuery.constructor | RijksMuseum/Service/RijksmuseumImageQuery.swift:5-10 | a new query keeps the given URL and has no scale, so its string is the URL itself |
| RijksImageQuery.RijksmuseumImageQuery.WithScale | RijksMuseum/Service/RijksmuseumImageQuery.swift:12-15 | sets the scale and returns the same object; the URL is a constant |
| RijksImageQuery.RijksmuseumImageQuery.UrlString | RijksMuseum/Service/RijksmuseumImageQuery.swift:18-19 | the string for the query's current URL and scale |
| RijksImageQuery.RijksmuseumImageQuery.GetUrl | RijksMuseum/Service/RijksmuseumImageQuery.swift:17-20 | `getUrl()`: the foreign parser applied to that string |
| RijksImageQuery.LastScaleWins | RijksMuseum/Service/RijksmuseumImageQuery.swift:12-20 | after two `withScale` calls the string is the URL followed by the second scale's digits |
| AssessmentImageQuery.ScaleReadBack | ProgrammingAssessment/Service/RijksmuseumImageQuery.swift:17-19 | the URL string starts with the query's URL and the rest reads back as the scale |
| AssessmentImageQuery.ImageUrlString | ProgrammingAssessment/Service/RijksmuseumImageQuery.swift:18 | the URL is a proper prefix: the scale's digits are always appended |
| AssessmentImageQuery.RijksmuseumImageQuery.constructor | ProgrammingAssessment/Service/RijksmuseumImageQuery.swift:5-10 | a new query keeps the given URL and has scale 0 |
| AssessmentImageQuery.RijksmuseumImageQuery.WithScale | ProgrammingAssessment/Service/RijksmuseumImageQuery.swift:12-15 | sets the scale only and returns the same object |
| AssessmentImageQuery.RijksmuseumImageQuery.UrlString | ProgrammingAssessment/Service/RijksmuseumImageQuery.swift:18 | the string for the query's current URL and scale |
| AssessmentImageQuery.RijksmuseumImageQuery.GetUrl | ProgrammingAssessment/Service/RijksmuseumImageQuery.swift:17-19 | `getUrl()`: the foreign parser applied to that string |
| AssessmentImageQuery.UnscaledQuery | ProgrammingAssessment/Service/RijksmuseumImageQuery.swift:5-19 | a query nobody scaled yields the URL followed by "0" |
| AssessmentImageQuery.LastScaleWins | ProgrammingAssessment/Service/RijksmuseumImageQuery.swift:12-19 | after two `withScale` calls the string is the URL followed by the second scale's digits |
| AssessmentPage.ThumbnailString | ProgrammingAssessment/Collection/CollectionPage.swift:11-13 | the rewrite keeps every character but the last, ends in "400" and is two characters longer |
| AssessmentPage.ThumbnailOfSizeSuffix | ProgrammingAssessment/Collection/CollectionPage.swift:11-13 | a URL ending in a one-character size ("…=s0") becomes the same URL ending in "400" |
| AssessmentPage.Image.ThumbnailUrl | ProgrammingAssessment/Collection/CollectionPage.swift:10-15 | no URL gives no thumbnail; otherwise the thumbnail is the parse of the rewritten string; an empty URL string is excluded because `removeLast()` traps |
| Titles.PageTitle | Feature/Collection/CollectionInteractor.swift:36 | "Page " followed by a decimal that reads back as the page |
| Titles.PageOfTitleOf | Feature/Collection/CollectionInteractor.swift:36 | the page number can be read back from "Page N" |
| Titles.PageTitleInjective | Feature/Collection/CollectionInteractor.swift:36 | distinct pages get distinct titles |
| RijksGateway.CollectionImageLoadingScale.RawValue | RijksMuseum/Gateway/RijksmuseumGateway.swift:42-45 | original is 0 and thumbnail is 400 |
| RijksGateway.CollectionQuery | RijksMuseum/Gateway/RijksmuseumGateway.swift:57 | request `.all` with the given page and page size, the other fields at their defaults; MakeCollectionQuery shows the builder chain yields it |
| RijksGateway.ArtDetailsQuery | RijksMuseum/Gateway/RijksmuseumGateway.swift:93 | request `.collection(artId)` with every other field at its default |
| RijksGateway.MakeCollectionQuery | RijksMuseum/Gateway/RijksmuseumGateway.swift:57 | the builder chain yields request `.all` with the given page and page size, other fields at their defaults |
| RijksGateway.CollectionRequestReadsBack | RijksMuseum/Gateway/RijksmuseumGateway.swift:57 | the collection request's URL string names `.all`, json, en, the page and the page size |
| RijksGateway.ArtDetailsRequestReadsBack | RijksMuseum/Gateway/RijksmuseumGateway.swift:93 | the details request's URL string names `.collection(artId)` with the default fields |
| RijksGateway.LoadCollection | RijksMuseum/Gateway/RijksmuseumGateway.swift:56-79 | success exactly when the service answered the collection query and the answer decoded, with the decoded info; a service error becomes `.serviceError(e)` and a decoding error `.parsingError(e)`, the inner error unchanged |
| RijksGateway.LoadArtDetails | RijksMuseum/Gateway/RijksmuseumGateway.swift:92-115 | the same for the `.collection(artId)` query and the details decoder |
| RijksGateway.ArtImageUrlString | RijksMuseum/Gateway/RijksmuseumGateway.swift:128-133 | the image URL string keeps the URL but its last character, and what follows reads back as the scale's raw value |
| RijksGateway.MakeArtImageQuery | RijksMuseum/Gateway/RijksmuseumGateway.swift:131-133 | `removeLast()` then `RijksmuseumImageQuery(url:).withScale(scale:)` yields that string |
| RijksGateway.ImageUrlOfSizeZero | RijksMuseum/Gateway/RijksmuseumGateway.swift:42-45 | for a URL ending in "0" the original scale (0) asks for the URL unchanged and the thumbnail scale (400) for the URL ending in "400" |
| RijksGateway.LoadArtImageData | RijksMuseum/Gateway/RijksmuseumGateway.swift:128-144 | the service's answer to the rewritten URL, bytes or error, is passed on unchanged |
| RijksGateway.LoadCollectionImageData | RijksMuseum/Gateway/RijksmuseumGateway.swift:81-90 | asks at thumbnail scale; bytes pass through and a service error `e` becomes `.serviceError(e)` |
| RijksGateway.LoadArtDetailsImageData | RijksMuseum/Gateway/RijksmuseumGateway.swift:117-126 | asks at original scale; bytes pass through and a service error `e` becomes `.serviceError(e)` |
| AssessmentGateway.CollectionImageLoadingScale.RawValue | ProgrammingAssessment/Gateway/RijksmuseumGateway.swift:45-48 | original is 0 and thumbnail is 400 |
| AssessmentGateway.PageOf | ProgrammingAssessment/Gateway/RijksmuseumGateway.swift:63-64 | the page is titled "Page N" and its items are the mapped objects |
| AssessmentGateway.LoadCollection | ProgrammingAssessment/Gateway/RijksmuseumGateway.swift:56-80 | success exactly when the service answered and the answer decoded, with the page built from the decoded info; service and decoding errors wrapped as `.serviceError` and `.parsingError` |
| AssessmentGateway.LoadedPageNamesItsPage | ProgrammingAssessment/Gateway/RijksmuseumGateway.swift:64 | a loaded page's title reads back as the page that was asked for |
| AssessmentGateway.LoadArtDetails | ProgrammingAssessment/Gateway/RijksmuseumGateway.swift:93-117 | success exactly when the details query was answered and decoded, with `decoded.artDetails`; errors wrapped as above |
| AssessmentGateway.LoadArtDetailsAgreesWithInteractor | ProgrammingAssessment/Gateway/RijksmuseumGateway.swift:93-117 | this gateway and this draft's details interactor succeed together, with the same details, and fail with the same kind of error |
| AssessmentGateway.ArtImageUrlString | ProgrammingAssessment/Gateway/RijksmuseumGateway.swift:130-135 | the image URL string keeps the URL but its last character, and what follows reads back as the scale's raw value |
| AssessmentGateway.MakeArtImageQuery | ProgrammingAssessment/Gateway/RijksmuseumGateway.swift:133-135 | the builder chain yields that string |
| AssessmentGateway.ThumbnailAgreesWithPage | ProgrammingAssessment/Gateway/RijksmuseumGateway.swift:130-135 | the thumbnail the gateway asks for is the page image's `thumbnailUrl` string, and both drafts' gateways ask for the same strings at both scales |
| AssessmentGateway.LoadArtImageData | ProgrammingAssessment/Gateway/RijksmuseumGateway.swift:130-146 | the service's answer to the rewritten URL is passed on unchanged |
| AssessmentGateway.LoadCollectionImageData | ProgrammingAssessment/Gateway/RijksmuseumGateway.swift:82-91 | thumbnail scale; bytes pass through, a service error is wrapped as `.serviceError` |
| AssessmentGateway.LoadArtDetailsImageData | ProgrammingAssessment/Gateway/RijksmuseumGateway.swift:119-128 | original scale; bytes pass through, a service error is wrapped as `.serviceError` |
| AssessmentCollectionItems.ImageOf | ProgrammingAssessment/Collection/CollectionInteractor.swift:65-70 | guid, width and height are copied and the URL is the parse of the wire string |
| AssessmentCollectionItems.CollectionItemOf | ProgrammingAssessment/Collection/CollectionInteractor.swift:61-77 | id is the object number, description the long title, title copied, both images mapped |
| AssessmentCollectionItems.CollectionItems | ProgrammingAssessment/Collection/CollectionInteractor.swift:59-79 | one item per object, same length and order |
| AssessmentCollectionItems.CollectionItemsAppend | ProgrammingAssessment/Collection/CollectionInteractor.swift:59-79 | mapping two batches in turn is mapping them together |
| AssessmentCollectionItems.ArtOfCollectionItem | ProgrammingAssessment/Collection/CollectionInteractor.swift:59-79 | when both image URLs parse as themselves the wire object can be rebuilt from its item: the map loses nothing |
| AssessmentCollectionItems.UnparsedImageUrl | ProgrammingAssessment/Collection/CollectionInteractor.swift:65-70 | an unparsable web-image URL leaves the item with an image but no URL |
| AssessmentCollectionInteractor.LoadCollection | ProgrammingAssessment/Collection/CollectionInteractor.swift:30-41 | asks the gateway for the given page and count; succeeds exactly when the gateway does, with title "Page N" and the mapped items; a gateway error `e` becomes `.loading(error: e)` |
| AssessmentCollectionInteractor.LoadCollectionItemImageData | ProgrammingAssessment/Collection/CollectionInteractor.swift:43-52 | bytes pass through; a gateway error `e` becomes `.loading(error: e)` |
| AssessmentCollectionInteractor.InteractorPageIsGatewayPage | ProgrammingAssessment/Collection/CollectionInteractor.swift:35 | the interactor builds the same page from decoded objects as this draft's gateway does |
| AssessmentArtDetailsInteractor.ArtDetailsOf | ProgrammingAssessment/ArtDetails/ArtDetailsInteractor.swift:60-69 | id, title, description and the web image's guid, width and height are copied; the URL is the parse of the wire string |
| AssessmentArtDetailsInteractor.ArtDetailsInfoOfArtDetails | ProgrammingAssessment/ArtDetails/ArtDetailsInteractor.swift:60-69 | when the image URL parses as itself the wire value can be rebuilt from the details |
| AssessmentArtDetailsInteractor.LoadArtDetails | ProgrammingAssessment/ArtDetails/ArtDetailsInteractor.swift:32-56 | queries `.collection(artId)`; success exactly when the service answered and the answer decoded, with `info.artDetails`; a decoding error becomes `.parsingError`, a service error `e` becomes `.serviceError(e)` |
| FeatureCollectionInteractor.ImageOf | Feature/Collection/CollectionInteractor.swift:77-87 | guid, width and height copied; there is a URL exactly when the wire URL is present and parses, and then it is the parse |
| FeatureCollectionInteractor.OptionalImageOf | Feature/Collection/CollectionInteractor.swift:70-71 | a missing wire image maps to no image, a present one to its mapped image |
| FeatureCollectionInteractor.CollectionItemOf | Feature/Collection/CollectionInteractor.swift:66-72 | id is the object number, description the long title, title copied, both optional images mapped |
| FeatureCollectionInteractor.ItemImageUrl | Feature/Collection/CollectionInteractor.swift:70 | the URL an item model loads exists exactly when the web image and its wire URL exist and the URL parses |
| FeatureCollectionInteractor.CollectionItemIgnoresOtherFields | Feature/Collection/CollectionInteractor.swift:66-72 | the item depends only on the object number, titles and images |
| FeatureCollectionInteractor.CollectionItems | Feature/Collection/CollectionInteractor.swift:64-74 | one item per object, same length and order |
| FeatureCollectionInteractor.CollectionItemsAppend | Feature/Collection/CollectionInteractor.swift:64-74 | mapping two batches in turn is mapping them together |
| FeatureCollectionInteractor.LoadCollection | Feature/Collection/CollectionInteractor.swift:30-44 | asks the gateway for the given page and count; succeeds exactly when the gateway does, with title "Page N" and the mapped items; a gateway error `e` becomes `.loading(error: e)` |
| FeatureCollectionInteractor.LoadCollectionItemImageData | Feature/Collection/CollectionInteractor.swift:46-57 | bytes pass through; a gateway error `e` becomes `.loading(error: e)` |
| FeatureCollectionInteractor.EndToEnd | Feature/Collection/CollectionInteractor.swift:30-44 | over the RijksMuseum gateway, a page arrives exactly when the service answered the collection query and the answer decoded, with one item per object; a service error arrives wrapped twice |
| FeatureArtDetailsInteractor.ArtImageOf | Feature/ArtDetails/ArtDetailsInteractor.swift:67-75 | guid, width and height copied; the URL is the parse of the wire string |
| FeatureArtDetailsInteractor.ArtDetailsOf | Feature/ArtDetails/ArtDetailsInteractor.swift:59-65 | id is the art object's `id` (not its number), title and description copied, the image present exactly when the wire image is |
| FeatureArtDetailsInteractor.ArtDetailsIgnoresOtherFields | Feature/ArtDetails/ArtDetailsInteractor.swift:59-65 | the details depend only on id, title, description and image |
| FeatureArtDetailsInteractor.LoadArtDetails | Feature/ArtDetails/ArtDetailsInteractor.swift:30-42 | asks the gateway for that id; succeeds exactly when it does, with the mapped details; an error `e` becomes `.loading(error: e)` |
| FeatureArtDetailsInteractor.LoadArtDetailsImageData | Feature/ArtDetails/ArtDetailsInteractor.swift:44-55 | bytes pass through; an error `e` becomes `.loading(error: e)` |
| FeatureArtDetailsInteractor.ImageEndToEnd | Feature/ArtDetails/ArtDetailsInteractor.swift:44-55 | over the RijksMuseum gateway the details image is the original-scale image; a service error arrives wrapped twice |
| CollectionViewModels.ConfigurationsDiffer | RijksMuseum/Collection/CollectionPresenter.swift:106-118 | all three configurations are titled "Collection"; only loading animates; only success has no first-screen text |
| RijksCollectionPresenter.CollectionPresenter.constructor | RijksMuseum/Collection/CollectionPresenter.swift:22-30 | a new presenter has `currentPage` 1, 30 results per page, no pages and nothing outstanding |
| RijksCollectionPresenter.CollectionPresenter.LoadCollection | RijksMuseum/Collection/CollectionPresenter.swift:32-34 | configures the loading model, then requests the current page with 30 results; pages and counter unchanged |
| RijksCollectionPresenter.CollectionPresenter.Reload | RijksMuseum/Collection/CollectionPresenter.swift:95-97 | exactly the effect of `loadCollection()` |
| RijksCollectionPresenter.CollectionPresenter.LoadNextPage | RijksMuseum/Collection/CollectionPresenter.swift:83-84 | requests the current page with 30 results, without configuring the view |
| RijksCollectionPresenter.CollectionPresenter.UpdateNext | RijksMuseum/Collection/CollectionPresenter.swift:99-103 | appends the page at the end, calls `updateCollection()` once and increments the counter by one |
| RijksCollectionPresenter.CollectionPresenter.PageLoadSucceeded | RijksMuseum/Collection/CollectionPresenter.swift:35-38 | the answered request is removed; exactly one page is appended and the counter grows by one; a first load shows the success model before the view update; the next-page success (86-87) only updates |
| RijksCollectionPresenter.CollectionPresenter.PageLoadFailed | RijksMuseum/Collection/CollectionPresenter.swift:84-92 | pages and counter unchanged; a failed next-page load shows the error and re-requests the current page, the same page it asked for; a failed first load (39-41) shows the fail model and the error and requests nothing |
| RijksCollectionPresenter.CollectionPresenter.NumberOfPages | RijksMuseum/Collection/CollectionPresenter.swift:46-48 | the number of pages held |
| RijksCollectionPresenter.CollectionPresenter.NumberOfItems | RijksMuseum/Collection/CollectionPresenter.swift:50-52 | the item count of that page, for an existing page |
| RijksCollectionPresenter.CollectionPresenter.PagesCountSuccessfulLoads | RijksMuseum/Collection/CollectionPresenter.swift:99-103 | the page count equals the number of `updateCollection()` calls so far, and the counter is one more |
| RijksCollectionPresenter.CollectionPresenter.HeaderModelOn | RijksMuseum/Collection/CollectionPresenter.swift:74-76 | the header carries the page's title |
| RijksCollectionPresenter.CollectionPresenter.ItemModel | RijksMuseum/Collection/CollectionPresenter.swift:54-63 | an item without `webImage?.url` gets empty data and its title at once, with no request; otherwise its image is requested and no model is delivered yet |
| RijksCollectionPresenter.CollectionPresenter.ImageLoadSucceeded | RijksMuseum/Collection/CollectionPresenter.swift:64-66 | the model is the loaded bytes and the item's title; the request is removed |
| RijksCollectionPresenter.CollectionPresenter.ImageLoadFailed | RijksMuseum/Collection/CollectionPresenter.swift:67-70 | the error is shown and the same image request is issued again |
| RijksCollectionPresenter.CollectionPresenter.ChooseItem | RijksMuseum/Collection/CollectionPresenter.swift:78-81 | routes once with the item's id when a router is attached, otherwise nothing |
| RijksCollectionPresenter.FirstRequest | RijksMuseum/Collection/CollectionPresenter.swift:22-34 | the first request is for page 1 with 30 results |
| RijksCollectionPresenter.FirstLoadSucceeds | RijksMuseum/Collection/CollectionPresenter.swift:34-38 | after a successful first load: one page, counter 2, nothing outstanding |
| RijksCollectionPresenter.FirstLoadFails | RijksMuseum/Collection/CollectionPresenter.swift:39-41 | after a failed first load: no page, counter 1, nothing re-requested |
| RijksCollectionPresenter.NextPageFailureRetries | RijksMuseum/Collection/CollectionPresenter.swift:88-91 | a failed next-page load leaves page 1 requested again; the interactor has been called twice |
| RijksCollectionPresenter.ImageFailureRetries | RijksMuseum/Collection/CollectionPresenter.swift:67-70 | a failed image load leaves the same image requested again; two image requests in all |
| RijksCollectionPresenter.ChooseRoutesWithItemId | RijksMuseum/Collection/CollectionPresenter.swift:78-81 | choosing the first item routes exactly once, with its id |
| FeatureCollectionPresenter.CollectionPresenter.constructor | Feature/Collection/CollectionPresenter.swift:22-30 | `currentPage` 1, 30 results per page, empty page list |
| FeatureCollectionPresenter.CollectionPresenter.LoadCollection | Feature/Collection/CollectionPresenter.swift:32-34 | configures the loading model, then requests the current page |
| FeatureCollectionPresenter.CollectionPresenter.LoadNextPage | Feature/Collection/CollectionPresenter.swift:87-88 | requests the current page without configuring the view |
| FeatureCollectionPresenter.CollectionPresenter.UpdateNext | Feature/Collection/CollectionPresenter.swift:99-103 | appends one page at the end, earlier pages unchanged, one view update, counter plus one |
| FeatureCollectionPresenter.CollectionPresenter.PageLoadSucceeded | Feature/Collection/CollectionPresenter.swift:35-38 | exactly one page appended and the counter plus one; a first load shows the success model first |
| FeatureCollectionPresenter.CollectionPresenter.PageLoadFailed | Feature/Collection/CollectionPresenter.swift:88-96 | no state change; a failed next page re-requests the current page; a failed first load (39-41) shows the fail model and the error only |
| FeatureCollectionPresenter.CollectionPresenter.NumberOfPages | Feature/Collection/CollectionPresenter.swift:46-48 | the number of pages held |
| FeatureCollectionPresenter.CollectionPresenter.NumberOfItems | Feature/Collection/CollectionPresenter.swift:50-52 | the item count of that page |
| FeatureCollectionPresenter.CollectionPresenter.PagesCountSuccessfulLoads | Feature/Collection/CollectionPresenter.swift:99-103 | pages equal view updates so far, counter one more |
| FeatureCollectionPresenter.CollectionPresenter.HeaderModelOn | Feature/Collection/CollectionPresenter.swift:76-78 | the header carries the page's title |
| FeatureCollectionPresenter.CollectionPresenter.ItemModel | Feature/Collection/CollectionPresenter.swift:54-65 | section and row select page and item; no URL gives a tile model with empty data and the title at once, and no request; otherwise the image is requested for that index path |
| FeatureCollectionPresenter.CollectionPresenter.ImageLoadSucceeded | Feature/Collection/CollectionPresenter.swift:67-68 | the tile model carries the bytes and the item's title |
| FeatureCollectionPresenter.CollectionPresenter.ImageLoadFailed | Feature/Collection/CollectionPresenter.swift:69-71 | the error is shown and the same index path's image is requested again |
| FeatureCollectionPresenter.CollectionPresenter.ChooseItem | Feature/Collection/CollectionPresenter.swift:80-85 | routes with `collectionPages[section].items[row].id` when a router is attached |
| FeatureCollectionPresenter.FirstRequest | Feature/Collection/CollectionPresenter.swift:22-34 | the first request is for page 1 with 30 results |
| FeatureCollectionPresenter.FirstLoadSucceeds | Feature/Collection/CollectionPresenter.swift:36-38 | one page, counter 2, nothing outstanding |
| FeatureCollectionPresenter.FirstLoadFails | Feature/Collection/CollectionPresenter.swift:39-41 | no page, counter 1, nothing re-requested |
| FeatureCollectionPresenter.NextPageFailureRetries | Feature/Collection/CollectionPresenter.swift:92-94 | page 1 requested again; two interactor calls |
| FeatureCollectionPresenter.ImageFailureRetries | Feature/Collection/CollectionPresenter.swift:69-71 | the same index path requested again; two image requests |
| FeatureCollectionPresenter.ChooseRoutesWithItemId | Feature/Collection/CollectionPresenter.swift:80-85 | routes exactly once with the item's id |
| AssessmentCollectionPresenter.CollectionPresenter.constructor | ProgrammingAssessment/Collection/CollectionPresenter.swift:22-30 | `currentPage` 1, 30 results per page, no pages |
| AssessmentCollectionPresenter.CollectionPresenter.LoadCollection | ProgrammingAssessment/Collection/CollectionPresenter.swift:33-37 | configures "Loading" with animation, then requests the current page |
| AssessmentCollectionPresenter.CollectionPresenter.LoadNextPage | ProgrammingAssessment/Collection/CollectionPresenter.swift:86-87 | requests the current page without configuring the view |
| AssessmentCollectionPresenter.CollectionPresenter.UpdateNext | ProgrammingAssessment/Collection/CollectionPresenter.swift:98-102 | appends the page, one view update, counter plus one |
| AssessmentCollectionPresenter.CollectionPresenter.PageLoadSucceeded | ProgrammingAssessment/Collection/CollectionPresenter.swift:39-41 | one page appended, counter plus one; a first load configures with no first-screen text first |
| AssessmentCollectionPresenter.CollectionPresenter.PageLoadFailed | ProgrammingAssessment/Collection/CollectionPresenter.swift:86-96 | no state change; a failed next page shows the error and re-requests the current page; a failed first load (42-44) configures "Fail to load pull to refresh" and shows the error |
| AssessmentCollectionPresenter.CollectionPresenter.NumberOfPages | ProgrammingAssessment/Collection/CollectionPresenter.swift:49-51 | the number of pages held |
| AssessmentCollectionPresenter.CollectionPresenter.NumberOfItems | ProgrammingAssessment/Collection/CollectionPresenter.swift:53-55 | the item count of that page |
| AssessmentCollectionPresenter.CollectionPresenter.PagesCountSuccessfulLoads | ProgrammingAssessment/Collection/CollectionPresenter.swift:98-102 | pages equal view updates so far, counter one more |
| AssessmentCollectionPresenter.CollectionPresenter.HeaderModelOn | ProgrammingAssessment/Collection/CollectionPresenter.swift:77-79 | the header carries the page's (optional) title |
| AssessmentCollectionPresenter.CollectionPresenter.ItemModel | ProgrammingAssessment/Collection/CollectionPresenter.swift:57-66 | no `webImage.url` gives empty data and the title at once, no request; otherwise the image is requested at thumbnail scale |
| AssessmentCollectionPresenter.CollectionPresenter.ImageLoadSucceeded | ProgrammingAssessment/Collection/CollectionPresenter.swift:68-69 | the model carries the bytes and the item's title |
| AssessmentCollectionPresenter.CollectionPresenter.ImageLoadFailed | ProgrammingAssessment/Collection/CollectionPresenter.swift:70-73 | the error is shown and the same position's image is requested again, at thumbnail scale |
| AssessmentCollectionPresenter.CollectionPresenter.ChooseItem | ProgrammingAssessment/Collection/CollectionPresenter.swift:81-84 | routes with `ardId` the item's id when a router is attached |
| AssessmentCollectionPresenter.FirstRequest | ProgrammingAssessment/Collection/CollectionPresenter.swift:22-37 | the first request is for page 1 with 30 results |
| AssessmentCollectionPresenter.FirstLoadSucceeds | ProgrammingAssessment/Collection/CollectionPresenter.swift:39-41 | one page, counter 2, nothing outstanding |
| AssessmentCollectionPresenter.FirstLoadFails | ProgrammingAssessment/Collection/CollectionPresenter.swift:42-44 | no page, counter 1, nothing re-requested |
| AssessmentCollectionPresenter.NextPageFailureRetries | ProgrammingAssessment/Collection/CollectionPresenter.swift:91-93 | page 1 requested again; two interactor calls |
| AssessmentCollectionPresenter.ImageFailureRetries | ProgrammingAssessment/Collection/CollectionPresenter.swift:70-73 | the same image requested again; two image requests |
| AssessmentCollectionPresenter.ChooseRoutesWithItemId | ProgrammingAssessment/Collection/CollectionPresenter.swift:81-84 | routes exactly once with the item's id |
| PrototypeCollectionPresenter.FlattenSnoc | ProgrammingAssessment/CollectionPresenter.swift:56 | appending a batch puts its items after all earlier ones, in order |
| PrototypeCollectionPresenter.CollectionPresenter.constructor | ProgrammingAssessment/CollectionPresenter.swift:21-29 | `currentPage` 0, 10 results per page, no items |
| PrototypeCollectionPresenter.CollectionPresenter.LoadCollection | ProgrammingAssessment/CollectionPresenter.swift:31-34 | configures the view once with title "Collection", then issues exactly one request, for the current page |
| PrototypeCollectionPresenter.CollectionPresenter.LoadNextPage | ProgrammingAssessment/CollectionPresenter.swift:52-53 | requests the current page with 10 results |
| PrototypeCollectionPresenter.CollectionPresenter.PageLoadSucceeded | ProgrammingAssessment/CollectionPresenter.swift:55-57 | every returned item is appended in order after the earlier ones, and the counter grows by one |
| PrototypeCollectionPresenter.CollectionPresenter.PageLoadFailed | ProgrammingAssessment/CollectionPresenter.swift:58-59 | items and counter unchanged, the error printed, nothing re-requested |
| PrototypeCollectionPresenter.CollectionPresenter.NumberOfPages | ProgrammingAssessment/CollectionPresenter.swift:36-38 | always 0 |
| PrototypeCollectionPresenter.CollectionPresenter.NumberOfItems | ProgrammingAssessment/CollectionPresenter.swift:40-42 | always 0 |
| PrototypeCollectionPresenter.CollectionPresenter.ItemModel | ProgrammingAssessment/CollectionPresenter.swift:44-46 | the completion is never called |
| PrototypeCollectionPresenter.CollectionPresenter.HeaderModelOn | ProgrammingAssessment/CollectionPresenter.swift:48-50 | the completion is never called |
| PrototypeCollectionPresenter.FirstRequest | ProgrammingAssessment/CollectionPresenter.swift:21-34 | the first request is for page 0 with 10 results; one configuration and one request |
| PrototypeCollectionPresenter.TwoLoads | ProgrammingAssessment/CollectionPresenter.swift:55-57 | two successful loads list the first batch then the second, counter 2 |
| PrototypeCollectionPresenter.FailedLoadIsNotRetried | ProgrammingAssessment/CollectionPresenter.swift:58-59 | after a failed load: no items, counter 0, nothing outstanding |
| AssessmentCollectionViewController.LastIndexPath | ProgrammingAssessment/Collection/View/CollectionViewController.swift:78-82 | both components are non-negative; with at least one section and item they name the last section and its last item, otherwise they are clamped to 0 |
| AssessmentCollectionViewController.OnlyLastFooterIsActive | ProgrammingAssessment/Collection/View/CollectionViewController.swift:245-248 | of the sections on screen exactly the last one has its footer animating and sized (the same test at line 219) |
| AssessmentCollectionViewController.FooterIsActive | ProgrammingAssessment/Collection/View/CollectionViewController.swift:219 | the footer test `lastIndexPath.section == section`; OnlyLastFooterIsActive proves it holds of the last section on screen and no other |
| AssessmentCollectionViewController.CollectionViewController.constructor | ProgrammingAssessment/Collection/View/CollectionViewController.swift:12-16 | empty cache, nothing awaited, flag clear |
| AssessmentCollectionViewController.CollectionViewController.NumberOfSections | ProgrammingAssessment/Collection/View/CollectionViewController.swift:155-157 | 1 without a presenter, otherwise its page count |
| AssessmentCollectionViewController.CollectionViewController.NumberOfItems | ProgrammingAssessment/Collection/View/CollectionViewController.swift:151-153 | 0 without a presenter, otherwise the page's item count |
| AssessmentCollectionViewController.CollectionViewController.HeaderModel | ProgrammingAssessment/Collection/View/CollectionViewController.swift:205-207 | no header model without a presenter, otherwise the page's title |
| AssessmentCollectionViewController.CollectionViewController.ItemModelDelivered | ProgrammingAssessment/Collection/View/CollectionViewController.swift:172-174 | the model is cached under its index path and the position is no longer awaited; cache and awaited set stay disjoint |
| AssessmentCollectionViewController.CollectionViewController.CellForItemAt | ProgrammingAssessment/Collection/View/CollectionViewController.swift:165-181 | a cached position configures from the cache and changes nothing, presenter included; an awaited one changes nothing either; otherwise the position is marked awaited and `itemModel` runs: an item without a URL is cached at once with empty data and its title and the presenter records no call, an item with a URL stays awaited and the presenter records one thumbnail image request for it; pages, counter, page requests and the router stay as they were |
| AssessmentCollectionViewController.CollectionViewController.PresenterImageLoadSucceeded | ProgrammingAssessment/Collection/View/CollectionViewController.swift:170-174 | the image's model (bytes and title) is cached under the position it was requested for, which is no longer awaited; the request is removed and the presenter records no call; pages, counter, page requests and the router stay as they were |
| AssessmentCollectionViewController.CollectionViewController.PresenterImageLoadFailed | ProgrammingAssessment/Collection/View/CollectionViewController.swift:170 | the presenter records the error shown and the same thumbnail request again, and re-issues that request; the position stays awaited; pages, counter, page requests and the router stay as they were |
| AssessmentCollectionViewController.CollectionViewController.UpdateCollection | ProgrammingAssessment/Collection/View/CollectionViewController.swift:132-135 | clears `loadingNextPage`; cache and awaited set unchanged |
| AssessmentCollectionViewController.CollectionViewController.PresenterPageLoadSucceeded | ProgrammingAssessment/Collection/View/CollectionViewController.swift:132-135 | the presenter appends the page, advances the counter and records the success configuration (first load only) and one view update; the view's `updateCollection()` clears the flag; image requests, cache, awaited set and router unchanged |
| AssessmentCollectionViewController.CollectionViewController.PresenterPageLoadFailed | ProgrammingAssessment/Collection/View/CollectionViewController.swift:228-236 | no view update arrives, so the flag is left as it was; a failed first load records the failure configuration and the error, a failed next page records the error and a new request for the current page, which is re-issued; pages, counter, image requests and router unchanged |
| AssessmentCollectionViewController.CollectionViewController.WillDisplay | ProgrammingAssessment/Collection/View/CollectionViewController.swift:228-237 | only the last index path with the flag clear sets the flag, and the presenter records and issues one request for the current page with 30 results, with pages, counter, image requests and router unchanged; anything else changes nothing, presenter included |
| AssessmentCollectionViewController.CollectionViewController.DidSelectItemAt | ProgrammingAssessment/Collection/View/CollectionViewController.swift:239-241 | row and section become item index and page of `chooseItem`: the presenter records one route with that item's id when a router is attached, and nothing otherwise; its state, router included, stays as it was |
| AssessmentCollectionViewController.CollectionViewController.LoadCollection | ProgrammingAssessment/Collection/View/CollectionViewController.swift:84-88 | `viewDidLoad()` and the tap retry (143-146) run the presenter's `loadCollection()`: the loading configuration and one first-load request for the current page are recorded; pages, counter, image requests and router unchanged |
| AssessmentCollectionViewController.SecondDisplayDoesNotRequestAgain | ProgrammingAssessment/Collection/View/CollectionViewController.swift:167-170 | showing the same uncached cell twice leaves one image request and one awaited position |
| AssessmentCollectionViewController.CachedAfterLoad | ProgrammingAssessment/Collection/View/CollectionViewController.swift:165-174 | after the image arrives the cell is served from the cache with the loaded bytes and the title, with nothing outstanding |
| AssessmentCollectionViewController.NextPageRequestedOncePerPage | ProgrammingAssessment/Collection/View/CollectionViewController.swift:228-236 | with the first page shown, two displays of its last cell ask for one next page (page 2); after that page arrives the last cell of the new last section asks for page 3 |
| AssessmentCollectionViewController.TapAfterLoadRoutes | ProgrammingAssessment/Collection/View/CollectionViewController.swift:239-241 | after loading the first page and showing its first cell, a tap on that cell routes exactly once, with the item's id |

## Left out

- UIKit views, layout, cell and header configuration, skeleton animation, alerts: presentation with nothing to state. The footer rule is kept as which section is active, not as a `CGSize`.
- `UICollectionView.insertSections` in `updateCollection()`. The model clears the flag only; the section count the collection view reports is a parameter of `WillDisplay`.
- `lastIndexPath` reads `numberOfItems(inSection: -1)` when there are no sections. `AssessmentCollectionViewController.LastIndexPath` takes the item count as a parameter, so that UIKit call is not modelled.
- Concurrency is not modelled; the model has single-threaded event delivery. This covers:
  - the `DispatchQueue.main.async` hops;
  - the `DispatchQueue.global()` hop;
  - the `DispatchGroup` enter/leave/wait barrier before `loadNextPage()`;
  - `[weak self]` captures. A presenter that has been deallocated is not modelled.
- The retries repeat without end. Each failure event is modelled as one re-issued request, and nothing is claimed about termination.
- `URLSession`, `JSONDecoder` and `URL(string:)` are foreign code. They are the `fetch`, `decode` and `parse` parameters. Which strings parse, and what decodes, are left open.
- The gateways see the service as `fetch`, a function of the query's URL string. `fetch(UrlString(q))` stands for `getData(query:)` of `RijksMuseum/Service/Service.swift`, which `Service.GetData` models: `.invalidQuery` when `URL(string:)` rejects the string, otherwise the session's answer. The session's data task is the foreign `send`.
- `ProgrammingAssessment/Service/Service.swift` and `ProgrammingAssessment/Service/CollectionLoadingService.swift` are not part of this model. The first builds its query string by iterating a dictionary, whose order Swift leaves unspecified.
- Routers, view factories, `VIPERFactory`, `AppDelegate`: object wiring. A router's presence is a `hasRouter` flag, and routing is a trace entry.
- Some declaring files are not part of this model; their shapes are inferred from the code that builds and reads them:
  - the RijksMuseum/Feature `CollectionPage` (`RijksPage`);
  - the PA `CollectionInfo` and `ArtDetailsInfo` (`AssessmentWire`);
  - the prototype's view model.
- The drafts do not agree with one another, and each draft's file is modelled against the types it uses:
  - The PA gateway completes with a `CollectionPage`, while the PA interactor reads `info.collectionItems` from what the gateway gives it. `AssessmentCollectionInteractor` therefore takes a gateway that yields decoded `CollectionInfo`.
  - The PA presenter calls `loadCollectionItemImageData(from:scale:)`, a signature the PA interactor does not declare. The scale is recorded in the trace only.
  - The PA `ArtDetailsLoadingError` is declared in both the PA gateway and the PA details interactor. It is modelled once in each module.
- The RijksMuseum interactor file is not part of this model. `RijksCollectionPresenter` uses the result types of the Feature interactor, whose page shape that draft uses.
- `print(error)` in the prototype is recorded as a `ConsoleError` trace entry.
- Swift `Int` is 64 bits; the model's integers are unbounded. Page numbers never approach the limit, so `currentPage += 1` is modelled without overflow.
- `ServiceQuery.ParseUrlStringOf` and `RijksGateway.ArtDetailsRequestReadsBack` hold only for request ids without '/' or '?'. `ServiceQuery.DescriptionAmbiguous` shows that other ids do not identify their request.
- `RijksGateway.ArtImageUrlString` and the image loads require a non-empty URL string, because `removeLast()` traps on an empty one.
- Out-of-range subscripts trap in Swift: `collectionPages[page].items[index]` in every presenter's `numberOfItems`, `itemModel`, `headerModel` and `chooseItem`, and so in the view controller's `NumberOfItems`, `HeaderModel`, `CellForItemAt` and `DidSelectItemAt`. The model has no trap; those members require an existing page and item instead, and say nothing about other positions.
- `Text.DropLast` removes one `char`, while Swift's `String.removeLast()` removes one `Character`, a whole grapheme cluster. The two agree on the ASCII URL strings the API returns; the lengths in `AssessmentPage.ThumbnailString` count scalars, not Swift characters.
- `FeatureArtDetailsInteractor.ImageEndToEnd` composes with a gateway that answers an empty URL with an `InvalidQuery` error. This stands in for the trap; it is not the source's behaviour.
- Art-details presenters and view controllers are not modelled, because they are not part of this core.
