/**
 * The collection screen's view model, and the three configurations the
 * RijksMuseum and Feature drafts define as static members
 * (RijksMuseum/Collection/CollectionPresenter.swift,
 * Feature/Collection/CollectionPresenter.swift).
 */
module CollectionViewModels {
  import opened Wrappers

  datatype CollectionViewModel = CollectionViewModel(title: string, animatingLoad: bool, firstScreenText: Option<string>)

  const Title := "Collection"

  /** `.loadingModel`: a skeleton animates behind "Loading". */
  const LoadingModel := CollectionViewModel(Title, true, Some("Loading"))

  /** `.loadSuccessModel`: no first-screen text, so the background is hidden. */
  const LoadSuccessModel := CollectionViewModel(Title, false, None)

  /** `.loadFailModel`: the background shows the retry hint. */
  const LoadFailModel := CollectionViewModel(Title, false, Some("Fail to load. Tap to retry"))

  /** Only the loading configuration animates, and only the success configuration hides the background. */
  lemma ConfigurationsDiffer()
    ensures LoadingModel.animatingLoad && !LoadSuccessModel.animatingLoad && !LoadFailModel.animatingLoad
    ensures LoadSuccessModel.firstScreenText.None? && LoadingModel.firstScreenText.Some? && LoadFailModel.firstScreenText.Some?
    ensures LoadingModel.title == LoadSuccessModel.title == LoadFailModel.title == "Collection"
  {
  }
}
