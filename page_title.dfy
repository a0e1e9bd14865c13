/**
 * The title a loaded page gets, `"Page \(page)"`, built in three places
 * (Feature/Collection/CollectionInteractor.swift,
 * ProgrammingAssessment/Collection/CollectionInteractor.swift,
 * ProgrammingAssessment/Gateway/RijksmuseumGateway.swift).
 */
module Titles {
  import opened Wrappers
  import opened Text

  /** `"Page \(page)"`: the prefix "Page ", then a decimal that reads back as the page. */
  function PageTitle(page: int): (t: string)
    ensures "Page " <= t && ParseInt(t[|"Page "|..]) == Some(page)
  {
    var digits := IntToString(page);
    ParseIntToString(page);
    assert ("Page " + digits)[|"Page "|..] == digits;
    "Page " + digits
  }

  /** Reads the page number back from a title; `None` for any other string. */
  function PageOfTitle(title: string): Option<int> {
    var digits :- StripPrefix(title, "Page ");
    ParseInt(digits)
  }

  /** The title names its page: the number can be read back, so distinct pages get distinct titles. */
  lemma PageOfTitleOf(page: int)
    ensures PageOfTitle(PageTitle(page)) == Some(page)
  {
    StripPrefixOf("Page ", IntToString(page));
    ParseIntToString(page);
  }

  lemma PageTitleInjective(p: int, q: int)
    requires PageTitle(p) == PageTitle(q)
    ensures p == q
  {
    PageOfTitleOf(p);
    PageOfTitleOf(q);
  }
}
