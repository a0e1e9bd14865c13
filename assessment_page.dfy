/**
 * The collection page of the ProgrammingAssessment draft
 * (ProgrammingAssessment/Collection/CollectionPage.swift): immutable value
 * types, and the thumbnail URL derived from an image URL.
 */
module AssessmentPage {
  import opened Wrappers
  import opened Foundation
  import opened Text

  /** The rewrite `thumbnailUrl` applies: drop the last character, append "400". */
  function ThumbnailString(s: string): (r: string)
    requires 0 < |s|
    ensures |r| == |s| + 2
    ensures r[..|s| - 1] == s[..|s| - 1] && r[|s| - 1..] == "400"
  {
    DropLast(s) + "400"
  }

  /** The API's image URLs end in a one-digit size ("=s0"); the rewrite turns it into "=s400". */
  lemma ThumbnailOfSizeSuffix(prefix: string, size: char)
    ensures ThumbnailString(prefix + [size]) == prefix + "400"
  {
    assert DropLast(prefix + [size]) == prefix;
  }

  datatype Image = Image(guid: string, width: int, height: int, url: Option<Url>) {
    /** `thumbnailUrl`. `removeLast()` traps on an empty string, hence the requirement. */
    function ThumbnailUrl(parse: UrlParser): (r: Option<Url>)
      requires url.Some? ==> 0 < |url.value.absoluteString|
      ensures url.None? ==> r.None?
      ensures url.Some? ==> r == parse(ThumbnailString(url.value.absoluteString))
    {
      match url
      case None => None
      case Some(u) => parse(ThumbnailString(u.absoluteString))
    }
  }

  datatype CollectionItem = CollectionItem(
    id: string,
    title: string,
    description: string,
    webImage: Image,
    headerImage: Image)

  datatype CollectionPage = CollectionPage(title: Option<string>, items: seq<CollectionItem>)
}
