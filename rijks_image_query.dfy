/**
 * The image query of the RijksMuseum draft
 * (RijksMuseum/Service/RijksmuseumImageQuery.swift): a fixed URL string with
 * an optional decimal scale appended.
 */
module RijksImageQuery {
  import opened Wrappers
  import opened Foundation
  import opened Text

  /** The string `getUrl()` parses: the URL, then the scale's digits if a scale is set. */
  function ImageUrlString(url: string, scale: Option<int>): (s: string)
    ensures url <= s
    ensures scale.None? <==> s == url
  {
    match scale
    case None => url
    case Some(s) => url + IntToString(s)
  }

  /** The URL string keeps the query's URL as its prefix and the scale can be read back after it. */
  lemma ScaleReadBack(url: string, scale: int)
    ensures url <= ImageUrlString(url, Some(scale))
    ensures ParseInt(ImageUrlString(url, Some(scale))[|url|..]) == Some(scale)
  {
    assert ImageUrlString(url, Some(scale))[|url|..] == IntToString(scale);
    ParseIntToString(scale);
  }

  class RijksmuseumImageQuery {
    var scale: Option<int>
    const url: string

    constructor (url: string)
      ensures this.url == url && scale == None
    {
      this.url := url;
      this.scale := None;
    }

    method WithScale(scale: int) returns (q: RijksmuseumImageQuery)
      modifies this
      ensures q == this && this.scale == Some(scale)
    {
      this.scale := Some(scale);
      q := this;
    }

    function UrlString(): string
      reads this
    {
      ImageUrlString(url, scale)
    }

    function GetUrl(parse: UrlParser): Option<Url>
      reads this
    {
      parse(UrlString())
    }
  }

  /** Two `withScale` calls in a chain: the URL is kept and the second scale is the one used. */
  method LastScaleWins(url: string, first: int, second: int) returns (s: string)
    ensures s == url + IntToString(second)
  {
    var q := new RijksmuseumImageQuery(url);
    var q1 := q.WithScale(first);
    var q2 := q1.WithScale(second);
    s := q2.UrlString();
  }
}
