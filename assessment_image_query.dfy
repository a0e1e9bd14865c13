/**
 * The image query of the ProgrammingAssessment draft
 * (ProgrammingAssessment/Service/RijksmuseumImageQuery.swift): the scale is
 * an `Int` that starts at 0 and is always appended.
 */
module AssessmentImageQuery {
  import opened Wrappers
  import opened Foundation
  import opened Text

  /** The string `getUrl()` parses: the URL followed by the scale's digits. */
  function ImageUrlString(url: string, scale: int): (s: string)
    ensures url <= s && |url| < |s|
  {
    url + IntToString(scale)
  }

  /** The URL string keeps the query's URL as its prefix and the scale can be read back after it. */
  lemma ScaleReadBack(url: string, scale: int)
    ensures url <= ImageUrlString(url, scale)
    ensures ParseInt(ImageUrlString(url, scale)[|url|..]) == Some(scale)
  {
    assert ImageUrlString(url, scale)[|url|..] == IntToString(scale);
    ParseIntToString(scale);
  }

  class RijksmuseumImageQuery {
    var scale: int
    const url: string

    constructor (url: string)
      ensures this.url == url && scale == 0
    {
      this.url := url;
      this.scale := 0;
    }

    method WithScale(scale: int) returns (q: RijksmuseumImageQuery)
      modifies this
      ensures q == this && this.scale == scale
    {
      this.scale := scale;
      q := this;
    }

    function UrlString(): string
      reads this
    {
      ImageUrlString(url, scale)
    }

    function GetUrl(parse: UrlParser): Option<Url>
      reads this
    {
      parse(UrlString())
    }
  }

  /** A query nobody scaled still appends the default scale: the URL followed by "0". */
  method UnscaledQuery(url: string) returns (s: string)
    ensures s == url + "0"
  {
    var q := new RijksmuseumImageQuery(url);
    s := q.UrlString();
  }

  /** Two `withScale` calls in a chain: the URL is kept and the second scale is the one used. */
  method LastScaleWins(url: string, first: int, second: int) returns (s: string)
    ensures s == url + IntToString(second)
  {
    var q := new RijksmuseumImageQuery(url);
    var q1 := q.WithScale(first);
    var q2 := q1.WithScale(second);
    s := q2.UrlString();
  }
}
