/** The display helpers of src/utils/helpers.js. */
module Helpers {
  import opened Js

  /** formatRating: a falsy rating shows as "N/A", any other as "<rating>/10". */
  function FormatRating(rating: JsValue): (r: string)
    ensures r == "N/A" <==> !Truthy(rating)
    ensures Truthy(rating) ==> |r| >= 3 && r[|r| - 3..] == "/10" && r[..|r| - 3] == JsString(rating)
  {
    if Truthy(rating) then
      var r := JsString(rating) + "/10";
      assert r[|r| - 1] == '0' != "N/A"[2];
      r
    else "N/A"
  }

  const DefaultMaxLength := 100
  const Ellipsis := "..."

  /** truncateSynopsis: a synopsis longer than maxLength is cut to its first
      maxLength characters and marked with "..."; a shorter one is kept.
      A negative maxLength makes `substring` take nothing. */
  function TruncateSynopsis(synopsis: string, maxLength: int): (r: string)
    ensures |synopsis| <= maxLength ==> r == synopsis
    ensures |synopsis| > maxLength ==>
              var keep := if maxLength < 0 then 0 else maxLength;
              |r| == keep + 3 && r == synopsis[..keep] + Ellipsis
    ensures var keep := if maxLength < 0 then 0 else if maxLength < |synopsis| then maxLength else |synopsis|;
            synopsis[..keep] <= r
  {
    if |synopsis| > maxLength then Substring(synopsis, 0, maxLength) + Ellipsis else synopsis
  }

  /** truncateSynopsis called without maxLength. */
  function TruncateSynopsisDefault(synopsis: string): (r: string)
    ensures |synopsis| <= 100 ==> r == synopsis
    ensures |synopsis| > 100 ==> |r| == 103 && r[..100] == synopsis[..100]
  {
    TruncateSynopsis(synopsis, DefaultMaxLength)
  }

  /** Truncating again with the same maxLength changes nothing. */
  lemma TruncateSynopsisIdempotent(synopsis: string, maxLength: int)
    ensures TruncateSynopsis(TruncateSynopsis(synopsis, maxLength), maxLength)
         == TruncateSynopsis(synopsis, maxLength)
  {
    var r := TruncateSynopsis(synopsis, maxLength);
    if |synopsis| > maxLength {
      var keep := if maxLength < 0 then 0 else maxLength;
      assert r[..keep] == synopsis[..keep];
    }
  }
}
