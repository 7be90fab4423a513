/** The storefront's product record and the resolution of product image
    addresses against the API base (frontend/src/utils/products.js). */
module Products {
  import opened Wrappers
  import opened Text

  /** A product as the storefront receives it. Prices are integer cents.
      `tags` is `None` when the record carries no tags. */
  datatype Product = Product(
    id: int,
    name: string,
    category: string,
    priceCents: int,
    imageUrl: string,
    tags: Option<string>)

  /** `resolveImageUrl(imageUrl)` with `API_BASE` given as `apiBase`: empty
      for an empty value, an absolute `http…` value unchanged, and any other
      value appended to the API base behind exactly the slash it needs. */
  function ResolveImageUrl(apiBase: string, imageUrl: string): (r: string)
    ensures imageUrl == "" ==> r == ""
    ensures StartsWith(imageUrl, "http") ==> r == imageUrl
    ensures imageUrl != "" && !StartsWith(imageUrl, "http") ==>
      StartsWith(r, apiBase) && |r| > |apiBase| && r[|apiBase|] == '/' && EndsWith(r, imageUrl)
      && |r| <= |apiBase| + |imageUrl| + 1
  {
    if imageUrl == "" then ""
    else if StartsWith(imageUrl, "http") then imageUrl
    else apiBase + LeadingSlash(imageUrl)
  }

  /** Behind the API base stands the value itself when it already begins with
      a slash, and the value behind one added slash otherwise. */
  lemma RelativeImageUrl(apiBase: string, imageUrl: string)
    requires imageUrl != "" && !StartsWith(imageUrl, "http")
    ensures StartsWith(imageUrl, "/") ==> ResolveImageUrl(apiBase, imageUrl)[|apiBase|..] == imageUrl
    ensures !StartsWith(imageUrl, "/") ==> ResolveImageUrl(apiBase, imageUrl)[|apiBase|..] == "/" + imageUrl
  {
  }
}
