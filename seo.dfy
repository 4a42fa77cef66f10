/** Canonical URLs and page titles. */
module Seo {
  const DefaultSiteUrl := "https://gettranscript.com"
  const SiteName := "GetTranscript"

  /** `siteUrl`: the configured site URL, or the default when unset. */
  function SiteUrl(configured: string): (r: string)
    ensures r != ""
  {
    if configured != "" then configured else DefaultSiteUrl
  }

  /** `generateCanonicalUrl`. */
  function CanonicalUrl(siteUrl: string, path: string): (r: string)
    ensures |r| > |siteUrl| && r[..|siteUrl|] == siteUrl && r[|siteUrl|] == '/'
  {
    siteUrl + (if "/" <= path then path else "/" + path)
  }

  /** `generatePageTitle`. */
  function PageTitle(title: string): string
  {
    title + " | " + SiteName
  }

  /** A rooted path is appended as it is; any other path is rooted first. */
  lemma CanonicalRootsPath(siteUrl: string, path: string)
    ensures "/" <= path ==> CanonicalUrl(siteUrl, path) == siteUrl + path
    ensures !("/" <= path) ==> CanonicalUrl(siteUrl, path) == CanonicalUrl(siteUrl, "/" + path)
  {
  }

  /** The site URL can be read back from any canonical URL, and so can the rooted path. */
  lemma CanonicalSplits(siteUrl: string, path: string)
    ensures var r := CanonicalUrl(siteUrl, path);
      r[|siteUrl|..] == (if "/" <= path then path else "/" + path)
  {
  }

  /** The title is the page's own title followed by " | GetTranscript". */
  lemma PageTitleSuffix(title: string)
    ensures PageTitle(title)[..|title|] == title
    ensures PageTitle(title)[|title|..] == " | GetTranscript"
  {
  }
}
