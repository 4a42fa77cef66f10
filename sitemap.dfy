/** The sitemap: the static pages followed by one entry per blog post. */
module Sitemap {
  import Blog

  datatype Frequency = Daily | Weekly | Monthly

  /** One entry; `lastModified` is the generation time, an input. */
  datatype Entry = Entry(url: string, lastModified: int, changeFrequency: Frequency, priority: real)

  /** The static routes, in order. */
  const Routes: seq<string> := ["", "/features", "/blog", "/contact", "/privacy-policy", "/terms-of-service"]

  function StaticEntry(base: string, route: string, now: int): Entry
  {
    Entry(base + route, now, if route == "" then Daily else Weekly, if route == "" then 1.0 else 0.8)
  }

  function PostEntry(base: string, slug: string, now: int): Entry
  {
    Entry(base + "/blog/" + slug, now, Monthly, 0.6)
  }

  /** `sitemap()` for a list of posts. */
  function SitemapFor(base: string, posts: seq<Blog.Post>, now: int): (r: seq<Entry>)
    ensures |r| == |Routes| + |posts|
  {
    seq(|Routes|, i requires 0 <= i < |Routes| => StaticEntry(base, Routes[i], now))
    + seq(|posts|, i requires 0 <= i < |posts| => PostEntry(base, posts[i].slug, now))
  }

  /** `sitemap()`. */
  function Sitemap(base: string, now: int): seq<Entry>
  {
    SitemapFor(base, Blog.Posts(), now)
  }

  /**
   * Static pages come first in their listed order (the home page daily at
   * priority 1, the rest weekly at 0.8), then one monthly entry at 0.6 per
   * post, in post order.
   */
  lemma SitemapLayout(base: string, posts: seq<Blog.Post>, now: int)
    ensures var r := SitemapFor(base, posts, now);
      |r| == 6 + |posts|
      && r[0] == Entry(base, now, Daily, 1.0)
      && (forall i :: 1 <= i < 6 ==> r[i].url == base + Routes[i] && r[i].changeFrequency == Weekly && r[i].priority == 0.8)
      && (forall k :: 0 <= k < |posts| ==> r[6 + k] == Entry(base + "/blog/" + posts[k].slug, now, Monthly, 0.6))
  {
    var r := SitemapFor(base, posts, now);
    assert r[0] == StaticEntry(base, "", now);
    assert base + "" == base;
    forall i | 1 <= i < 6
      ensures r[i].url == base + Routes[i] && r[i].changeFrequency == Weekly && r[i].priority == 0.8
    {
      assert Routes[i] != "";
    }
  }

  /** The site's sitemap has eight entries, one per static page and blog post. */
  lemma SitemapSize(base: string, now: int)
    ensures |Sitemap(base, now)| == 8
  {
    Blog.SlugsDistinct();
  }
}
