/** The blog's posts and the lookup by slug. */
module Blog {
  import opened Wrappers

  /** A post; its HTML body is not part of the model. */
  datatype Post = Post(slug: string, title: string, date: string, excerpt: string)

  /** `BLOG_POSTS`, in order. */
  function Posts(): seq<Post>
  {
    [ Post("get-youtube-transcript-fast", "How to Get a YouTube Transcript Instantly", "2025-01-01",
           "Paste a YouTube link, enable timestamps, and download a clean transcript in seconds."),
      Post("timestamps-make-transcripts-better", "Why Timestamps Make Transcripts More Useful", "2025-01-02",
           "Timestamps help you jump to the exact moment and keep quotes verifiable.") ]
  }

  /** `posts.find((p) => p.slug === slug) || null`. */
  function Find(posts: seq<Post>, slug: string): (r: Option<Post>)
    ensures r.Some? ==> r.value.slug == slug
    ensures r.Some? ==> exists i :: 0 <= i < |posts| && posts[i] == r.value && forall j :: 0 <= j < i ==> posts[j].slug != slug
    ensures r.None? <==> forall i :: 0 <= i < |posts| ==> posts[i].slug != slug
    decreases |posts|
  {
    if posts == [] then None
    else if posts[0].slug == slug then Some(posts[0])
    else
      var r := Find(posts[1..], slug);
      assert r.Some? ==> exists i :: 0 <= i < |posts| && posts[i] == r.value && forall j :: 0 <= j < i ==> posts[j].slug != slug by {
        if r.Some? {
          var i :| 0 <= i < |posts[1..]| && posts[1..][i] == r.value && forall j :: 0 <= j < i ==> posts[1..][j].slug != slug;
          assert posts[i + 1] == r.value && forall j :: 0 <= j < i + 1 ==> posts[j].slug != slug;
        }
      }
      r
  }

  /** `getPostBySlug`. */
  function PostBySlug(slug: string): Option<Post>
  {
    Find(Posts(), slug)
  }

  /** There are two posts and their slugs differ. */
  lemma SlugsDistinct()
    ensures |Posts()| == 2 && Posts()[0].slug != Posts()[1].slug
  {
    assert Posts()[0].slug[0] != Posts()[1].slug[0];
  }

  /** With distinct slugs, every post is found by its own slug. */
  lemma EveryPostFound(i: nat)
    requires i < |Posts()|
    ensures PostBySlug(Posts()[i].slug) == Some(Posts()[i])
  {
    SlugsDistinct();
  }
}
