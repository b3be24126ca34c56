/**
 The canonical address of a blog post: the address given in the post's front
 matter when there is one, otherwise the post's path on the public site; and
 the canonical link tag, which is emitted only for an address given in the
 front matter.
 */
module Canonical {
  import opened Wrappers

  /** The public site that post paths are relative to. */
  const SiteOrigin: string := "https://www.gitpod.io"

  /** The two fields of a post the canonical address depends on. */
  datatype Post = Post(url: Option<string>, slug: string)

  /** JavaScript truthiness of an optional string: present and not empty. */
  predicate Truthy(s: Option<string>) {
    s.Some? && |s.value| > 0
  }

  /** The canonical address handed to the page layout. */
  function CanonicalUrl(post: Post): (r: string)
    ensures Truthy(post.url) ==> r == post.url.value
    ensures !Truthy(post.url) ==> r == SiteOrigin + post.slug
    ensures |r| > 0
  {
    if Truthy(post.url) then post.url.value else SiteOrigin + post.slug
  }

  /** The `href` of the canonical link tag, or None when the tag is not emitted. */
  function CanonicalLink(post: Post): (r: Option<string>)
    ensures r.Some? <==> Truthy(post.url)
    ensures r.Some? ==> r.value == post.url.value
  {
    if Truthy(post.url) then Some(post.url.value) else None
  }

  /**
   The tag and the layout never disagree: an emitted tag points at the
   layout's canonical address, and without a tag that address is the post's
   path on the public site, from which the path can be read back.
   */
  lemma {:induction false} LinkAgreesWithLayout(post: Post)
    ensures CanonicalLink(post).Some? ==> CanonicalLink(post).value == CanonicalUrl(post)
    ensures CanonicalLink(post).None? ==>
              |SiteOrigin| <= |CanonicalUrl(post)|
              && CanonicalUrl(post)[..|SiteOrigin|] == SiteOrigin
              && CanonicalUrl(post)[|SiteOrigin|..] == post.slug
  {
    if CanonicalLink(post).None? {
      var u := CanonicalUrl(post);
      assert u == SiteOrigin + post.slug;
      assert u[..|SiteOrigin|] == SiteOrigin;
      assert u[|SiteOrigin|..] == post.slug;
    }
  }

  /** An empty front-matter address counts as absent. */
  lemma {:induction false} EmptyUrlIsAbsent(slug: string)
    ensures CanonicalUrl(Post(Some(""), slug)) == CanonicalUrl(Post(None, slug))
    ensures CanonicalLink(Post(Some(""), slug)) == None
  {
  }
}
