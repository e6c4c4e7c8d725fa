/** Related-post selection: keep the visible, complete posts other than the
    current one that share its category or one of its tags, project them to
    plain post records, and keep the first `limit`. */
module RelatedPosts {
  import opened Common
  import opened BlogPosts

  predicate SharesTag(tags: seq<string>, postTags: seq<string>) {
    exists t :: t in tags && t in postTags
  }

  /** The filter callback, with its early returns in order. */
  predicate IsRelated(entry: CollectionPost, currentSlug: string, category: string, tags: Option<seq<string>>)
    // the early returns read as one condition
    ensures IsRelated(entry, currentSlug, category, tags) <==>
              && entry.post.slug != currentSlug
              && entry.isVisible
              && entry.post.title != ""
              && entry.post.date != ""
              && (entry.post.category == category
                  || (tags.Some? && entry.post.tags.Some? && SharesTag(tags.value, entry.post.tags.value)))
  {
    var post := entry.post;
    if post.slug == currentSlug then false
    else if !entry.isVisible then false
    else if post.title == "" || post.date == "" then false
    else if post.category == category then true
    else if tags.Some? && post.tags.Some? then SharesTag(tags.value, post.tags.value)
    else false
  }

  /** The `filter` followed by the `map` that copies the post's fields. */
  function Matches(allPosts: seq<CollectionPost>, currentSlug: string, category: string, tags: Option<seq<string>>)
    : (matches: seq<BlogPost>)
    ensures |matches| <= |allPosts|
    // a current slug no entry carries and an always-true filter keep every post
    ensures (forall j :: 0 <= j < |allPosts| ==> IsRelated(allPosts[j], currentSlug, category, tags))
            ==> |matches| == |allPosts|
    decreases |allPosts|
  {
    if allPosts == [] then []
    else
      (if IsRelated(allPosts[0], currentSlug, category, tags) then [allPosts[0].post] else [])
      + Matches(allPosts[1..], currentSlug, category, tags)
  }

  /** The end index `Array.prototype.slice(0, limit)` uses on a list of length
      `len`: a negative limit counts back from the end. */
  function SliceEnd(len: nat, limit: int): (e: nat)
    ensures e <= len
    ensures limit >= 0 ==> e == (if limit < len then limit else len)
    ensures limit < 0 ==> e == (if len + limit > 0 then len + limit else 0)
  {
    if limit < 0 then (if len + limit > 0 then len + limit else 0)
    else if limit < len then limit
    else len
  }

  function GetRelatedPosts(
    allPosts: seq<CollectionPost>, currentSlug: string, category: string,
    tags: Option<seq<string>>, limit: int := 3
  ): (r: seq<BlogPost>)
    // the first matches, in collection order
    ensures |r| <= |Matches(allPosts, currentSlug, category, tags)|
    ensures r == Matches(allPosts, currentSlug, category, tags)[..|r|]
    ensures limit >= 0 ==> |r| <= limit
    ensures limit >= 0 && |r| < limit ==> r == Matches(allPosts, currentSlug, category, tags)
    // what every returned post satisfies
    ensures forall i :: 0 <= i < |r| ==>
              && r[i].slug != currentSlug
              && r[i].title != ""
              && r[i].date != ""
              && (r[i].category == category
                  || (tags.Some? && r[i].tags.Some? && SharesTag(tags.value, r[i].tags.value)))
  {
    var matches := Matches(allPosts, currentSlug, category, tags);
    var r := matches[..SliceEnd(|matches|, limit)];
    assert forall i :: 0 <= i < |r| ==> r[i] in matches;
    MatchesAreRelated(allPosts, currentSlug, category, tags);
    r
  }

  // ---------------------------------------------------------------------------
  // Lemmas

  /** Every match is the projection of a collection entry that passes the
      filter (in particular a visible one), and every such entry matches. */
  lemma {:induction false} MatchesMembers(
    allPosts: seq<CollectionPost>, currentSlug: string, category: string, tags: Option<seq<string>>, p: BlogPost)
    ensures p in Matches(allPosts, currentSlug, category, tags) <==>
            exists j :: 0 <= j < |allPosts| && allPosts[j].post == p
                        && IsRelated(allPosts[j], currentSlug, category, tags)
    decreases |allPosts|
  {
    if allPosts != [] {
      MatchesMembers(allPosts[1..], currentSlug, category, tags, p);
      if exists j :: 0 <= j < |allPosts[1..]| && allPosts[1..][j].post == p
                     && IsRelated(allPosts[1..][j], currentSlug, category, tags) {
        var j :| 0 <= j < |allPosts[1..]| && allPosts[1..][j].post == p
                 && IsRelated(allPosts[1..][j], currentSlug, category, tags);
        assert allPosts[j + 1] == allPosts[1..][j];
      }
      if exists j :: 0 <= j < |allPosts| && allPosts[j].post == p
                     && IsRelated(allPosts[j], currentSlug, category, tags) {
        var j :| 0 <= j < |allPosts| && allPosts[j].post == p
                 && IsRelated(allPosts[j], currentSlug, category, tags);
        if j > 0 {
          assert allPosts[1..][j - 1] == allPosts[j];
        }
      }
    }
  }

  /** What the filter guarantees about the posts it lets through. */
  lemma MatchesAreRelated(allPosts: seq<CollectionPost>, currentSlug: string, category: string, tags: Option<seq<string>>)
    ensures forall p :: p in Matches(allPosts, currentSlug, category, tags) ==>
              && p.slug != currentSlug
              && p.title != ""
              && p.date != ""
              && (p.category == category
                  || (tags.Some? && p.tags.Some? && SharesTag(tags.value, p.tags.value)))
  {
    forall p | p in Matches(allPosts, currentSlug, category, tags)
      ensures && p.slug != currentSlug
              && p.title != ""
              && p.date != ""
              && (p.category == category
                  || (tags.Some? && p.tags.Some? && SharesTag(tags.value, p.tags.value)))
    {
      MatchesMembers(allPosts, currentSlug, category, tags, p);
    }
  }

  /** Every returned post comes from a visible collection entry. */
  lemma ResultsAreVisible(
    allPosts: seq<CollectionPost>, currentSlug: string, category: string, tags: Option<seq<string>>, limit: int, i: nat)
    requires i < |GetRelatedPosts(allPosts, currentSlug, category, tags, limit)|
    ensures exists j :: 0 <= j < |allPosts|
                        && allPosts[j].post == GetRelatedPosts(allPosts, currentSlug, category, tags, limit)[i]
                        && allPosts[j].isVisible
  {
    var r := GetRelatedPosts(allPosts, currentSlug, category, tags, limit);
    assert r[i] in Matches(allPosts, currentSlug, category, tags);
    MatchesMembers(allPosts, currentSlug, category, tags, r[i]);
  }

  /** Without tags to match, or for a returned post without tags, only the
      category can have qualified it. */
  lemma NoTagsMeansSameCategory(
    allPosts: seq<CollectionPost>, currentSlug: string, category: string, tags: Option<seq<string>>, limit: int, i: nat)
    requires i < |GetRelatedPosts(allPosts, currentSlug, category, tags, limit)|
    requires tags.None? || GetRelatedPosts(allPosts, currentSlug, category, tags, limit)[i].tags.None?
    ensures GetRelatedPosts(allPosts, currentSlug, category, tags, limit)[i].category == category
  {
  }

  /** With the default limit at most three posts are returned. */
  lemma DefaultLimitIsThree(allPosts: seq<CollectionPost>, currentSlug: string, category: string, tags: Option<seq<string>>)
    ensures |GetRelatedPosts(allPosts, currentSlug, category, tags)| <= 3
  {
  }

  /** `a` is `b` with some elements removed, order kept. */
  predicate IsSubsequence<T(==)>(a: seq<T>, b: seq<T>)
    decreases |b|
  {
    if a == [] then true
    else if b == [] then false
    else if a[0] == b[0] then IsSubsequence(a[1..], b[1..])
    else IsSubsequence(a, b[1..])
  }

  function Posts(allPosts: seq<CollectionPost>): seq<BlogPost>
    decreases |allPosts|
  {
    if allPosts == [] then [] else [allPosts[0].post] + Posts(allPosts[1..])
  }

  lemma {:induction false} PrefixOfSubsequence<T>(a: seq<T>, b: seq<T>, n: nat)
    requires IsSubsequence(a, b) && n <= |a|
    ensures IsSubsequence(a[..n], b)
    decreases |b|
  {
    if n > 0 && b != [] {
      if a[0] == b[0] {
        assert a[..n][1..] == a[1..][..n - 1];
        PrefixOfSubsequence(a[1..], b[1..], n - 1);
      } else {
        PrefixOfSubsequence(a, b[1..], n);
      }
    }
  }

  lemma {:induction false} MatchesSubsequence(
    allPosts: seq<CollectionPost>, currentSlug: string, category: string, tags: Option<seq<string>>)
    ensures IsSubsequence(Matches(allPosts, currentSlug, category, tags), Posts(allPosts))
    decreases |allPosts|
  {
    if allPosts != [] {
      var m := Matches(allPosts, currentSlug, category, tags);
      var rest := Matches(allPosts[1..], currentSlug, category, tags);
      MatchesSubsequence(allPosts[1..], currentSlug, category, tags);
      if IsRelated(allPosts[0], currentSlug, category, tags) {
        assert m == [allPosts[0].post] + rest;
        assert m[1..] == rest;
      } else {
        assert m == rest;
        SubsequenceOfTail(rest, Posts(allPosts));
      }
    }
  }

  lemma {:induction false} SubsequenceOfTail<T>(a: seq<T>, b: seq<T>)
    requires b != [] && IsSubsequence(a, b[1..])
    ensures IsSubsequence(a, b)
    decreases |b|, 0
  {
    if a != [] && a[0] == b[0] {
      // a[0] also occurs in b[1..]: drop it from both sides
      SubsequenceDropHead(a, b[1..]);
    }
  }

  lemma {:induction false} SubsequenceDropHead<T>(a: seq<T>, b: seq<T>)
    requires a != [] && IsSubsequence(a, b)
    ensures IsSubsequence(a[1..], b)
    decreases |b|, 1
  {
    if a[0] == b[0] {
      if a[1..] != [] {
        SubsequenceOfTail(a[1..], b);
      }
    } else {
      SubsequenceDropHead(a, b[1..]);
      if a[1..] != [] {
        SubsequenceOfTail(a[1..], b);
      }
    }
  }

  /** The result keeps the collection's order: it is a subsequence of the
      projected post list. */
  lemma ResultIsOrderedSubsequence(
    allPosts: seq<CollectionPost>, currentSlug: string, category: string, tags: Option<seq<string>>, limit: int)
    ensures IsSubsequence(GetRelatedPosts(allPosts, currentSlug, category, tags, limit), Posts(allPosts))
  {
    var m := Matches(allPosts, currentSlug, category, tags);
    var r := GetRelatedPosts(allPosts, currentSlug, category, tags, limit);
    MatchesSubsequence(allPosts, currentSlug, category, tags);
    PrefixOfSubsequence(m, Posts(allPosts), |r|);
  }
}
