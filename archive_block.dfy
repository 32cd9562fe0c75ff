/** The archive block: a list of posts that comes pre-selected, pre-populated, or fetched page by
    page, with a "load more" action. Its excerpts, images and author initials come from
    `PostExcerpts`, `MediaUrls` and `Initials`. */
module Archive {
  import opened Wrappers
  import opened Strings
  import opened PayloadTypes

  /** The page size when the block sets none. */
  const DefaultLimit := 6
  /** Newest first. */
  const SortOrder := "-publishedAt"

  /** The parameters `fetchPosts(page)` passes to `getPosts`; `categoryIds` is the value of the
      `where[categories][in]` filter, absent when the block chooses no category. */
  datatype PostsQuery = PostsQuery(limit: int, page: int, sort: string, categoryIds: Option<string>)

  /** `categories.map(cat => cat.id)`. */
  function CategoryIds(cs: seq<Category>): (ids: seq<string>)
    ensures |ids| == |cs| && forall i :: 0 <= i < |cs| ==> ids[i] == cs[i].id
  {
    seq(|cs|, i requires 0 <= i < |cs| => cs[i].id)
  }

  /** The query of `fetchPosts(page)`: `limit || 6`, the page, newest first, and the chosen
      categories' ids joined by commas when there is at least one. */
  function FetchQuery(archive: ArchiveBlock, page: int): (q: PostsQuery)
    ensures q.limit == (if archive.limit != 0 then archive.limit else DefaultLimit)
    ensures q.page == page && q.sort == SortOrder
    ensures q.categoryIds.Some? <==> archive.categories.Some? && |archive.categories.value| > 0
    ensures q.categoryIds.Some? ==> q.categoryIds.value == Join(CategoryIds(archive.categories.value), ",")
  {
    var ids := if archive.categories.Some? && |archive.categories.value| > 0 then
                 Some(Join(CategoryIds(archive.categories.value), ","))
               else None;
    PostsQuery(if archive.limit != 0 then archive.limit else DefaultLimit, page, SortOrder, ids)
  }

  /** The category filter names exactly the chosen categories, in order, when no id holds a comma. */
  lemma CategoryFilterIds(archive: ArchiveBlock, page: int)
    requires archive.categories.Some? && |archive.categories.value| > 0
    requires forall i :: 0 <= i < |archive.categories.value| ==> ',' !in archive.categories.value[i].id
    ensures Split(FetchQuery(archive, page).categoryIds.value, ',') == CategoryIds(archive.categories.value)
  {
    SplitJoin(CategoryIds(archive.categories.value), ',');
  }

  /** The post list after a response for `page`: the first page replaces it, later pages append. */
  function MergePage(current: seq<Post>, page: int, docs: seq<Post>): (r: seq<Post>)
    ensures page == 1 ==> r == docs
    ensures page != 1 ==> |r| == |current| + |docs| && r[..|current|] == current && r[|current|..] == docs
  {
    if page == 1 then docs else current + docs
  }

  /** The posts of the pages in order. */
  function Flatten(pages: seq<seq<Post>>): seq<Post>
    decreases |pages|
  {
    if pages == [] then [] else Flatten(pages[..|pages| - 1]) + pages[|pages| - 1]
  }

  /** The list after the responses to pages 1, 2, ..., n, received in that order. */
  function AfterPages(pages: seq<seq<Post>>, start: seq<Post>): seq<Post>
    decreases |pages|
  {
    if pages == [] then start
    else MergePage(AfterPages(pages[..|pages| - 1], start), |pages|, pages[|pages| - 1])
  }

  /** Loading the first page and then each next one shows every page's posts, in page order,
      whatever was shown before. */
  lemma {:induction false} PagesAccumulate(pages: seq<seq<Post>>, start: seq<Post>)
    requires |pages| >= 1
    ensures AfterPages(pages, start) == Flatten(pages)
    decreases |pages|
  {
    if |pages| == 1 {
      assert pages[..0] == [];
    } else {
      PagesAccumulate(pages[..|pages| - 1], start);
      assert pages[..|pages| - 1][..|pages| - 2] == pages[..|pages| - 2];
    }
  }

  /** The state of one archive block. */
  class ArchiveBlockComponent {
    const archive: ArchiveBlock
    var posts: seq<Post>
    var isLoading: bool
    var hasMore: bool
    var currentPage: int
    /** The `getPosts` calls made so far; each response arrives through `OnPostsLoaded` or
        `OnPostsFailed`. */
    var requests: seq<PostsQuery>

    constructor(archive: ArchiveBlock)
      ensures this.archive == archive
      ensures posts == [] && !isLoading && !hasMore && currentPage == 1 && requests == []
    {
      this.archive := archive;
      posts := [];
      isLoading := false;
      hasMore := false;
      currentPage := 1;
      requests := [];
    }

    /** `loadPosts()`, run by `ngOnInit`: the selection, else the pre-populated posts, else a
        request for the first page. */
    method LoadPosts()
      modifies this
      ensures archive.populateBy == "selection" && archive.selectedDocs.Some? ==>
                posts == archive.selectedDocs.value && !hasMore &&
                isLoading == old(isLoading) && requests == old(requests)
      ensures !(archive.populateBy == "selection" && archive.selectedDocs.Some?) && archive.populatedDocs.Some? ==>
                posts == archive.populatedDocs.value &&
                (hasMore <==> archive.populatedDocsTotal > |archive.populatedDocs.value|) &&
                isLoading == old(isLoading) && requests == old(requests)
      ensures !(archive.populateBy == "selection" && archive.selectedDocs.Some?) && archive.populatedDocs.None? ==>
                isLoading && requests == old(requests) + [FetchQuery(archive, 1)] &&
                posts == old(posts) && hasMore == old(hasMore)
      ensures currentPage == old(currentPage)
    {
      if archive.populateBy == "selection" && archive.selectedDocs.Some? {
        posts := archive.selectedDocs.value;
        hasMore := false;
      } else if archive.populatedDocs.Some? {
        posts := archive.populatedDocs.value;
        hasMore := archive.populatedDocsTotal > |archive.populatedDocs.value|;
      } else {
        FetchPosts(1);
      }
    }

    /** `fetchPosts(page)` up to the call: loading, and the request made. */
    method FetchPosts(page: int)
      modifies this
      ensures isLoading && requests == old(requests) + [FetchQuery(archive, page)]
      ensures posts == old(posts) && hasMore == old(hasMore) && currentPage == old(currentPage)
    {
      isLoading := true;
      requests := requests + [FetchQuery(archive, page)];
    }

    /** The success callback of a `fetchPosts(page)` call made earlier, with the page its
        closure captured. */
    method OnPostsLoaded(page: int, response: PayloadResponse<Post>)
      requires FetchQuery(archive, page) in requests
      modifies this
      ensures posts == MergePage(old(posts), page, response.docs)
      ensures hasMore == response.hasNextPage && currentPage == page && !isLoading
      ensures requests == old(requests)
    {
      if page == 1 {
        posts := response.docs;
      } else {
        posts := posts + response.docs;
      }
      hasMore := response.hasNextPage;
      currentPage := page;
      isLoading := false;
    }

    /** The error callback of `fetchPosts(page)`: loading stops and the list stays. */
    method OnPostsFailed()
      modifies this
      ensures !isLoading
      ensures posts == old(posts) && hasMore == old(hasMore) && currentPage == old(currentPage)
      ensures requests == old(requests)
    {
      isLoading := false;
    }

    /** `loadMore()`: nothing while loading or at the end, else a request for the next page. */
    method LoadMore()
      modifies this
      ensures !old(hasMore) || old(isLoading) ==>
                requests == old(requests) && isLoading == old(isLoading)
      ensures old(hasMore) && !old(isLoading) ==>
                isLoading && requests == old(requests) + [FetchQuery(archive, old(currentPage) + 1)]
      ensures posts == old(posts) && hasMore == old(hasMore) && currentPage == old(currentPage)
    {
      if !hasMore || isLoading {
        return;
      }
      FetchPosts(currentPage + 1);
    }
  }
}
