/** The blog listing page: posts loaded page by page, replaced on a new category and appended on
    "load more". The page builds the query parameters (page, size, order and category) but calls
    `getPosts()` without them, so every request it makes is the same parameterless request and
    no response depends on the selected category or the page. Its excerpts, images and initials
    come from `PostExcerpts.BlogExcerpt`, `MediaUrls` and `Initials`. */
module Blog {
  import opened Wrappers
  import opened PayloadTypes

  /** The list after a response: appended to in append mode, replaced otherwise. */
  function Merged(current: seq<Post>, append: bool, docs: seq<Post>): (r: seq<Post>)
    ensures append ==> |r| == |current| + |docs| && r[..|current|] == current && r[|current|..] == docs
    ensures !append ==> r == docs
  {
    if append then current + docs else docs
  }

  /** What a `loadPosts(page, append)` call closes over: the page its success callback records and
      whether that callback appends to the list or replaces it. */
  datatype PostsRequest = PostsRequest(page: int, append: bool)

  class BlogComponent {
    var posts: seq<Post>
    var selectedCategory: Option<string>
    var isLoading: bool
    var isLoadingMore: bool
    var hasMore: bool
    var currentPage: int
    /** The `getPosts()` calls made, in order, each with the values its callbacks close over; the
        responses arrive through `OnPostsLoaded` and `OnPostsFailed`. */
    var requests: seq<PostsRequest>

    /** Pages are counted from 1, and every request asks for a page from 1 on. */
    predicate Valid()
      reads this
    {
      currentPage >= 1 && forall i :: 0 <= i < |requests| ==> requests[i].page >= 1
    }

    /** The initial state: loading, no category, page 1, no request yet. */
    constructor()
      ensures posts == [] && selectedCategory.None? && isLoading && !isLoadingMore && !hasMore
      ensures currentPage == 1 && requests == []
      ensures Valid()
    {
      posts := [];
      selectedCategory := None;
      isLoading := true;
      isLoadingMore := false;
      hasMore := false;
      currentPage := 1;
      requests := [];
    }

    /** `ngOnInit()`'s posts part: `loadPosts()` with its defaults, the first page in replace
        mode. */
    method OnInit()
      requires Valid()
      modifies this
      ensures Valid()
      ensures requests == old(requests) + [PostsRequest(1, false)]
      ensures isLoading && isLoadingMore == old(isLoadingMore)
      ensures posts == old(posts) && hasMore == old(hasMore) && currentPage == old(currentPage)
      ensures selectedCategory == old(selectedCategory)
    {
      LoadPosts(1, false);
    }

    /** `loadPosts(page, append)` up to the call: the first page shows the main spinner, later
        pages the "load more" one, and one parameterless request is made. */
    method LoadPosts(page: int, append: bool)
      requires Valid() && page >= 1
      modifies this
      ensures Valid()
      ensures requests == old(requests) + [PostsRequest(page, append)]
      ensures page == 1 ==> isLoading && isLoadingMore == old(isLoadingMore)
      ensures page != 1 ==> isLoadingMore && isLoading == old(isLoading)
      ensures posts == old(posts) && selectedCategory == old(selectedCategory)
      ensures hasMore == old(hasMore) && currentPage == old(currentPage)
    {
      if page == 1 {
        isLoading := true;
      } else {
        isLoadingMore := true;
      }
      requests := requests + [PostsRequest(page, append)];
    }

    /** The success callback of a request made earlier: the list is merged by the request's mode
        and its page recorded. */
    method OnPostsLoaded(request: PostsRequest, response: PayloadResponse<Post>)
      requires Valid() && request in requests
      modifies this
      ensures Valid()
      ensures posts == Merged(old(posts), request.append, response.docs)
      ensures hasMore == response.hasNextPage && currentPage == request.page
      ensures !isLoading && !isLoadingMore
      ensures selectedCategory == old(selectedCategory) && requests == old(requests)
    {
      if request.append {
        posts := posts + response.docs;
      } else {
        posts := response.docs;
      }
      hasMore := response.hasNextPage;
      currentPage := request.page;
      isLoading := false;
      isLoadingMore := false;
    }

    /** The error callback: both spinners stop and the list stays. */
    method OnPostsFailed()
      requires Valid()
      modifies this
      ensures Valid()
      ensures !isLoading && !isLoadingMore
      ensures posts == old(posts) && hasMore == old(hasMore) && currentPage == old(currentPage)
      ensures selectedCategory == old(selectedCategory) && requests == old(requests)
    {
      isLoading := false;
      isLoadingMore := false;
    }

    /** `filterByCategory(categoryId)`: the category is chosen, the page reset, and the first
        page requested in replace mode. */
    method FilterByCategory(categoryId: Option<string>)
      requires Valid()
      modifies this
      ensures Valid()
      ensures selectedCategory == categoryId && currentPage == 1
      ensures requests == old(requests) + [PostsRequest(1, false)]
      ensures isLoading && isLoadingMore == old(isLoadingMore)
      ensures posts == old(posts) && hasMore == old(hasMore)
    {
      selectedCategory := categoryId;
      currentPage := 1;
      LoadPosts(1, false);
    }

    /** `loadMore()`: a request for the page after the current one in append mode, only when
        there is more and no "load more" request is running. */
    method LoadMore()
      requires Valid()
      modifies this
      ensures Valid()
      ensures old(hasMore) && !old(isLoadingMore) ==>
                isLoadingMore && requests == old(requests) + [PostsRequest(old(currentPage) + 1, true)]
      ensures !(old(hasMore) && !old(isLoadingMore)) ==>
                isLoadingMore == old(isLoadingMore) && requests == old(requests)
      ensures isLoading == old(isLoading) && posts == old(posts) && hasMore == old(hasMore)
      ensures currentPage == old(currentPage) && selectedCategory == old(selectedCategory)
    {
      if hasMore && !isLoadingMore {
        LoadPosts(currentPage + 1, true);
      }
    }
  }
}
