/** The search modal: the typed query, the decision to search, and the result list; and the
    identifier, link and description shown for each result. The debouncing and the
    cancellation of stale searches are not modelled: a query reaches `OnQuery` once it is
    delivered. */
module SearchModal {
  import opened Wrappers
  import opened Strings
  import opened PayloadTypes
  import Links
  import PostExcerpts

  /** `getResultId(result)`: the collection, a dash, and the document's id. */
  function ResultId(result: SearchResult): (r: string)
    ensures StartsWith(r, result.relationTo + "-") && EndsWith(r, DocId(result.doc))
    ensures |r| == |result.relationTo| + 1 + |DocId(result.doc)|
  {
    result.relationTo + "-" + DocId(result.doc)
  }

  /** Results of dash-free collections have the same identifier only when they are the same
      document of the same collection. */
  lemma ResultIdInjective(a: SearchResult, b: SearchResult)
    requires '-' !in a.relationTo && '-' !in b.relationTo
    requires ResultId(a) == ResultId(b)
    ensures a.relationTo == b.relationTo && DocId(a.doc) == DocId(b.doc)
  {
    var s := ResultId(a);
    var ra, rb := a.relationTo, b.relationTo;
    SplitPiece(ra, DocId(a.doc), '-');
    SplitPiece(rb, DocId(b.doc), '-');
    assert ra == Split(s, '-')[0] == rb;
    assert DocId(a.doc) == s[|ra| + 1..] == DocId(b.doc);
  }

  /** `getResultUrl(result)`: the post route for the `posts` collection, the page route otherwise. */
  function ResultUrl(result: SearchResult): (r: string)
    ensures r == Links.DocumentPath(result.relationTo, DocSlug(result.doc))
    ensures StartsWith(r, "/") && EndsWith(r, DocSlug(result.doc))
  {
    Links.DocumentPath(result.relationTo, DocSlug(result.doc))
  }

  /** `getResultDescription(result)`: the shared description search, with 30 words. */
  method ResultDescription(result: SearchResult) returns (r: string)
    ensures r == PostExcerpts.Description(DocMeta(result.doc), DocHero(result.doc), DocLayout(result.doc),
                                          PostExcerpts.SearchWordLimit)
  {
    r := PostExcerpts.PostDescription(DocMeta(result.doc), DocHero(result.doc), DocLayout(result.doc),
                                      PostExcerpts.SearchWordLimit);
  }

  /** A query shorter than two characters once trimmed is not sent. */
  predicate TooShort(query: string)
    ensures |query| < 2 ==> TooShort(query)
  {
    |Trim(query)| < 2
  }

  /** Blank queries and queries of fewer than two characters are never sent. */
  lemma ShortQueries(query: string)
    ensures AllSpace(query) ==> TooShort(query)
    ensures |query| < 2 ==> TooShort(query)
  {
    TrimEmptyIff(query);
    assert |Trim(query)| <= |TrimStart(query)| <= |query|;
  }

  class SearchModalComponent {
    var searchQuery: string
    var searchResults: seq<SearchResult>
    var isLoading: bool
    /** The queries sent to the search API, in order. */
    var searches: seq<string>

    constructor()
      ensures searchQuery == "" && searchResults == [] && !isLoading && searches == []
    {
      searchQuery := "";
      searchResults := [];
      isLoading := false;
      searches := [];
    }

    /** `onSearchInput(event)`: the input's value, untrimmed, becomes the query. */
    method OnSearchInput(value: string)
      modifies this
      ensures searchQuery == value
      ensures searchResults == old(searchResults) && isLoading == old(isLoading) && searches == old(searches)
    {
      searchQuery := value;
    }

    /** A delivered query: too short, the results are emptied at once; else a search starts. */
    method OnQuery(query: string)
      modifies this
      ensures TooShort(query) ==> searchResults == [] && !isLoading && searches == old(searches)
      ensures !TooShort(query) ==>
                isLoading && searches == old(searches) + [query] && searchResults == old(searchResults)
      ensures searchQuery == old(searchQuery)
    {
      if |Trim(query)| < 2 {
        isLoading := false;
        searchResults := [];
      } else {
        isLoading := true;
        searches := searches + [query];
      }
    }

    /** The results of a search replace the list. */
    method OnSearchResults(results: seq<SearchResult>)
      modifies this
      ensures searchResults == results && !isLoading
      ensures searchQuery == old(searchQuery) && searches == old(searches)
    {
      searchResults := results;
      isLoading := false;
    }

    /** A failed search shows no results. */
    method OnSearchFailed()
      modifies this
      ensures searchResults == [] && !isLoading
      ensures searchQuery == old(searchQuery) && searches == old(searches)
    {
      searchResults := [];
      isLoading := false;
    }
  }
}
