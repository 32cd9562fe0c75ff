/** The search results page: the `q` query parameter, searched once per change, and the hits
    with their descriptions; each hit links where `SearchModal.ResultUrl` says. */
module SearchPage {
  import opened Wrappers
  import opened PayloadTypes

  /** `getResultDescription(result)`: the hit's meta description, else nothing. */
  function ResultDescription(result: SearchResult): (r: string)
    ensures DocMeta(result.doc).Some? ==> r == DocMeta(result.doc).value.description
    ensures DocMeta(result.doc).None? ==> r == ""
  {
    MetaDescription(DocMeta(result.doc))
  }

  class SearchComponent {
    var query: string
    var results: seq<SearchResult>
    /** The queries sent with `search(query)`, in order. */
    var searches: seq<string>

    constructor()
      ensures query == "" && results == [] && searches == []
    {
      query, results, searches := "", [], [];
    }

    /** New query parameters: a non-empty `q` becomes the query and is searched; without one
        the page keeps its query and results. */
    method OnQueryParams(q: Option<string>)
      modifies this
      ensures q.Some? && q.value != "" ==> query == q.value && searches == old(searches) + [q.value]
      ensures !(q.Some? && q.value != "") ==> query == old(query) && searches == old(searches)
      ensures results == old(results)
    {
      if q.Some? && q.value != "" {
        query := q.value;
        searches := searches + [q.value];
      }
    }

    /** The results of a search replace the list; a failed search changes nothing. */
    method OnResults(hits: seq<SearchResult>)
      modifies this
      ensures results == hits && query == old(query) && searches == old(searches)
    {
      results := hits;
    }
  }
}
