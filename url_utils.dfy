/** URL helpers: joining a base URL, a path and query parameters, and taking the last path
    segment of a URL. */
module UrlUtils {
  import opened Wrappers
  import opened Strings

  /** One entry of the `params` record: its key and `String(value)`, or `None` when the value is
      `null` or `undefined`. */
  datatype Param = Param(key: string, value: Option<string>)

  /** `base.replace(/\/$/, '')`: one trailing slash removed, if there is one. */
  function DropTrailingSlash(base: string): (r: string)
    ensures EndsWith(base, "/") ==> base == r + "/"
    ensures !EndsWith(base, "/") ==> r == base
  {
    if base != [] && base[|base| - 1] == '/' then base[..|base| - 1] else base
  }

  /** `path.replace(/^\//, '')`: one leading slash removed, if there is one. */
  function DropLeadingSlash(path: string): (r: string)
    ensures StartsWith(path, "/") ==> path == "/" + r
    ensures !StartsWith(path, "/") ==> r == path
  {
    if path != [] && path[0] == '/' then path[1..] else path
  }

  /** The URL before any query: the base and the path with exactly one slash put between them. */
  function JoinPath(base: string, path: string): string {
    DropTrailingSlash(base) + "/" + DropLeadingSlash(path)
  }

  /** The entries `URLSearchParams.append` receives: the non-null ones, in entry order. */
  function Kept(params: seq<Param>): (entries: seq<(string, string)>)
    ensures |entries| <= |params|
    ensures entries == [] <==> forall i :: 0 <= i < |params| ==> params[i].value.None?
    decreases |params|
  {
    if params == [] then []
    else
      var p := params[|params| - 1];
      Kept(params[..|params| - 1]) + (if p.value.Some? then [(p.key, p.value.value)] else [])
  }

  /** `URLSearchParams.toString()`: each entry serialized as `name=value` with the byte
      serializer `encode` of the URL Standard, the entries joined by `&`. */
  function Serialize(entries: seq<(string, string)>, encode: string -> string): string {
    Join(seq(|entries|, i requires 0 <= i < |entries| => encode(entries[i].0) + "=" + encode(entries[i].1)), "&")
  }

  /** `UrlUtils.buildUrl(baseUrl, path, params)`. */
  method BuildUrl(base: string, path: string, params: Option<seq<Param>>, encode: string -> string)
    returns (url: string)
    ensures params.None? ==> url == JoinPath(base, path)
    ensures params.Some? ==>
              url == JoinPath(base, path) +
                     (if Kept(params.value) == [] then "" else "?" + Serialize(Kept(params.value), encode))
  {
    url := DropTrailingSlash(base) + "/" + DropLeadingSlash(path);
    if params.Some? {
      var ps := params.value;
      var entries: seq<(string, string)> := [];
      for i := 0 to |ps|
        invariant entries == Kept(ps[..i])
      {
        assert ps[..i + 1][..i] == ps[..i];
        if ps[i].value.Some? {
          entries := entries + [(ps[i].key, ps[i].value.value)];
        }
      }
      assert ps[..|ps|] == ps;
      var queryString := Serialize(entries, encode);
      SerializeEmptyIff(entries, encode);
      if queryString != "" {
        url := url + "?" + queryString;
      }
    }
  }

  /** Non-null entries are kept, null ones dropped, and the order is that of the record. */
  lemma {:induction false} KeptAppend(a: seq<Param>, b: seq<Param>)
    ensures Kept(a + b) == Kept(a) + Kept(b)
    decreases |b|
  {
    if b == [] {
      assert a + b == a;
    } else {
      var b' := b[..|b| - 1];
      assert (a + b)[..|a + b| - 1] == a + b';
      KeptAppend(a, b');
    }
  }

  lemma KeptOne(p: Param)
    ensures Kept([p]) == if p.value.Some? then [(p.key, p.value.value)] else []
  {
    assert [p][..0] == [];
  }

  /** The query string is empty exactly when no entry was appended, whatever the encoder. */
  lemma SerializeEmptyIff(entries: seq<(string, string)>, encode: string -> string)
    ensures Serialize(entries, encode) == "" <==> entries == []
  {
    if entries != [] {
      var parts := seq(|entries|, i requires 0 <= i < |entries| => encode(entries[i].0) + "=" + encode(entries[i].1));
      JoinStartsWithFirst(parts, "&");
    }
  }

  lemma {:induction false} JoinStartsWithFirst(parts: seq<string>, sep: string)
    requires |parts| > 0
    ensures |Join(parts, sep)| >= |parts[0]| && Join(parts, sep)[..|parts[0]|] == parts[0]
  {
    if |parts| > 1 {
      assert Join(parts, sep) == parts[0] + (sep + Join(parts[1..], sep));
    }
  }

  /** Nothing is kept iff every value is null or undefined. */
  lemma {:induction false} KeptEmptyIff(params: seq<Param>)
    ensures Kept(params) == [] <==> forall i :: 0 <= i < |params| ==> params[i].value.None?
    decreases |params|
  {
    if params != [] {
      var ps' := params[..|params| - 1];
      KeptEmptyIff(ps');
      assert forall i :: 0 <= i < |ps'| ==> ps'[i] == params[i];
    }
  }

  /** A query is appended iff some parameter has a value; with no parameter record, or only
      null values, the URL is the bare joined path. */
  lemma QueryIffSomeValue(base: string, path: string, ps: seq<Param>, encode: string -> string)
    ensures var bare := JoinPath(base, path);
      var url := bare + (if Kept(ps) == [] then "" else "?" + Serialize(Kept(ps), encode));
      (url != bare <==> exists i :: 0 <= i < |ps| && ps[i].value.Some?) &&
      (url != bare ==> url[|bare|] == '?')
  {
    KeptEmptyIff(ps);
  }

  /** `UrlUtils.getSlugFromUrl(url)`: the last piece of `url.split('/')` (`|| ''` changes
      nothing, since an empty piece is already `''`). */
  function GetSlugFromUrl(url: string): (slug: string)
    ensures '/' !in slug
    ensures |slug| <= |url| && slug == url[|url| - |slug|..]
    ensures EndsWith(url, "/") ==> slug == ""
    ensures '/' !in url ==> slug == url
    ensures '/' in url ==> url == BeforeLast(url, '/') + "/" + slug
  {
    var parts := Split(url, '/');
    LastOfSplit(url, '/');
    BeforeAndAfterLast(url, '/');
    parts[|parts| - 1]
  }
}
