/**
 * The cached page and the fragment cache (IEsiFragmentCache). The cache's
 * expiry and eviction are not modelled: it is a map from key to entry.
 */
module Caching {
  import opened Wrappers
  import opened Http

  /** The fragment tree that EsiBodyParser builds; opaque here. */
  type Fragment(==)

  /** FragmentPageResponse: a parsed page and the content type it was captured with. */
  datatype PageResponse = PageResponse(fragment: Fragment, contentType: Option<string>)

  /** What Set stores: the page and the Cache-Control directive given with it. */
  datatype Entry = Entry(response: PageResponse, directive: Option<CacheDirective>)

  class FragmentCache {
    var entries: map<string, Entry>

    constructor (entries: map<string, Entry>)
      ensures this.entries == entries
    {
      this.entries := entries;
    }

    /** TryGet: the page stored under exactly `key`, if there is one. */
    method TryGet(key: string) returns (r: Option<PageResponse>)
      ensures r.Some? <==> key in entries
      ensures r.Some? ==> r.value == entries[key].response
    {
      if key in entries {
        r := Some(entries[key].response);
      } else {
        r := None;
      }
    }

    /** Set: stores `response` with `directive` under `key`; other keys keep their entries. */
    method Set(key: string, directive: Option<CacheDirective>, response: PageResponse)
      modifies this
      ensures entries == old(entries)[key := Entry(response, directive)]
    {
      entries := entries[key := Entry(response, directive)];
    }
  }
}
