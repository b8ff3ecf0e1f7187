/**
 * The content cache of src/services/dataService.ts: JSON documents fetched from
 * `/data/<endpoint>.json` are kept in the browser store under `codeveda_<endpoint>` for 24 hours.
 * The clock is a parameter, the network is an outcome the caller supplies, and the store is a
 * shared `Storage` object.
 */
module ContentCache {
  import opened Basics
  import opened Strings
  import opened BrowserStorage
  import Seqs

  /** Time to live of a cache entry, in milliseconds (24 hours). */
  const CacheExpiry: int := 24 * 60 * 60 * 1000

  const KeyPrefix: string := "codeveda_"

  function CacheKey(endpoint: string): string {
    KeyPrefix + endpoint
  }

  function DataUrl(endpoint: string): string {
    "/data/" + endpoint + ".json"
  }

  /** What the network does with one request: a parsed body, or a failure (a thrown `fetch`, a non-ok status, or a body `response.json()` rejects). */
  datatype Network = Delivered(body: Json) | Failed

  datatype Error =
    | FetchFailed   // the network failure, rethrown
    | CorruptEntry  // `JSON.parse` of a stored value threw

  /** `JSON.parse(stored).data` for a stored value that parses. */
  function StoredData(item: Item): Json {
    if item.CacheEntry? then item.data else Undefined
  }

  /** `now > JSON.parse(stored).expires`; a value without `expires` never compares greater. */
  predicate ExpiredAt(item: Item, now: int) {
    item.CacheEntry? && now > item.expires
  }

  /** The outcome of `getFromCache` and the store it leaves. */
  datatype Read = Read(result: Result<Json, Error>, items: map<string, Item>)

  /** `getFromCache(key)` at time `now` (`Null` is its `null`). */
  function ReadCache(items: map<string, Item>, key: string, now: int): (rd: Read)
    ensures rd.result.Err? <==> Holds(items, key) && items[key].Garbled?
    ensures rd.result.Ok? && Truthy(rd.result.value)
            <==> Holds(items, key) && !items[key].Garbled? && !ExpiredAt(items[key], now) && Truthy(StoredData(items[key]))
    ensures rd.result.Ok? && Truthy(rd.result.value) ==> rd.result.value == StoredData(items[key])
    ensures rd.items == if Holds(items, key) && ExpiredAt(items[key], now) then items - {key} else items
  {
    if !Holds(items, key) then Read(Ok(Null), items)
    else if items[key].Garbled? then Read(Err(CorruptEntry), items)
    else if ExpiredAt(items[key], now) then Read(Ok(Null), items - {key})
    else Read(Ok(StoredData(items[key])), items)
  }

  /** The store after `saveToCache(key, data)` at time `now`; a write over quota is swallowed. */
  function Saved(items: map<string, Item>, key: string, data: Json, now: int, fits: bool): map<string, Item> {
    if fits then items[key := CacheEntry(data, now, now + CacheExpiry)] else items
  }

  /** The catch branch of `fetchData`: whatever the key still holds, else the rethrown failure. */
  function Fallback(items: map<string, Item>, key: string): Result<Json, Error> {
    if !Holds(items, key) then Err(FetchFailed)
    else if items[key].Garbled? then Err(CorruptEntry)
    else Ok(StoredData(items[key]))
  }

  /**
   * A cache miss at time `now`: nothing is stored under the key, or an entry is stored that is
   * expired or whose data is falsy. Text that `JSON.parse` rejects is not a miss: the read throws.
   */
  predicate Misses(items: map<string, Item>, key: string, now: int) {
    !Holds(items, key) || (!items[key].Garbled? && (ExpiredAt(items[key], now) || !Truthy(StoredData(items[key]))))
  }

  /** One `fetchData` call: its outcome, the store it leaves, and the URL it requested, if any. */
  datatype FetchStep = FetchStep(result: Result<Json, Error>, items: map<string, Item>, request: Option<string>)

  function Fetch(items: map<string, Item>, endpoint: string, now: int, net: Network, fits: bool): (o: FetchStep)
    // an unexpired entry with truthy data is served with no request and no store change
    ensures var key := CacheKey(endpoint);
            Holds(items, key) && items[key].CacheEntry? && now <= items[key].expires && Truthy(items[key].data)
            ==> o == FetchStep(Ok(items[key].data), items, None)
    // without a request, the store is untouched and the outcome is a truthy hit or the parse error
    ensures o.request.None? ==> o.items == items && (o.result.Err? ==> o.result == Err(CorruptEntry))
    ensures o.request.None? && o.result.Ok? ==> Truthy(o.result.value)
    ensures o.request.Some? ==> o.request == Some(DataUrl(endpoint))
    // exactly a miss goes to the network; a stored value that does not parse throws before it
    ensures o.request.Some? <==> Misses(items, CacheKey(endpoint), now)
    ensures Holds(items, CacheKey(endpoint)) && items[CacheKey(endpoint)].Garbled? ==> o.result == Err(CorruptEntry)
    // an expired entry is removed before the request, so a failed request then ends in the error
    ensures var key := CacheKey(endpoint);
            Holds(items, key) && ExpiredAt(items[key], now)
            ==> o.request.Some? && (net.Failed? ==> o.result == Err(FetchFailed) && key !in o.items)
    // a delivered body is returned and stored with a 24-hour expiry (unless the write is over quota)
    ensures o.request.Some? && net.Delivered? ==> o.result == Ok(net.body)
    ensures o.request.Some? && net.Delivered? && fits
            ==> CacheKey(endpoint) in o.items && o.items[CacheKey(endpoint)] == CacheEntry(net.body, now, now + CacheExpiry)
    // a failed request returns what the key still holds, which can only be falsy data, else the error
    ensures o.request.Some? && net.Failed? ==> (o.result.Ok? <==> Holds(o.items, CacheKey(endpoint)))
    ensures o.request.Some? && net.Failed? && o.result.Ok? ==> !Truthy(o.result.value)
    ensures o.request.Some? && net.Failed? && Holds(o.items, CacheKey(endpoint))
            ==> o.result == Ok(StoredData(o.items[CacheKey(endpoint)]))
    ensures o.request.Some? && net.Failed? && o.result.Err? ==> o.result == Err(FetchFailed)
    // a failed request or a write over quota leaves the store as the read left it, so the fallback
    // is the entry stored before the call, and with nothing stored the failure is rethrown
    ensures o.request.Some? && (net.Failed? || !fits) ==> o.items == ReadCache(items, CacheKey(endpoint), now).items
    ensures var key := CacheKey(endpoint);
            net.Failed? && Holds(items, key) && !items[key].Garbled? && !ExpiredAt(items[key], now)
            ==> o.result == Ok(StoredData(items[key]))
    ensures !Holds(items, CacheKey(endpoint)) && net.Failed? ==> o.result == Err(FetchFailed)
    // no other key changes
    ensures forall k | k != CacheKey(endpoint) :: (k in o.items <==> k in items)
    ensures forall k | k != CacheKey(endpoint) && k in items :: o.items[k] == items[k]
  {
    var key := CacheKey(endpoint);
    var rd := ReadCache(items, key, now);
    if rd.result.Err? || Truthy(rd.result.value) then FetchStep(rd.result, rd.items, None)
    else
      match net
      case Delivered(body) => FetchStep(Ok(body), Saved(rd.items, key, body, now, fits), Some(DataUrl(endpoint)))
      case Failed => FetchStep(Fallback(rd.items, key), rd.items, Some(DataUrl(endpoint)))
  }

  /** The store after `clearCache()`: every key with the cache prefix removed. */
  function Cleared(items: map<string, Item>): (r: map<string, Item>)
    ensures forall k :: k in r <==> k in items && !StartsWith(k, KeyPrefix)
    ensures forall k | k in r :: r[k] == items[k]
  {
    map k | k in items && !StartsWith(k, KeyPrefix) :: items[k]
  }

  /** An entry stored at time `t` is served, with no request, up to and including `t + CacheExpiry`; one millisecond later it is removed and requested again. */
  lemma TtlWindow(items: map<string, Item>, endpoint: string, t: int, data: Json, later: int, net: Network, fits: bool)
    requires Misses(items, CacheKey(endpoint), t)
    requires Truthy(data)
    ensures var stored := Fetch(items, endpoint, t, Delivered(data), true).items;
            && (t <= later <= t + CacheExpiry ==> Fetch(stored, endpoint, later, net, fits) == FetchStep(Ok(data), stored, None))
            && (later > t + CacheExpiry ==> Fetch(stored, endpoint, later, net, fits).request.Some?)
            && (later > t + CacheExpiry && net.Failed? ==> Fetch(stored, endpoint, later, net, fits).result == Err(FetchFailed))
  {
  }

  /** Data fetched while the write is over quota is still returned, and the store is only cleaned. */
  lemma FailedWriteStillReturns(items: map<string, Item>, endpoint: string, now: int, data: Json)
    requires Misses(items, CacheKey(endpoint), now)
    ensures Fetch(items, endpoint, now, Delivered(data), false).result == Ok(data)
    ensures Fetch(items, endpoint, now, Delivered(data), false).items == ReadCache(items, CacheKey(endpoint), now).items
  {
  }

  /** Clearing keeps the progress blob, and a second clear changes nothing. */
  lemma ClearCacheScope(items: map<string, Item>)
    ensures "dsa_progress" in items ==> "dsa_progress" in Cleared(items) && Cleared(items)["dsa_progress"] == items["dsa_progress"]
    ensures Cleared(Cleared(items)) == Cleared(items)
  {
    assert !StartsWith("dsa_progress", KeyPrefix) by {
      assert "dsa_progress"[0] != KeyPrefix[0];
    }
  }

  /** A blog post as the blogs document lists it (the fields the search and the pages read). */
  datatype Post = Post(id: string, title: string, excerpt: string, content: string, category: string, tags: seq<string>, featured: bool)

  /** The search predicate of `searchBlogs` for an already lowercased search term. */
  predicate PostMatches(post: Post, term: string) {
    || Contains(Lower(post.title), term)
    || Contains(Lower(post.excerpt), term)
    || Contains(Lower(post.content), term)
    || (exists tag | tag in post.tags :: Contains(Lower(tag), term))
    || Contains(Lower(post.category), term)
  }

  function PostMatcher(term: string): Post -> bool {
    (post: Post) => PostMatches(post, term)
  }

  /** What `searchBlogs(posts, query)` keeps: everything for a blank query, else the matching posts. */
  predicate InSearch(post: Post, query: string) {
    IsBlank(query) || PostMatches(post, Lower(query))
  }

  /** `searchBlogs(posts, query)`. */
  function SearchBlogs(posts: seq<Post>, query: string): (r: seq<Post>)
    ensures IsBlank(query) ==> r == posts
    ensures !IsBlank(query) ==> Seqs.IsSubseq(r, posts)
    ensures !IsBlank(query) ==> forall i | 0 <= i < |r| :: PostMatches(r[i], Lower(query))
    ensures !IsBlank(query) ==> forall post | post in posts && PostMatches(post, Lower(query)) :: post in r
    // every matching post is kept as many times as it occurs, and no other post at all
    ensures multiset(r) <= multiset(posts)
    ensures forall post | post in posts :: multiset(r)[post] == if InSearch(post, query) then multiset(posts)[post] else 0
  {
    if IsBlank(query) then posts else Seqs.Filter(posts, PostMatcher(Lower(query)))
  }

  /** The search ignores the case of the query's letters. */
  lemma SearchIgnoresQueryCase(posts: seq<Post>, query: string)
    ensures SearchBlogs(posts, Lower(query)) == SearchBlogs(posts, query)
  {
    LowerIdempotent(query);
    assert IsBlank(Lower(query)) == IsBlank(query) by {
      assert forall i | 0 <= i < |query| :: IsSpace(Lower(query)[i]) == IsSpace(query[i]);
    }
  }

  function CategoryMatcher(category: string): Post -> bool {
    (post: Post) => post.category == category
  }

  /** What `filterBlogsByCategory(posts, category)` keeps: everything for `""` and `"All"`, else that category. */
  predicate InCategory(post: Post, category: string) {
    category == "" || category == "All" || post.category == category
  }

  /** `filterBlogsByCategory(posts, category)`. */
  function FilterBlogsByCategory(posts: seq<Post>, category: string): (r: seq<Post>)
    ensures category == "" || category == "All" ==> r == posts
    ensures category != "" && category != "All" ==> Seqs.IsSubseq(r, posts)
    ensures category != "" && category != "All" ==> forall i | 0 <= i < |r| :: r[i].category == category
    ensures category != "" && category != "All" ==> forall post | post in posts && post.category == category :: post in r
    // every post of the category is kept as many times as it occurs, and no other post at all
    ensures multiset(r) <= multiset(posts)
    ensures forall post | post in posts :: multiset(r)[post] == if InCategory(post, category) then multiset(posts)[post] else 0
  {
    if category == "" || category == "All" then posts else Seqs.Filter(posts, CategoryMatcher(category))
  }

  /** The singleton service object of src/services/dataService.ts, over the shared store. */
  class DataService {
    const storage: Storage

    constructor(storage: Storage)
      ensures this.storage == storage
    {
      this.storage := storage;
    }

    method GetFromCache(key: string, now: int) returns (r: Result<Json, Error>)
      modifies storage
      ensures Read(r, storage.items) == ReadCache(old(storage.items), key, now)
    {
      if !Holds(storage.items, key) {
        return Ok(Null);
      }
      var item := storage.items[key];
      if item.Garbled? {
        return Err(CorruptEntry);
      }
      if ExpiredAt(item, now) {
        storage.RemoveItem(key);
        return Ok(Null);
      }
      return Ok(StoredData(item));
    }

    method SaveToCache(key: string, data: Json, now: int, fits: bool)
      modifies storage
      ensures storage.items == Saved(old(storage.items), key, data, now, fits)
    {
      var entry := CacheEntry(data, now, now + CacheExpiry);
      var _ := storage.SetItem(key, entry, fits);
    }

    /** `fetchData(endpoint)` at time `now`, with `net` as what the request would yield and `fits` as the quota verdict for the write; `request` is the URL requested, if any. */
    method FetchData(endpoint: string, now: int, net: Network, fits: bool) returns (r: Result<Json, Error>, request: Option<string>)
      modifies storage
      ensures FetchStep(r, storage.items, request) == Fetch(old(storage.items), endpoint, now, net, fits)
    {
      var key := CacheKey(endpoint);
      var cached := GetFromCache(key, now);
      if cached.Err? || Truthy(cached.value) {
        return cached, None;
      }
      request := Some(DataUrl(endpoint));
      match net {
        case Delivered(body) =>
          SaveToCache(key, body, now, fits);
          r := Ok(body);
        case Failed =>
          if !Holds(storage.items, key) {
            r := Err(FetchFailed);
          } else if storage.items[key].Garbled? {
            r := Err(CorruptEntry);
          } else {
            r := Ok(StoredData(storage.items[key]));
          }
      }
    }

    /** `clearCache()`: one pass over a snapshot of the keys, removing those with the cache prefix. */
    method ClearCache()
      modifies storage
      ensures storage.items == Cleared(old(storage.items))
    {
      var keys := storage.items.Keys;
      ghost var start := storage.items;
      while keys != {}
        invariant keys <= start.Keys
        invariant storage.items == map k | k in start && (k in keys || !StartsWith(k, KeyPrefix)) :: start[k]
        decreases keys
      {
        var key :| key in keys;
        if StartsWith(key, KeyPrefix) {
          storage.RemoveItem(key);
        }
        keys := keys - {key};
      }
    }

    method GetBlogPosts(now: int, net: Network, fits: bool) returns (r: Result<Json, Error>, request: Option<string>)
      modifies storage
      ensures FetchStep(r, storage.items, request) == Fetch(old(storage.items), "blogs", now, net, fits)
    {
      r, request := FetchData("blogs", now, net, fits);
    }
  }
}
