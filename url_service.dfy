/**
 * UrlShortenerService: shortens URLs through the DAL, resolves tokens through a
 * read-through cache in front of the DAL, and delegates delete and redirect counting.
 * The token generator is an oracle: `generated` is what generateToken() returns if the
 * service calls it.
 */
module Service {
  import opened Wrappers
  import opened Dal
  import opened Cache

  const BaseUrl: string := "http://localhost:8080/"

  /** BASE_URL + token. */
  function ShortUrl(token: string): (s: string)
    ensures |s| == |BaseUrl| + |token|
    ensures s[..|BaseUrl|] == BaseUrl && s[|BaseUrl|..] == token
  {
    BaseUrl + token
  }

  /** Two tokens give the same short URL only if they are the same token. */
  lemma ShortUrlInjective(a: string, b: string)
    ensures ShortUrl(a) == ShortUrl(b) <==> a == b
  {
  }

  class UrlShortenerService {
    const dal: UrlShortenerDAL
    const cache: OriginalUrlCache

    constructor (dal: UrlShortenerDAL, cache: OriginalUrlCache)
      ensures this.dal == dal && this.cache == cache
    {
      this.dal := dal;
      this.cache := cache;
    }

    /** Every cached entry is what the store resolves its token to. */
    ghost predicate CacheCoherent()
      reads dal, cache
    {
      forall t :: t in cache.entries ==> dal.GetOriginalUrl(t) == Some(cache.entries[t])
    }

    /**
     * getOriginalUrl: a cache hit is returned as it is; on a miss the store's answer is
     * returned and cached, unless it is null.
     */
    method GetOriginalUrl(token: string) returns (r: Option<string>)
      modifies cache
      ensures old(token in cache.entries) ==>
                r == Some(old(cache.entries)[token]) && cache.entries == old(cache.entries)
      ensures old(token !in cache.entries) ==> r == dal.GetOriginalUrl(token)
      ensures old(token !in cache.entries) && r.Some? ==> cache.entries == old(cache.entries)[token := r.value]
      ensures r == None ==> cache.entries == old(cache.entries) && token !in cache.entries
      ensures old(CacheCoherent()) ==> r == dal.GetOriginalUrl(token) && CacheCoherent()
    {
      var originalUrl := cache.GetIfPresent(token);
      if originalUrl == None {
        originalUrl := dal.GetOriginalUrl(token);
        if originalUrl != None {
          cache.Put(token, originalUrl.value);
        }
      }
      r := originalUrl;
    }

    /**
     * shortenUrl: an unknown URL gets a new row and a new token; a known URL keeps its
     * token; a known URL without a token gets a new one. `token` is the token the short
     * URL is made of, `drewToken` whether generateToken() was called.
     */
    method ShortenUrl(longUrl: string, generated: string)
      returns (r: Result<string, DataAccessError>, ghost token: string, ghost drewToken: bool)
      requires dal.Valid()
      modifies dal
      ensures dal.Valid()
      ensures r.Success? ==> r.value == ShortUrl(token) && dal.GetOriginalUrl(token) == Some(longUrl)
      ensures r.Success? ==> token in dal.TokensOf(dal.GetOriginalUrlId(longUrl))
      ensures drewToken <==> old(dal.GetOriginalUrlId(longUrl)) == NotFound
                             || old(dal.GetOriginalUrlId(longUrl)) !in old(dal.tokens.Values)
      // an unknown URL: its row is inserted, and stays even when the mapping fails
      ensures longUrl !in old(dal.originalUrls.Values) ==>
                && dal.originalUrls == old(dal.originalUrls)[old(dal.nextId) := longUrl]
                && dal.nextId == old(dal.nextId) + 1
                && (generated in old(dal.tokens) ==>
                      r == Failure(DataAccessError("Error inserting new URL mapping into database"))
                      && dal.tokens == old(dal.tokens))
                && (generated !in old(dal.tokens) ==>
                      r == Success(ShortUrl(generated)) && token == generated
                      && dal.tokens == old(dal.tokens)[generated := old(dal.nextId)])
      // a known URL with a token: that token, and nothing changes
      ensures var id := old(dal.GetOriginalUrlId(longUrl));
              id != NotFound && id in old(dal.tokens.Values) ==>
                && r.Success? && token in old(dal.tokens) && old(dal.tokens)[token] == id
                && dal.tokens == old(dal.tokens) && dal.originalUrls == old(dal.originalUrls)
                && dal.nextId == old(dal.nextId)
      // a known URL without a token: one new mapping to the existing row
      ensures var id := old(dal.GetOriginalUrlId(longUrl));
              id != NotFound && id !in old(dal.tokens.Values) ==>
                && dal.originalUrls == old(dal.originalUrls) && dal.nextId == old(dal.nextId)
                && (generated in old(dal.tokens) ==>
                      r == Failure(DataAccessError("Error inserting new URL mapping into database"))
                      && dal.tokens == old(dal.tokens))
                && (generated !in old(dal.tokens) ==>
                      r == Success(ShortUrl(generated)) && token == generated
                      && dal.tokens == old(dal.tokens)[generated := id])
      // no token that resolved before resolves differently afterwards
      ensures forall t :: old(dal.GetOriginalUrl(t)).Some? ==> dal.GetOriginalUrl(t) == old(dal.GetOriginalUrl(t))
      ensures dal.redirectCounts == old(dal.redirectCounts)
      ensures old(dal.Consistent()) ==> dal.Consistent()
      ensures old(dal.Consistent()) && r.Success? ==> dal.TokensOf(dal.GetOriginalUrlId(longUrl)) == {token}
    {
      var originalUrlId := dal.GetOriginalUrlId(longUrl);
      var chosen: string;
      if originalUrlId == NotFound {
        chosen, drewToken := generated, true;
        var inserted := dal.InsertOriginalUrl(longUrl);
        match inserted
        case Failure(e) =>
          r := Failure(e);
        case Success(id) =>
          var mapped := dal.InsertUrlMapping(chosen, id);
          r := if mapped.Pass? then Success(ShortUrl(chosen)) else Failure(mapped.error);
      } else {
        var existing := dal.GetTokenForOriginalUrl(originalUrlId);
        if existing == None {
          chosen, drewToken := generated, true;
          var mapped := dal.InsertUrlMapping(chosen, originalUrlId);
          r := if mapped.Pass? then Success(ShortUrl(chosen)) else Failure(mapped.error);
        } else {
          chosen, drewToken := existing.value, false;
          r := Success(ShortUrl(chosen));
        }
      }
      token := chosen;
    }

    /** deleteShortUrl: the store's transactional delete; the cache is not touched. */
    method DeleteShortUrl(token: string) returns (deleted: bool)
      requires dal.Valid()
      modifies dal
      ensures dal.Valid()
      ensures deleted <==> old(dal.GetOriginalUrl(token)).Some?
      ensures deleted ==> dal.GetOriginalUrl(token) == None
      ensures deleted ==> dal.tokens == old(dal.tokens) - {token}
                          && dal.originalUrls == old(dal.originalUrls) - {old(dal.tokens)[token]}
      ensures !deleted ==> dal.tokens == old(dal.tokens) && dal.originalUrls == old(dal.originalUrls)
      ensures dal.redirectCounts == old(dal.redirectCounts) && dal.nextId == old(dal.nextId)
      ensures cache.entries == old(cache.entries)
      ensures old(dal.Consistent()) ==> dal.Consistent()
    {
      deleted := dal.DeleteShortUrl(token);
    }

    /** incrementRedirectCount: delegated to the store. */
    method IncrementRedirectCount(originalUrl: string)
      requires dal.Valid()
      modifies dal
      ensures dal.Valid()
      ensures dal.RedirectCount(originalUrl) == old(dal.RedirectCount(originalUrl)) + 1
      ensures forall u :: u != originalUrl ==> dal.RedirectCount(u) == old(dal.RedirectCount(u))
      ensures dal.originalUrls == old(dal.originalUrls) && dal.tokens == old(dal.tokens)
      ensures dal.nextId == old(dal.nextId)
      ensures cache.entries == old(cache.entries)
    {
      dal.IncrementRedirectCount(originalUrl);
    }
  }

  /** Shortening the same URL twice, with no delete in between, gives the same short URL. */
  method ShortenTwice(service: UrlShortenerService, longUrl: string, first: string, second: string)
    returns (r1: Result<string, DataAccessError>, r2: Result<string, DataAccessError>)
    requires service.dal.Valid() && service.dal.Consistent()
    modifies service.dal
    ensures r1.Success? ==> r2 == r1
  {
    ghost var t1, t2: string;
    ghost var d1, d2: bool;
    r1, t1, d1 := service.ShortenUrl(longUrl, first);
    r2, t2, d2 := service.ShortenUrl(longUrl, second);
  }

  /**
   * Shorten, resolve, delete: the store forgets the token and a second delete fails, but
   * the resolve cached the URL, so the service keeps answering with it until the entry is
   * evicted (`evictFirst` evicts it before the last resolve).
   */
  method ShortenResolveDelete(service: UrlShortenerService, longUrl: string, generated: string, evictFirst: bool)
    returns (shortened: Result<string, DataAccessError>, resolved: Option<string>,
             deleted: bool, deletedAgain: bool, resolvedAfter: Option<string>)
    requires service.dal.Valid() && service.dal.Consistent() && service.CacheCoherent()
    modifies service.dal, service.cache
    ensures shortened.Success? ==> resolved == Some(longUrl) && deleted && !deletedAgain
    ensures shortened.Success? ==> resolvedAfter == if evictFirst then None else Some(longUrl)
  {
    ghost var chosen: string;
    ghost var drew: bool;
    shortened, chosen, drew := service.ShortenUrl(longUrl, generated);
    if shortened.Success? {
      // the path segment after BASE_URL
      var token := shortened.value[|BaseUrl|..];
      resolved := service.GetOriginalUrl(token);
      deleted := service.DeleteShortUrl(token);
      deletedAgain := service.DeleteShortUrl(token);
      if evictFirst {
        service.cache.Evict({token});
      }
      resolvedAfter := service.GetOriginalUrl(token);
    } else {
      resolved, deleted, deletedAgain, resolvedAfter := None, false, false, None;
    }
  }

  /**
   * A token re-issued after a delete: URL a is shortened to the generated token and
   * resolved (so cached), the token is deleted, and URL b is then shortened to the same
   * generated token. The store resolves the token to b, but the service answers with the
   * cached a until the entry is evicted.
   */
  method ReissuedTokenServesCachedUrl(service: UrlShortenerService, a: string, b: string, generated: string)
    returns (shortenedA: Result<string, DataAccessError>, deleted: bool,
             shortenedB: Result<string, DataAccessError>, resolvedAfter: Option<string>)
    requires service.dal.Valid() && service.dal.Consistent() && service.CacheCoherent()
    modifies service.dal, service.cache
    ensures shortenedA == Success(ShortUrl(generated)) ==> deleted
    ensures shortenedA == Success(ShortUrl(generated)) && shortenedB == Success(ShortUrl(generated)) ==>
              resolvedAfter == Some(a) && service.dal.GetOriginalUrl(generated) == Some(b)
  {
    ghost var tokenA, tokenB: string;
    ghost var drewA, drewB: bool;
    shortenedA, tokenA, drewA := service.ShortenUrl(a, generated);
    ShortUrlInjective(tokenA, generated);
    var resolved := service.GetOriginalUrl(generated);
    deleted := service.DeleteShortUrl(generated);
    shortenedB, tokenB, drewB := service.ShortenUrl(b, generated);
    ShortUrlInjective(tokenB, generated);
    resolvedAfter := service.GetOriginalUrl(generated);
  }
}
