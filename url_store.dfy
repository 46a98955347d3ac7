/**
 * UrlShortenerDAL: the data-access layer over three SQL tables, modelled by their contents.
 *
 *   original_urls(id INTEGER PRIMARY KEY AUTOINCREMENT, long_url TEXT NOT NULL UNIQUE, expiration_date)
 *   tokens(token TEXT PRIMARY KEY, original_url_id INTEGER NOT NULL)
 *   redirect_analytics(original_url, redirect_count)
 *
 * The DAL writes expiration_date on insert but never reads it; the model leaves that
 * column out. The schema of redirect_analytics is assumed, not declared: original_url is taken to be
 * its primary key, so INSERT OR REPLACE updates the URL's one row.
 *
 * Each SQL statement is one step on these maps. A statement that violates a key
 * constraint changes nothing and raises UrlShortenerDataAccessException, modelled as
 * a Failure carrying the message handleSQLException is given. The foreign key of
 * tokens.original_url_id is declared but not enforced (SQLite leaves it off unless
 * asked), so a mapping may point at a missing row.
 */
module Dal {
  import opened Wrappers

  /** UrlShortenerDataAccessException, with the message the DAL attaches. */
  datatype DataAccessError = DataAccessError(message: string)

  /** The id sentinel getOriginalUrlId and getOriginalUrlIdFromToken return for "no row". */
  const NotFound: int := -1

  class UrlShortenerDAL {
    /** original_urls: id -> long_url */
    var originalUrls: map<int, string>
    /** tokens: token -> original_url_id */
    var tokens: map<string, int>
    /** redirect_analytics: original_url -> redirect_count */
    var redirectCounts: map<string, int>
    /** The next id AUTOINCREMENT hands out: larger than every id ever used. */
    var nextId: int

    /** The table constraints: ids come from AUTOINCREMENT, long_url is UNIQUE, counts start at 1. */
    ghost predicate Valid()
      reads this
    {
      && 1 <= nextId
      && (forall id :: id in originalUrls ==> 1 <= id < nextId)
      && (forall i, j :: i in originalUrls && j in originalUrls && originalUrls[i] == originalUrls[j] ==> i == j)
      && (forall u :: u in redirectCounts ==> redirectCounts[u] >= 1)
    }

    /**
     * The state the service keeps: every mapping points at a live URL row, and a URL row
     * has at most one token.
     */
    ghost predicate Consistent()
      reads this
    {
      && (forall t :: t in tokens ==> tokens[t] in originalUrls)
      && (forall t1, t2 :: t1 in tokens && t2 in tokens && tokens[t1] == tokens[t2] ==> t1 == t2)
    }

    /** A database whose tables are created and empty. */
    constructor ()
      ensures Valid() && Consistent()
      ensures originalUrls == map[] && tokens == map[] && redirectCounts == map[]
      ensures nextId == 1
    {
      originalUrls, tokens, redirectCounts := map[], map[], map[];
      nextId := 1;
    }

    /**
     * getOriginalUrl: SELECT ou.long_url FROM original_urls ou JOIN tokens t
     * ON ou.id = t.original_url_id WHERE t.token = ?; None stands for null.
     */
    function GetOriginalUrl(token: string): (r: Option<string>)
      reads this
      ensures token !in tokens ==> r == None
      ensures r.Some? <==> token in tokens && tokens[token] in originalUrls
      ensures r.Some? ==> r.value in originalUrls.Values && originalUrls[tokens[token]] == r.value
    {
      if token in tokens && tokens[token] in originalUrls then Some(originalUrls[tokens[token]]) else None
    }

    /** getOriginalUrlId: SELECT id FROM original_urls WHERE long_url = ?, or -1. */
    function GetOriginalUrlId(longUrl: string): (id: int)
      requires Valid()
      reads this
      ensures id == NotFound <==> longUrl !in originalUrls.Values
      ensures id != NotFound ==> id in originalUrls && originalUrls[id] == longUrl
    {
      if exists id :: id in originalUrls && originalUrls[id] == longUrl then
        var id :| id in originalUrls && originalUrls[id] == longUrl; id
      else NotFound
    }

    /** The rows of tokens whose original_url_id is id. */
    function TokensOf(id: int): (rows: set<string>)
      reads this
      ensures forall t :: t in rows <==> t in tokens && tokens[t] == id
    {
      set t | t in tokens && tokens[t] == id
    }

    /** COALESCE((SELECT redirect_count FROM redirect_analytics WHERE original_url = ?), 0). */
    function RedirectCount(originalUrl: string): (n: int)
      reads this
      ensures originalUrl !in redirectCounts ==> n == 0
      ensures originalUrl in redirectCounts ==> n == redirectCounts[originalUrl]
    {
      if originalUrl in redirectCounts then redirectCounts[originalUrl] else 0
    }

    /**
     * getTokenForOriginalUrl: SELECT token FROM tokens WHERE original_url_id = ?, first row
     * or null. Without ORDER BY the first row is any matching row.
     */
    method GetTokenForOriginalUrl(originalUrlId: int) returns (r: Option<string>)
      ensures r == None <==> originalUrlId !in tokens.Values
      ensures r.Some? ==> r.value in tokens && tokens[r.value] == originalUrlId
      ensures Consistent() && r.Some? ==> TokensOf(originalUrlId) == {r.value}
    {
      if originalUrlId in tokens.Values {
        var token :| token in tokens && tokens[token] == originalUrlId;
        r := Some(token);
      } else {
        r := None;
      }
    }

    /**
     * insertOriginalUrl: INSERT INTO original_urls (long_url, ...) and return the generated id.
     * A long_url already present violates UNIQUE and changes nothing.
     */
    method InsertOriginalUrl(longUrl: string) returns (r: Result<int, DataAccessError>)
      requires Valid()
      modifies this
      ensures Valid()
      ensures longUrl in old(originalUrls.Values) ==>
                && r == Failure(DataAccessError("Error inserting original URL into database"))
                && originalUrls == old(originalUrls) && nextId == old(nextId)
      ensures longUrl !in old(originalUrls.Values) ==>
                && r == Success(old(nextId))
                && old(nextId) !in old(originalUrls)
                && originalUrls == old(originalUrls)[old(nextId) := longUrl]
                && nextId == old(nextId) + 1
      ensures r.Success? ==> GetOriginalUrlId(longUrl) == r.value
      ensures tokens == old(tokens) && redirectCounts == old(redirectCounts)
      ensures old(Consistent()) ==> Consistent()
    {
      if longUrl in originalUrls.Values {
        r := Failure(DataAccessError("Error inserting original URL into database"));
      } else {
        var id := nextId;
        originalUrls := originalUrls[id := longUrl];
        nextId := nextId + 1;
        r := Success(id);
        assert originalUrls[id] == longUrl;
      }
    }

    /**
     * insertUrlMapping: INSERT INTO tokens (token, original_url_id). A token already
     * present violates the primary key and changes nothing; the id is not checked.
     */
    method InsertUrlMapping(token: string, originalUrlId: int) returns (o: Outcome<DataAccessError>)
      requires Valid()
      modifies this
      ensures Valid()
      ensures token in old(tokens) ==>
                o == Fail(DataAccessError("Error inserting new URL mapping into database")) && tokens == old(tokens)
      ensures token !in old(tokens) ==> o == Pass && tokens == old(tokens)[token := originalUrlId]
      ensures o.Pass? && originalUrlId in originalUrls ==> GetOriginalUrl(token) == Some(originalUrls[originalUrlId])
      ensures originalUrls == old(originalUrls) && redirectCounts == old(redirectCounts) && nextId == old(nextId)
      ensures old(Consistent()) && originalUrlId in originalUrls && originalUrlId !in old(tokens.Values) ==> Consistent()
    {
      if token in tokens {
        o := Fail(DataAccessError("Error inserting new URL mapping into database"));
      } else {
        tokens := tokens[token := originalUrlId];
        o := Pass;
      }
    }

    /**
     * updateToken: UPDATE tokens SET token = ? WHERE original_url_id = ?. Every matching row
     * is renamed; two matching rows, or a new token another row already has, violate the
     * primary key and the statement changes nothing.
     */
    method UpdateToken(token: string, originalUrlId: int) returns (o: Outcome<DataAccessError>)
      requires Valid()
      modifies this
      ensures Valid()
      ensures old(TokensOf(originalUrlId)) == {} ==> o == Pass && tokens == old(tokens)
      ensures o.Fail? <==>
                old(TokensOf(originalUrlId)) != {} &&
                (|old(TokensOf(originalUrlId))| > 1 || token in old(tokens) - old(TokensOf(originalUrlId)))
      ensures o.Fail? ==> o.error == DataAccessError("Error updating token") && tokens == old(tokens)
      ensures o.Pass? && old(TokensOf(originalUrlId)) != {} ==>
                tokens == (old(tokens) - old(TokensOf(originalUrlId)))[token := originalUrlId]
      ensures o.Pass? && old(TokensOf(originalUrlId)) != {} ==> TokensOf(originalUrlId) == {token}
      ensures originalUrls == old(originalUrls) && redirectCounts == old(redirectCounts) && nextId == old(nextId)
      ensures old(Consistent()) ==> Consistent()
    {
      var rows := TokensOf(originalUrlId);
      if rows == {} {
        o := Pass;
      } else if |rows| > 1 || token in tokens - rows {
        o := Fail(DataAccessError("Error updating token"));
      } else {
        tokens := (tokens - rows)[token := originalUrlId];
        o := Pass;
      }
    }

    /**
     * deleteShortUrl: in one transaction, look up the token's original_url_id, delete the
     * mapping row and then the URL row; commit only if both deletes removed a row,
     * otherwise roll back to the state the transaction began in.
     */
    method DeleteShortUrl(token: string) returns (deleted: bool)
      requires Valid()
      modifies this
      ensures Valid()
      ensures deleted <==> old(GetOriginalUrl(token)).Some?
      ensures deleted ==>
                && tokens == old(tokens) - {token}
                && originalUrls == old(originalUrls) - {old(tokens)[token]}
      ensures !deleted ==> tokens == old(tokens) && originalUrls == old(originalUrls)
      ensures deleted ==> GetOriginalUrl(token) == None
      ensures deleted ==> GetOriginalUrlId(old(GetOriginalUrl(token)).value) == NotFound
      ensures redirectCounts == old(redirectCounts) && nextId == old(nextId)
      ensures old(Consistent()) ==> Consistent()
      ensures old(Consistent()) ==> (deleted <==> token in old(tokens))
    {
      // setAutoCommit(false): the state a rollback returns to
      var savedTokens, savedUrls := tokens, originalUrls;
      // getOriginalUrlIdFromToken
      var originalUrlId := if token in tokens then tokens[token] else NotFound;
      if originalUrlId != NotFound {
        // deleteMappingEntry: DELETE FROM tokens WHERE token = ?
        var mappingDeleted := token in tokens;
        tokens := tokens - {token};
        // deleteOriginalUrlEntry: DELETE FROM original_urls WHERE id = ?
        var originalUrlDeleted := originalUrlId in originalUrls;
        originalUrls := originalUrls - {originalUrlId};
        if mappingDeleted && originalUrlDeleted {
          deleted := true;
        } else {
          tokens, originalUrls := savedTokens, savedUrls;
          deleted := false;
        }
      } else {
        deleted := false;
      }
    }

    /**
     * incrementRedirectCount: INSERT OR REPLACE INTO redirect_analytics the previous count
     * (0 when absent) plus one.
     */
    method IncrementRedirectCount(originalUrl: string)
      requires Valid()
      modifies this
      ensures Valid()
      ensures RedirectCount(originalUrl) == old(RedirectCount(originalUrl)) + 1
      ensures forall u :: u != originalUrl ==> RedirectCount(u) == old(RedirectCount(u))
      ensures redirectCounts.Keys == old(redirectCounts.Keys) + {originalUrl}
      ensures originalUrls == old(originalUrls) && tokens == old(tokens) && nextId == old(nextId)
    {
      redirectCounts := redirectCounts[originalUrl := RedirectCount(originalUrl) + 1];
    }
  }
}
