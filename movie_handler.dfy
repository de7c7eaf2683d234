/** The public catalog endpoints: three paged listings and the movie detail. The page
    comes from the query string with "1" as its default and is parsed without checking
    the error; search and genre default to the empty string, which means "no filter". */
module MovieHandler {
  import opened Wrappers
  import opened GoInt
  import opened Models
  import opened RedisUtil
  import opened MovieRepo
  import opened Http

  /** The page the listings ask for: `strconv.Atoi(ctx.DefaultQuery("page", "1"))` with
      the error dropped. */
  function PageOf(param: Option<string>): (page: int)
    ensures InInt64(page)
  {
    Atoi(DefaultQuery(param, "1")).value
  }

  /** Without a `page` parameter the first page is served. */
  lemma PageDefaultsToOne()
    ensures PageOf(None) == 1
    ensures Offset(PageOf(None), UpcomingPageSize) == 0 && Offset(PageOf(None), AllPageSize) == 0
  {
    AtoiFormatInt(1);
    assert FormatInt(1) == "1";
  }

  /** A page written as a decimal number is the page asked for. */
  lemma PageAsWritten(n: int)
    requires InInt64(n)
    ensures PageOf(Some(FormatInt(n))) == n
  {
    AtoiFormatInt(n);
  }

  /** A `page` that is not a number (including an empty one) becomes page 0, whose offset
      is one page before the start. */
  lemma MalformedPageIsZero(param: string, pageSize: int)
    requires Atoi(param).err == Some(ErrSyntax) && 0 < pageSize <= AllPageSize
    ensures PageOf(Some(param)) == 0
    ensures Offset(PageOf(Some(param)), pageSize) == -pageSize
  {
    OffsetOfPage(0, pageSize);
  }

  /** With such a page the database rejects the listing query for its negative
      `OFFSET`, but the source's loop never reads that error: every listing succeeds with
      no rows, whatever the table holds. */
  lemma MalformedPageServesEmpty(db: seq<Movie>, now: int, search: string, genre: string, param: string, io: Io)
    requires Atoi(param).err == Some(ErrSyntax) && !io.db.StartFails?
    ensures UpcomingFetch(db, now, PageOf(Some(param)), io) == Ok([])
    ensures PopularFetch(db, PageOf(Some(param)), io) == Ok([])
    ensures AllFetch(db, PageOf(Some(param)), search, genre, io) == Ok([])
  {
    MalformedPageIsZero(param, UpcomingPageSize);
    MalformedPageIsZero(param, PopularPageSize);
    MalformedPageIsZero(param, AllPageSize);
  }

  /** On a cache miss, that empty page is what the upcoming listing answers, and it is
      written to the cache under page 0 for five minutes, so later requests for page 0
      get it too. */
  lemma MalformedPageCachedEmpty(entries: map<string, Entry>, db: seq<Movie>, now: int, param: string, io: Io)
    requires Atoi(param).err == Some(ErrSyntax) && !io.db.StartFails?
    requires !ReadOutcome(entries, UpcomingKey(0), ListShape, io.get).found
    requires !io.refuses && io.setFault.None?
    ensures var a := CacheAside(entries, UpcomingKey(PageOf(Some(param))), ListShape,
                                AsList(UpcomingFetch(db, now, PageOf(Some(param)), io)), io);
      a.result == Ok(MovieList([])) && a.queried &&
      UpcomingKey(0) in a.entries && a.entries[UpcomingKey(0)] == Entry(Json(MovieList([])), CacheTtlSeconds)
  {
    MalformedPageServesEmpty(db, now, "", "", param, io);
  }

  /** With the stream's error checked, such a page makes every listing query fail. */
  lemma MalformedPageFails(sorted: seq<Movie>, pageSize: int, param: string, io: Io)
    requires Atoi(param).err == Some(ErrSyntax) && !io.db.StartFails? && 0 < pageSize <= AllPageSize
    ensures FetchedCorrected(sorted, pageSize, Offset(PageOf(Some(param)), pageSize), io) == Err(NegativeOffset)
  {
    MalformedPageIsZero(param, pageSize);
  }

  /** Absent `search` and `genre` parameters filter nothing: every movie is admitted
      with all its genres. */
  lemma AbsentFiltersAdmitAll(m: Movie)
    ensures Admits(TitleAndGenre(DefaultQuery(None, ""), DefaultQuery(None, "")), m)
    ensures Grouped(TitleAndGenre(DefaultQuery(None, ""), DefaultQuery(None, "")), m) == m
  {
  }

  class MovieHandler {
    const repo: MovieRepository

    constructor (repo: MovieRepository)
      ensures this.repo == repo
    {
      this.repo := repo;
    }

    /** `GetUpcomingMovies`. */
    method GetUpcomingMovies(pageParam: Option<string>, now: int, io: Io) returns (resp: Response<seq<Movie>>)
      modifies repo.redis
      ensures var page := PageOf(pageParam);
        var a := CacheAside(old(repo.redis.entries), UpcomingKey(page), ListShape, AsList(UpcomingFetch(repo.db, now, page, io)), io);
        repo.redis.entries == a.entries &&
        (resp.success <==> a.result.Ok?) &&
        (resp.success ==> resp.code == StatusOK && resp.data.Some? && a.result == Ok(MovieList(resp.data.value))) &&
        (!resp.success ==> resp == Failure(StatusInternalServerError, "Failed to fetch upcoming movies"))
    {
      var page := Atoi(DefaultQuery(pageParam, "1")).value;
      var movies, _ := repo.GetUpcomingMovies(page, now, io);
      if movies.Err? {
        return Failure(StatusInternalServerError, "Failed to fetch upcoming movies");
      }
      return Success(StatusOK, "", Some(movies.value));
    }

    /** `GetPopularMovies`. */
    method GetPopularMovies(pageParam: Option<string>, io: Io) returns (resp: Response<seq<Movie>>)
      modifies repo.redis
      ensures var page := PageOf(pageParam);
        var a := CacheAside(old(repo.redis.entries), PopularKey(page), ListShape, AsList(PopularFetch(repo.db, page, io)), io);
        repo.redis.entries == a.entries &&
        (resp.success <==> a.result.Ok?) &&
        (resp.success ==> resp.code == StatusOK && resp.data.Some? && a.result == Ok(MovieList(resp.data.value))) &&
        (!resp.success ==> resp == Failure(StatusInternalServerError, "Failed to fetch popular movies"))
    {
      var page := Atoi(DefaultQuery(pageParam, "1")).value;
      var movies, _ := repo.GetPopularMovies(page, io);
      if movies.Err? {
        return Failure(StatusInternalServerError, "Failed to fetch popular movies");
      }
      return Success(StatusOK, "", Some(movies.value));
    }

    /** `GetAllMovies`. */
    method GetAllMovies(pageParam: Option<string>, searchParam: Option<string>, genreParam: Option<string>, io: Io)
      returns (resp: Response<seq<Movie>>)
      modifies repo.redis
      ensures var page, search, genre := PageOf(pageParam), DefaultQuery(searchParam, ""), DefaultQuery(genreParam, "");
        var a := CacheAside(old(repo.redis.entries), AllKey(page, search, genre), ListShape,
                            AsList(AllFetch(repo.db, page, search, genre, io)), io);
        repo.redis.entries == a.entries &&
        (resp.success <==> a.result.Ok?) &&
        (resp.success ==> resp.code == StatusOK && resp.data.Some? && a.result == Ok(MovieList(resp.data.value))) &&
        (!resp.success ==> resp == Failure(StatusInternalServerError, "Failed to fetch movies"))
    {
      var page := Atoi(DefaultQuery(pageParam, "1")).value;
      var search := DefaultQuery(searchParam, "");
      var genre := DefaultQuery(genreParam, "");
      var movies, _ := repo.GetAllMovies(page, search, genre, io);
      if movies.Err? {
        return Failure(StatusInternalServerError, "Failed to fetch movies");
      }
      return Success(StatusOK, "", Some(movies.value));
    }

    /** `GetMovieDetail`: 400 for an id that is not an integer, before the repository is
        asked; 404 for any repository error. */
    method GetMovieDetail(idParam: string, io: Io) returns (resp: Response<Movie>, asked: bool)
      modifies repo.redis
      ensures asked <==> Atoi(idParam).err.None?
      ensures !asked ==> resp == Failure(StatusBadRequest, "Invalid movie ID") && repo.redis.entries == old(repo.redis.entries)
      ensures asked ==>
        var id := Atoi(idParam).value;
        var a := CacheAside(old(repo.redis.entries), DetailKey(id), ItemShape, DetailAsItem(DetailFetch(repo.db, id, io)), io);
        repo.redis.entries == a.entries &&
        (resp.success <==> a.result.Ok?) &&
        (resp.success ==> resp.code == StatusOK && resp.data.Some? && a.result == Ok(MovieItem(resp.data.value))) &&
        (!resp.success ==> resp == Failure(StatusNotFound, "Movie not found"))
    {
      var parsed := Atoi(idParam);
      if parsed.err.Some? {
        return Failure(StatusBadRequest, "Invalid movie ID"), false;
      }
      var movie, _ := repo.GetMovieDetail(parsed.value, io);
      if movie.Err? {
        return Failure(StatusNotFound, "Movie not found"), true;
      }
      return Success(StatusOK, "", Some(movie.value)), true;
    }
  }
}
