/** The catalog repository: the four listings (`GetUpcomingMovies`, `GetPopularMovies`,
    `GetAllMovies`, `GetMovieDetail`), each a cache-aside read: look the key up in Redis,
    return a hit at once, otherwise ask the database, and write a successful answer back
    for five minutes.

    The database is an abstract movie table; each query is modelled by what the server
    answers (filter, order, `LIMIT`/`OFFSET`), and how the connection behaves is an input
    (`DbFault`). The server answers in two steps, as the driver reports them: an error in
    starting the query comes back from `Query`, an error while rows stream in ends the
    `rows.Next()` loop and is kept in `rows.Err()`. */
module MovieRepo {
  import opened Wrappers
  import opened GoInt
  import opened Text
  import opened Models
  import opened RedisUtil

  const UpcomingPageSize: int := 4
  const PopularPageSize: int := 4
  const AllPageSize: int := 12
  /** `5*time.Minute`, in seconds. */
  const CacheTtlSeconds: int := 300

  // ---------------------------------------------------------------- offsets

  /** `offset := (page - 1) * pageSize`, evaluated in Go's 64-bit `int`. The page number
      is not validated. */
  function Offset(page: int, pageSize: int): (r: int)
    requires InInt64(page) && 0 < pageSize <= AllPageSize
    ensures InInt64(r)
    ensures InInt64((page - 1) * pageSize) ==> r == (page - 1) * pageSize
  {
    assert page - 1 < MinInt64 ==> (page - 1) * pageSize <= page - 1;
    Wrap64(Wrap64(page - 1) * pageSize)
  }

  /** Page 1 starts at row 0 and each further page one page size later; page 0 and the
      negative pages that Go's arithmetic does not wrap give a negative offset. */
  lemma OffsetOfPage(page: int, pageSize: int)
    requires -0x0800_0000_0000_0000 <= page <= 0x0800_0000_0000_0000 && 0 < pageSize <= AllPageSize
    ensures Offset(page, pageSize) == (page - 1) * pageSize
    ensures page >= 1 ==> Offset(page, pageSize) >= 0
    ensures page <= 0 ==> Offset(page, pageSize) <= -pageSize
  {
    ProductFits(page - 1, pageSize);
  }

  /** The products `OffsetOfPage` forms stay inside Go's `int` range, with the sign of
      the page offset `k`. */
  lemma ProductFits(k: int, m: int)
    requires -0x0800_0000_0000_0001 <= k < 0x0800_0000_0000_0000 && 0 < m <= AllPageSize
    ensures InInt64(k * m)
    ensures k >= 0 ==> k * m >= 0
    ensures k < 0 ==> k * m <= -m
  {
    var n := if k >= 0 then k else -k;
    ScaledBound(n, m);
    assert k * m == (if k >= 0 then n * m else -(n * m));
  }

  lemma ScaledBound(n: nat, m: int)
    requires 0 < m <= AllPageSize
    ensures 0 <= n * m <= n * AllPageSize
    ensures n >= 1 ==> n * m >= m
  {
    assert n * AllPageSize - n * m == n * (AllPageSize - m);
    assert n * m - m == (n - 1) * m;
  }

  /** Go's multiplication wraps: page 2^62 + 1 of a 4-row listing starts at row 0 again. */
  lemma HugePageWrapsToFirst()
    ensures Offset(0x4000_0000_0000_0001, UpcomingPageSize) == 0
  {
  }

  // ---------------------------------------------------------------- cache keys

  /** `fmt.Sprintf("movies:upcoming:page:%d", page)`. */
  function UpcomingKey(page: int): string {
    "movies:upcoming:page:" + FormatInt(page)
  }

  /** `fmt.Sprintf("movies:popular:page:%d", page)`. */
  function PopularKey(page: int): string {
    "movies:popular:page:" + FormatInt(page)
  }

  /** `fmt.Sprintf("movies:all:page:%d:search:%s:genre:%s", page, search, genreName)`. */
  function AllKey(page: int, search: string, genre: string): string {
    "movies:all:page:" + FormatInt(page) + ":search:" + search + ":genre:" + genre
  }

  /** `fmt.Sprintf("movies:detail:%d", id)`. */
  function DetailKey(id: int): string {
    "movies:detail:" + FormatInt(id)
  }

  lemma SuffixAfter(p: string, a: string, b: string)
    requires p + a == p + b
    ensures a == b
  {
    assert a == (p + a)[|p|..];
    assert b == (p + b)[|p|..];
  }

  /** The upcoming, popular and detail keys determine their page or id. */
  lemma NumberedKeysInjective(a: int, b: int)
    ensures UpcomingKey(a) == UpcomingKey(b) ==> a == b
    ensures PopularKey(a) == PopularKey(b) ==> a == b
    ensures DetailKey(a) == DetailKey(b) ==> a == b
  {
    if UpcomingKey(a) == UpcomingKey(b) {
      SuffixAfter("movies:upcoming:page:", FormatInt(a), FormatInt(b));
      FormatIntInjective(a, b);
    }
    if PopularKey(a) == PopularKey(b) {
      SuffixAfter("movies:popular:page:", FormatInt(a), FormatInt(b));
      FormatIntInjective(a, b);
    }
    if DetailKey(a) == DetailKey(b) {
      SuffixAfter("movies:detail:", FormatInt(a), FormatInt(b));
      FormatIntInjective(a, b);
    }
  }

  /** The four key families never share a key: each names its listing right after
      "movies:", so no listing reads another's entry. */
  lemma KeyFamiliesDisjoint(p: int, q: int, r: int, search: string, genre: string, id: int)
    ensures UpcomingKey(p) != PopularKey(q)
    ensures UpcomingKey(p) != AllKey(r, search, genre) && PopularKey(q) != AllKey(r, search, genre)
    ensures DetailKey(id) != UpcomingKey(p) && DetailKey(id) != PopularKey(q)
    ensures DetailKey(id) != AllKey(r, search, genre)
  {
    assert UpcomingKey(p)[7] == 'u';
    assert PopularKey(q)[7] == 'p';
    assert AllKey(r, search, genre)[7] == 'a';
    assert DetailKey(id)[7] == 'd';
  }

  /** The general-listing key is not injective: a search term containing ":genre:" can
      produce the key of a different (search, genre) pair, which then reads that pair's
      cached page. */
  lemma AllKeyCollides(page: int, a: string, b: string)
    ensures AllKey(page, a + ":genre:" + b, "") == AllKey(page, a, b + ":genre:")
  {
  }

  // ---------------------------------------------------------------- the database

  /** The `ORDER BY` of each listing, as a rank compared ascending. */
  datatype Order = ReleaseAsc | PopularityDesc | ReleaseDesc

  function Rank(o: Order, m: Movie): int
  {
    match o
    case ReleaseAsc => m.releaseDate
    case PopularityDesc => -m.popularity
    case ReleaseDesc => -m.releaseDate
  }

  predicate Ordered(s: seq<Movie>, o: Order) {
    forall i, j :: 0 <= i < j < |s| ==> Rank(o, s[i]) <= Rank(o, s[j])
  }

  /** In an ordered sequence the first element ranks no higher than any element. */
  lemma HeadIsLeast(s: seq<Movie>, o: Order)
    requires Ordered(s, o) && s != []
    ensures forall x :: x in s ==> Rank(o, s[0]) <= Rank(o, x)
  {
    forall x | x in s ensures Rank(o, s[0]) <= Rank(o, x) {
      var j :| 0 <= j < |s| && s[j] == x;
      if j > 0 {
        assert Rank(o, s[0]) <= Rank(o, s[j]);
      }
    }
  }

  /** Putting an element ranked no higher than every element of an ordered sequence in
      front of it keeps it ordered. */
  lemma PrependOrdered(a: Movie, t: seq<Movie>, o: Order)
    requires Ordered(t, o) && forall x :: x in t ==> Rank(o, a) <= Rank(o, x)
    ensures Ordered([a] + t, o)
  {
    var s := [a] + t;
    forall i, j | 0 <= i < j < |s| ensures Rank(o, s[i]) <= Rank(o, s[j]) {
      assert s[j] == t[j - 1];
      if i == 0 {
        assert t[j - 1] in t;
      } else {
        assert s[i] == t[i - 1];
      }
    }
  }

  function Insert(m: Movie, s: seq<Movie>, o: Order): (r: seq<Movie>)
    requires Ordered(s, o)
    ensures Ordered(r, o) && multiset(r) == multiset(s) + multiset{m}
  {
    if s == [] then [m]
    else if Rank(o, m) <= Rank(o, s[0]) then
      HeadIsLeast(s, o);
      PrependOrdered(m, s, o);
      [m] + s
    else
      assert s == [s[0]] + s[1..];
      var t := Insert(m, s[1..], o);
      HeadIsLeast(s, o);
      assert forall x :: x in t ==> Rank(o, s[0]) <= Rank(o, x) by {
        forall x | x in t ensures Rank(o, s[0]) <= Rank(o, x) {
          assert x in multiset(t);
          if x != m {
            assert x in multiset(s[1..]);
            assert x in s;
          }
        }
      }
      PrependOrdered(s[0], t, o);
      [s[0]] + t
  }

  /** The rows in the order the server returns them for `ORDER BY`. */
  function SortRows(s: seq<Movie>, o: Order): (r: seq<Movie>)
    ensures Ordered(r, o) && multiset(r) == multiset(s)
  {
    if s == [] then []
    else
      assert s == [s[0]] + s[1..];
      Insert(s[0], SortRows(s[1..], o), o)
  }

  /** The `WHERE` clause of each listing. */
  datatype Where = ReleasedAfter(now: int) | Everything | TitleAndGenre(search: string, genre: string)

  predicate TitleMatches(m: Movie, search: string) {
    search == "" || Contains(Lower(m.title), Lower(search))
  }

  predicate IsGenre(g: Named, genre: string) {
    Lower(g.name) == Lower(genre)
  }

  predicate GenreMatches(m: Movie, genre: string) {
    genre == "" || exists i :: 0 <= i < |m.genres| && IsGenre(m.genres[i], genre)
  }

  predicate Admits(w: Where, m: Movie) {
    match w
    case ReleasedAfter(now) => m.releaseDate > now
    case Everything => true
    case TitleAndGenre(search, genre) => TitleMatches(m, search) && GenreMatches(m, genre)
  }

  function KeepGenre(gs: seq<Named>, genre: string): (r: seq<Named>)
    ensures forall g :: g in r <==> g in gs && IsGenre(g, genre)
  {
    if gs == [] then []
    else (if IsGenre(gs[0], genre) then [gs[0]] else []) + KeepGenre(gs[1..], genre)
  }

  /** The row the server groups for a movie. The genre test sits in `WHERE`, before
      `GROUP BY`, so a genre-filtered row aggregates only the matching genres. */
  function Grouped(w: Where, m: Movie): Movie
  {
    if w.TitleAndGenre? && w.genre != "" then m.(genres := KeepGenre(m.genres, w.genre)) else m
  }

  /** The grouped rows of the movies the `WHERE` clause admits, in table order. */
  function Select(rows: seq<Movie>, w: Where): (r: seq<Movie>)
    ensures |r| <= |rows|
    ensures forall m :: m in rows && Admits(w, m) ==> Grouped(w, m) in r
    ensures forall x :: x in r ==> exists m :: m in rows && Admits(w, m) && x == Grouped(w, m)
  {
    if rows == [] then []
    else
      var rest := Select(rows[1..], w);
      assert rows == [rows[0]] + rows[1..];
      (if Admits(w, rows[0]) then [Grouped(w, rows[0])] else []) + rest
  }

  /** `LIMIT limit OFFSET offset` for a non-negative offset. */
  function Window(rows: seq<Movie>, limit: nat, offset: nat): (r: seq<Movie>)
    ensures |r| <= limit
  {
    var lo := if offset < |rows| then offset else |rows|;
    var hi := if offset + limit < |rows| then offset + limit else |rows|;
    rows[lo..hi]
  }

  /** How the database connection behaves during one query: it answers normally, it
      fails to start the query, or it breaks after delivering some rows. */
  datatype DbFault = DbHealthy | StartFails(cause: string) | DropsAfter(delivered: nat, cause: string)

  /** The rows a query delivers, and the error that ended the delivery, if any. */
  datatype Stream = Stream(rows: seq<Movie>, err: Option<string>)

  const NegativeOffset: string := "OFFSET must not be negative"
  const ScanFailed: string := "can't scan into dest"

  /** The server's answer to a listing query over the ordered rows `result`. A negative
      `OFFSET` is rejected when the query executes, that is, after `Query` has returned. */
  function Serve(result: seq<Movie>, limit: nat, offset: int, fault: DbFault): (q: Result<Stream>)
    ensures q.Err? <==> fault.StartFails?
    ensures q.Ok? && q.value.err.None? ==> offset >= 0 && q.value.rows == Window(result, limit, offset)
    ensures q.Ok? && offset < 0 ==> q.value == Stream([], Some(NegativeOffset))
  {
    if fault.StartFails? then Err(fault.cause)
    else if offset < 0 then Ok(Stream([], Some(NegativeOffset)))
    else
      var page := Window(result, limit, offset);
      if fault.DropsAfter? && fault.delivered < |page| then Ok(Stream(page[..fault.delivered], Some(fault.cause)))
      else Ok(Stream(page, None))
  }

  // ---------------------------------------------------------------- the rows.Next() loop

  predicate ScanFailsWithin(s: Stream, scanFailsAt: Option<nat>) {
    scanFailsAt.Some? && scanFailsAt.value < |s.rows|
  }

  /** What the `for rows.Next()` loop yields when the stream's error is checked after it:
      a scan error, or the error that ended the stream, or every delivered row. */
  function Drained(s: Stream, scanFailsAt: Option<nat>): (r: Result<seq<Movie>>)
    ensures r.Ok? <==> !ScanFailsWithin(s, scanFailsAt) && s.err.None?
    ensures r.Ok? ==> r.value == s.rows
  {
    if ScanFailsWithin(s, scanFailsAt) then Err(ScanFailed)
    else if s.err.Some? then Err(s.err.value)
    else Ok(s.rows)
  }

  /** What the loop yields as the source writes it: `rows.Err()` is never consulted, so
      an error that ends the stream is lost and the rows delivered so far are returned. */
  function DrainedAsWritten(s: Stream, scanFailsAt: Option<nat>): (r: Result<seq<Movie>>)
    ensures r.Ok? <==> !ScanFailsWithin(s, scanFailsAt)
    ensures r.Ok? ==> r.value == s.rows
  {
    if ScanFailsWithin(s, scanFailsAt) then Err(ScanFailed) else Ok(s.rows)
  }

  /** The scan loop, appending each delivered row to `movies`, then checking `rows.Err()`. */
  method CollectRows(s: Stream, scanFailsAt: Option<nat>) returns (r: Result<seq<Movie>>)
    ensures r == Drained(s, scanFailsAt)
  {
    var movies: seq<Movie> := [];
    var i := 0;
    while i < |s.rows|
      invariant 0 <= i <= |s.rows|
      invariant movies == s.rows[..i]
      invariant scanFailsAt.Some? ==> scanFailsAt.value >= i
    {
      if scanFailsAt == Some(i) {
        return Err(ScanFailed);
      }
      movies := movies + [s.rows[i]];
      i := i + 1;
    }
    assert movies == s.rows;
    if s.err.Some? {
      return Err(s.err.value);
    }
    return Ok(movies);
  }

  /** The scan loop exactly as the source has it, without the `rows.Err()` check. */
  method CollectRowsAsWritten(s: Stream, scanFailsAt: Option<nat>) returns (r: Result<seq<Movie>>)
    ensures r == DrainedAsWritten(s, scanFailsAt)
  {
    var movies: seq<Movie> := [];
    var i := 0;
    while i < |s.rows|
      invariant 0 <= i <= |s.rows|
      invariant movies == s.rows[..i]
      invariant scanFailsAt.Some? ==> scanFailsAt.value >= i
    {
      if scanFailsAt == Some(i) {
        return Err(ScanFailed);
      }
      movies := movies + [s.rows[i]];
      i := i + 1;
    }
    assert movies == s.rows;
    return Ok(movies);
  }

  /** With the loop as written, a page number of 0 or below reaches the database as a
      negative `OFFSET`; the server's rejection is swallowed and the listing "succeeds"
      with no rows (which the caller then caches). Checking `rows.Err()` turns it into
      the error the caller expects. */
  lemma NegativeOffsetSwallowed(rows: seq<Movie>, limit: nat, offset: int)
    requires offset < 0
    ensures Serve(rows, limit, offset, DbHealthy) == Ok(Stream([], Some(NegativeOffset)))
    ensures DrainedAsWritten(Serve(rows, limit, offset, DbHealthy).value, None) == Ok([])
    ensures Drained(Serve(rows, limit, offset, DbHealthy).value, None) == Err(NegativeOffset)
  {
  }

  // ---------------------------------------------------------------- the four queries

  /** Inputs that decide how the collaborators behave during one repository call.
      `decodeFault` is the error of decoding a row's genre or cast JSON: the listing
      loops discard it, the detail query returns it. */
  datatype Io = Io(get: GetFault, db: DbFault, scanFailsAt: Option<nat>, refuses: bool, setFault: Option<string>,
                   decodeFault: Option<string>)

  /** What a listing query returns to the repository once the source's loop has
      collected its rows, for rows `sorted` in the server's order. */
  function Fetched(sorted: seq<Movie>, limit: nat, offset: int, io: Io): Result<seq<Movie>>
  {
    match Serve(sorted, limit, offset, io.db)
    case Err(e) => Err(e)
    case Ok(stream) => DrainedAsWritten(stream, io.scanFailsAt)
  }

  /** The same query with the stream's error checked after the loop: a successful
      listing is then always the whole requested window. */
  function FetchedCorrected(sorted: seq<Movie>, limit: nat, offset: int, io: Io): (r: Result<seq<Movie>>)
    ensures r.Ok? ==> offset >= 0 && r.value == Window(sorted, limit, offset)
  {
    match Serve(sorted, limit, offset, io.db)
    case Err(e) => Err(e)
    case Ok(stream) => Drained(stream, io.scanFailsAt)
  }

  /** The two loops agree except when the stream ended with an error: then the source
      reports success with the rows delivered before it, where the corrected loop fails. */
  lemma FetchDiffersOnlyOnStreamError(sorted: seq<Movie>, limit: nat, offset: int, io: Io)
    ensures FetchedCorrected(sorted, limit, offset, io).Ok? ==>
      Fetched(sorted, limit, offset, io) == FetchedCorrected(sorted, limit, offset, io)
    ensures Fetched(sorted, limit, offset, io) != FetchedCorrected(sorted, limit, offset, io) ==>
      Fetched(sorted, limit, offset, io).Ok? && FetchedCorrected(sorted, limit, offset, io).Err? &&
      Serve(sorted, limit, offset, io.db).Ok? && Serve(sorted, limit, offset, io.db).value.err.Some?
  {
  }

  function UpcomingFetch(db: seq<Movie>, now: int, page: int, io: Io): Result<seq<Movie>>
    requires InInt64(page)
  {
    Fetched(SortRows(Select(db, ReleasedAfter(now)), ReleaseAsc), UpcomingPageSize, Offset(page, UpcomingPageSize), io)
  }

  function PopularFetch(db: seq<Movie>, page: int, io: Io): Result<seq<Movie>>
    requires InInt64(page)
  {
    Fetched(SortRows(Select(db, Everything), PopularityDesc), PopularPageSize, Offset(page, PopularPageSize), io)
  }

  function AllFetch(db: seq<Movie>, page: int, search: string, genre: string, io: Io): Result<seq<Movie>>
    requires InInt64(page)
  {
    Fetched(SortRows(Select(db, TitleAndGenre(search, genre)), ReleaseDesc), AllPageSize, Offset(page, AllPageSize), io)
  }

  /** The first movie with the identifier (identifiers are the table's primary key). */
  function FindMovie(db: seq<Movie>, id: int): (r: Option<Movie>)
    ensures r.Some? ==> r.value in db && r.value.id == id
    ensures r.None? ==> forall m :: m in db ==> m.id != id
  {
    if db == [] then None
    else if db[0].id == id then Some(db[0])
    else FindMovie(db[1..], id)
  }

  /** `QueryRow(...).Scan(...)` for the detail query, then the decoding of its genre and
      cast JSON: the row, or the error of starting the query, of an empty result, of a
      broken stream, of the scan or of the decoding. */
  function DetailFetch(db: seq<Movie>, id: int, io: Io): (r: Result<Movie>)
    ensures r.Ok? ==> r.value in db && r.value.id == id
    ensures (forall m :: m in db ==> m.id != id) ==> r.Err?
    ensures io.decodeFault.Some? ==> r.Err?
  {
    if io.db.StartFails? then Err(io.db.cause)
    else
      match FindMovie(db, id)
      case None => Err(NoRows)
      case Some(m) =>
        if io.db.DropsAfter? && io.db.delivered == 0 then Err(io.db.cause)
        else if io.scanFailsAt == Some(0) then Err(ScanFailed)
        else if io.decodeFault.Some? then Err(io.decodeFault.value)
        else Ok(m)
  }

  /** A successful listing is a prefix of the requested window of the ordered rows: at
      most `limit` rows, still in order, each one of the rows. It is empty for a negative
      offset, and it is the whole window when the connection stays healthy. */
  lemma FetchedPage(sorted: seq<Movie>, o: Order, limit: nat, offset: int, io: Io)
    requires Ordered(sorted, o)
    ensures var f := Fetched(sorted, limit, offset, io);
      f.Ok? ==> (|f.value| <= limit && Ordered(f.value, o) && (forall x :: x in f.value ==> x in sorted) &&
                 (offset < 0 ==> f.value == []) &&
                 (offset >= 0 ==> f.value == Window(sorted, limit, offset)[..|f.value|]) &&
                 (offset >= 0 && io.db == DbHealthy ==> f.value == Window(sorted, limit, offset)))
  {
    var f := Fetched(sorted, limit, offset, io);
    if f.Ok? && offset >= 0 {
      var w := Window(sorted, limit, offset);
      var lo := if offset < |sorted| then offset else |sorted|;
      assert w == sorted[lo..lo + |w|];
      assert f.value == w[..|f.value|];
      forall i, j | 0 <= i < j < |f.value| ensures Rank(o, f.value[i]) <= Rank(o, f.value[j]) {
        assert f.value[i] == sorted[lo + i] && f.value[j] == sorted[lo + j];
      }
      forall x | x in f.value ensures x in sorted {
        var i :| 0 <= i < |f.value| && f.value[i] == x;
        assert x == sorted[lo + i];
      }
    }
  }

  /** Every row of an ordered listing is the grouped row of a table movie its `WHERE`
      clause admits. */
  lemma SortedSelected(db: seq<Movie>, w: Where, o: Order, x: Movie)
    requires x in SortRows(Select(db, w), o)
    ensures exists m :: m in db && Admits(w, m) && x == Grouped(w, m)
  {
    assert x in multiset(SortRows(Select(db, w), o));
    assert x in Select(db, w);
  }

  /** An upcoming page holds at most four movies of the table, all released after now,
      earliest first. */
  lemma UpcomingPage(db: seq<Movie>, now: int, page: int, io: Io)
    requires InInt64(page)
    ensures var f := UpcomingFetch(db, now, page, io);
      f.Ok? ==> (|f.value| <= UpcomingPageSize && Ordered(f.value, ReleaseAsc) &&
                 forall x :: x in f.value ==> x in db && x.releaseDate > now)
  {
    var w := ReleasedAfter(now);
    var sorted := SortRows(Select(db, w), ReleaseAsc);
    FetchedPage(sorted, ReleaseAsc, UpcomingPageSize, Offset(page, UpcomingPageSize), io);
    var f := UpcomingFetch(db, now, page, io);
    if f.Ok? {
      forall x | x in f.value ensures x in db && x.releaseDate > now {
        SortedSelected(db, w, ReleaseAsc, x);
      }
    }
  }

  /** A popular page holds at most four movies of the table, most popular first. */
  lemma PopularPage(db: seq<Movie>, page: int, io: Io)
    requires InInt64(page)
    ensures var f := PopularFetch(db, page, io);
      f.Ok? ==> (|f.value| <= PopularPageSize && Ordered(f.value, PopularityDesc) &&
                 forall x :: x in f.value ==> x in db)
  {
    var sorted := SortRows(Select(db, Everything), PopularityDesc);
    FetchedPage(sorted, PopularityDesc, PopularPageSize, Offset(page, PopularPageSize), io);
    var f := PopularFetch(db, page, io);
    if f.Ok? {
      forall x | x in f.value ensures x in db {
        SortedSelected(db, Everything, PopularityDesc, x);
      }
    }
  }

  /** A row of the general listing matches the search case-insensitively and, when a
      genre is asked for, carries that genre and only that genre. */
  lemma GroupedMatches(m: Movie, search: string, genre: string)
    requires Admits(TitleAndGenre(search, genre), m)
    ensures var x := Grouped(TitleAndGenre(search, genre), m);
      TitleMatches(x, search) &&
      (genre != "" ==> x.genres != [] && forall g :: g in x.genres ==> IsGenre(g, genre))
  {
    if genre != "" {
      var i :| 0 <= i < |m.genres| && IsGenre(m.genres[i], genre);
      assert m.genres[i] in Grouped(TitleAndGenre(search, genre), m).genres;
    }
  }

  /** A general page holds at most twelve movies, latest release first; each matches the
      search case-insensitively, and when a genre is asked for, carries that genre and
      only that genre. Every movie comes from the table. */
  lemma AllPage(db: seq<Movie>, page: int, search: string, genre: string, io: Io)
    requires InInt64(page)
    ensures var f := AllFetch(db, page, search, genre, io);
      f.Ok? ==> (|f.value| <= AllPageSize && Ordered(f.value, ReleaseDesc) &&
                 forall x :: x in f.value ==>
                   TitleMatches(x, search) &&
                   (genre != "" ==> x.genres != [] && forall g :: g in x.genres ==> IsGenre(g, genre)) &&
                   exists m :: m in db && x == Grouped(TitleAndGenre(search, genre), m))
  {
    var w := TitleAndGenre(search, genre);
    var sorted := SortRows(Select(db, w), ReleaseDesc);
    FetchedPage(sorted, ReleaseDesc, AllPageSize, Offset(page, AllPageSize), io);
    var f := AllFetch(db, page, search, genre, io);
    if f.Ok? {
      forall x | x in f.value
        ensures TitleMatches(x, search)
        ensures genre != "" ==> x.genres != [] && forall g :: g in x.genres ==> IsGenre(g, genre)
        ensures exists m :: m in db && x == Grouped(w, m)
      {
        SortedSelected(db, w, ReleaseDesc, x);
        var m :| m in db && Admits(w, m) && x == Grouped(w, m);
        GroupedMatches(m, search, genre);
      }
    }
  }

  /** The detail query answers with the movie of that identifier or an error. */
  lemma DetailIsTheMovie(db: seq<Movie>, id: int, io: Io)
    ensures DetailFetch(db, id, io).Ok? ==> DetailFetch(db, id, io).value.id == id
    ensures io == Io(Healthy, DbHealthy, None, false, None, None) && (exists m :: m in db && m.id == id) ==>
      DetailFetch(db, id, io).Ok?
  {
  }

  // ---------------------------------------------------------------- cache-aside

  function AsList(r: Result<seq<Movie>>): (p: Result<Payload>)
    ensures p.Ok? <==> r.Ok?
    ensures p.Ok? ==> p.value == MovieList(r.value)
    ensures p.Err? ==> p.error == r.error
  {
    match r
    case Ok(v) => Ok(MovieList(v))
    case Err(e) => Err(e)
  }

  /** The answer of a cache-aside read, the cache afterwards, and whether the database
      was asked. */
  datatype Read = Read(result: Result<Payload>, entries: map<string, Entry>, queried: bool)

  /** The cache-aside flow every catalog read follows. A hit returns the cached value and
      touches nothing else; a miss or a cache error asks the database; a database error
      is returned and nothing is cached; a database answer is returned whether or not
      writing it back for five minutes succeeds. */
  function CacheAside(entries: map<string, Entry>, key: string, want: Shape, fetch: Result<Payload>, io: Io): (a: Read)
    requires fetch.Ok? ==> ShapeOf(fetch.value) == want
    ensures var l := ReadOutcome(entries, key, want, io.get);
      (l.found ==> a.result == Ok(l.dest.value) && a.entries == entries && !a.queried) &&
      (l.err.Some? ==> a.queried && a.result == fetch) &&
      (!l.found ==> a.queried && a.result == fetch) &&
      (!l.found && fetch.Err? ==> a.entries == entries) &&
      (!l.found && fetch.Ok? ==>
        a.entries == WriteOutcome(entries, key, fetch.value, CacheTtlSeconds, io.refuses, io.setFault).entries)
  {
    var l := ReadOutcome(entries, key, want, io.get);
    if l.err.None? && l.found then Read(Ok(l.dest.value), entries, false)
    else if fetch.Err? then Read(fetch, entries, true)
    else Read(fetch, WriteOutcome(entries, key, fetch.value, CacheTtlSeconds, io.refuses, io.setFault).entries, true)
  }

  /** Reading a detail twice with a healthy cache: the second read is a hit that returns
      the same movie without asking the database again. */
  lemma DetailReadTwice(entries: map<string, Entry>, db: seq<Movie>, id: int, io: Io, io2: Io)
    requires io.refuses == false && io.setFault.None? && io2.get.Healthy?
    requires DetailFetch(db, id, io).Ok?
    ensures var first := CacheAside(entries, DetailKey(id), ItemShape, DetailAsItem(DetailFetch(db, id, io)), io);
      var second := CacheAside(first.entries, DetailKey(id), ItemShape, DetailAsItem(DetailFetch(db, id, io2)), io2);
      first.result.Ok? && second.result == first.result && !second.queried && second.entries == first.entries
  {
    var first := CacheAside(entries, DetailKey(id), ItemShape, DetailAsItem(DetailFetch(db, id, io)), io);
    var l := ReadOutcome(entries, DetailKey(id), ItemShape, io.get);
    if l.found {
      assert Unmarshal(entries[DetailKey(id)].data, ItemShape) == Ok(l.dest.value);
    } else {
      SetThenGet(entries, DetailKey(id), MovieItem(DetailFetch(db, id, io).value), CacheTtlSeconds);
    }
  }

  function DetailAsItem(r: Result<Movie>): (p: Result<Payload>)
    ensures p.Ok? <==> r.Ok?
    ensures p.Ok? ==> p.value == MovieItem(r.value)
  {
    match r
    case Ok(v) => Ok(MovieItem(v))
    case Err(e) => Err(e)
  }

  /** The catalog repository: the movie table it queries and the Redis server it caches in. */
  class MovieRepository {
    const db: seq<Movie>
    const redis: Redis

    constructor (db: seq<Movie>, redis: Redis)
      ensures this.db == db && this.redis == redis
    {
      this.db := db;
      this.redis := redis;
    }

    /** `GetUpcomingMovies`. `queried` reports whether the database was asked. */
    method GetUpcomingMovies(page: int, now: int, io: Io) returns (r: Result<seq<Movie>>, queried: bool)
      requires InInt64(page)
      modifies redis
      ensures var a := CacheAside(old(redis.entries), UpcomingKey(page), ListShape, AsList(UpcomingFetch(db, now, page, io)), io);
        AsList(r) == a.result && redis.entries == a.entries && queried == a.queried
    {
      var offset := Offset(page, UpcomingPageSize);
      var key := UpcomingKey(page);
      var found, cacheErr, cached := redis.Get(key, ListShape, io.get);
      if cacheErr.None? && found {
        return Ok(cached.value.movies), false;
      }
      var q := Serve(SortRows(Select(db, ReleasedAfter(now)), ReleaseAsc), UpcomingPageSize, offset, io.db);
      if q.Err? {
        return Err(q.error), true;
      }
      r := CollectRowsAsWritten(q.value, io.scanFailsAt);
      if r.Err? {
        return r, true;
      }
      var _ := redis.Set(key, MovieList(r.value), CacheTtlSeconds, io.refuses, io.setFault);
      return r, true;
    }

    /** `GetPopularMovies`. */
    method GetPopularMovies(page: int, io: Io) returns (r: Result<seq<Movie>>, queried: bool)
      requires InInt64(page)
      modifies redis
      ensures var a := CacheAside(old(redis.entries), PopularKey(page), ListShape, AsList(PopularFetch(db, page, io)), io);
        AsList(r) == a.result && redis.entries == a.entries && queried == a.queried
    {
      var offset := Offset(page, PopularPageSize);
      var key := PopularKey(page);
      var found, cacheErr, cached := redis.Get(key, ListShape, io.get);
      if cacheErr.None? && found {
        return Ok(cached.value.movies), false;
      }
      var q := Serve(SortRows(Select(db, Everything), PopularityDesc), PopularPageSize, offset, io.db);
      if q.Err? {
        return Err(q.error), true;
      }
      r := CollectRowsAsWritten(q.value, io.scanFailsAt);
      if r.Err? {
        return r, true;
      }
      var _ := redis.Set(key, MovieList(r.value), CacheTtlSeconds, io.refuses, io.setFault);
      return r, true;
    }

    /** `GetAllMovies`. */
    method GetAllMovies(page: int, search: string, genre: string, io: Io) returns (r: Result<seq<Movie>>, queried: bool)
      requires InInt64(page)
      modifies redis
      ensures var a := CacheAside(old(redis.entries), AllKey(page, search, genre), ListShape,
                                  AsList(AllFetch(db, page, search, genre, io)), io);
        AsList(r) == a.result && redis.entries == a.entries && queried == a.queried
    {
      var offset := Offset(page, AllPageSize);
      var key := AllKey(page, search, genre);
      var found, cacheErr, cached := redis.Get(key, ListShape, io.get);
      if cacheErr.None? && found {
        return Ok(cached.value.movies), false;
      }
      var q := Serve(SortRows(Select(db, TitleAndGenre(search, genre)), ReleaseDesc), AllPageSize, offset, io.db);
      if q.Err? {
        return Err(q.error), true;
      }
      r := CollectRowsAsWritten(q.value, io.scanFailsAt);
      if r.Err? {
        return r, true;
      }
      var _ := redis.Set(key, MovieList(r.value), CacheTtlSeconds, io.refuses, io.setFault);
      return r, true;
    }

    /** `GetMovieDetail`. */
    method GetMovieDetail(id: int, io: Io) returns (r: Result<Movie>, queried: bool)
      modifies redis
      ensures var a := CacheAside(old(redis.entries), DetailKey(id), ItemShape, DetailAsItem(DetailFetch(db, id, io)), io);
        DetailAsItem(r) == a.result && redis.entries == a.entries && queried == a.queried
    {
      var key := DetailKey(id);
      var found, cacheErr, cached := redis.Get(key, ItemShape, io.get);
      if cacheErr.None? && found {
        return Ok(cached.value.movie), false;
      }
      r := DetailFetch(db, id, io);
      if r.Err? {
        return r, true;
      }
      var _ := redis.Set(key, MovieItem(r.value), CacheTtlSeconds, io.refuses, io.setFault);
      return r, true;
    }
  }
}
