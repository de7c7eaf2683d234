/** The admin handler's `normalizeInputArray`, which turns the genre and cast form
    fields into a clean list of names, and `UpdateMovie`, which looks the movie up,
    composes the column update map from the optional fields and hands it to the admin
    repository. The admin repository's bodies are not part of this model: its calls are
    recorded and their outcomes are inputs. */
module AdminHandler {
  import opened Wrappers
  import opened GoInt
  import opened Text
  import opened Models
  import opened Http

  // ---------------------------------------------------------------- normalizeInputArray

  /** A name as the normalisation leaves it: non-empty, no white space at either end,
      no comma. */
  predicate Clean(v: string) {
    v != [] && Trimmed(v) && ',' !in v
  }

  /** The trimmed pieces that are not empty, in order. */
  function Kept(parts: seq<string>): seq<string>
  {
    if parts == [] then []
    else
      var v := TrimSpace(parts[|parts| - 1]);
      Kept(parts[..|parts| - 1]) + (if v != [] then [v] else [])
  }

  /** The pieces of a split are kept clean. */
  lemma {:induction false} KeptIsClean(parts: seq<string>)
    requires forall j :: 0 <= j < |parts| ==> ',' !in parts[j]
    ensures forall i :: 0 <= i < |Kept(parts)| ==> Clean(Kept(parts)[i])
  {
    if parts != [] {
      TrimSpaceTrims(parts[|parts| - 1], ',');
      KeptIsClean(parts[..|parts| - 1]);
    }
  }

  /** What `normalizeInputArray` returns: for each item in order, the trimmed non-empty
      pieces between its commas. */
  function Normalize(input: seq<string>): seq<string>
  {
    if input == [] then []
    else Normalize(input[..|input| - 1]) + Kept(Split(input[|input| - 1]))
  }

  /** Every name the normalisation returns is clean. */
  lemma {:induction false} NormalizeIsClean(input: seq<string>)
    ensures forall i :: 0 <= i < |Normalize(input)| ==> Clean(Normalize(input)[i])
  {
    if input != [] {
      NormalizeIsClean(input[..|input| - 1]);
      KeptIsClean(Split(input[|input| - 1]));
    }
  }

  /** `normalizeInputArray`: the outer loop runs over the items, the inner one over the
      pieces of an item, appending every non-empty trimmed piece to `out`. */
  method NormalizeInputArray(input: seq<string>) returns (out: seq<string>)
    ensures out == Normalize(input)
    ensures forall i :: 0 <= i < |out| ==> Clean(out[i])
  {
    out := [];
    var i := 0;
    while i < |input|
      invariant 0 <= i <= |input|
      invariant out == Normalize(input[..i])
    {
      var parts := Split(input[i]);
      ghost var before := out;
      var j := 0;
      while j < |parts|
        invariant 0 <= j <= |parts|
        invariant out == before + Kept(parts[..j])
      {
        var val := TrimSpace(parts[j]);
        PieceStep(before, out, parts, j);
        if val != "" {
          out := out + [val];
        }
        j := j + 1;
      }
      ItemStep(input, i, before, out);
      i := i + 1;
    }
    SliceAll(input);
    NormalizeIsClean(input);
  }

  /** One pass of the inner loop keeps the pieces seen so far. */
  lemma PieceStep(before: seq<string>, out: seq<string>, parts: seq<string>, j: int)
    requires 0 <= j < |parts| && out == before + Kept(parts[..j])
    ensures var v := TrimSpace(parts[j]);
      (if v != [] then out + [v] else out) == before + Kept(parts[..j + 1])
  {
    SliceSnoc(parts, j);
    KeptStep(parts[..j], parts[j]);
  }

  /** Finishing the inner loop completes the normalisation of one more item. */
  lemma ItemStep(input: seq<string>, i: int, before: seq<string>, out: seq<string>)
    requires 0 <= i < |input| && before == Normalize(input[..i])
    requires out == before + Kept(Split(input[i])[..|Split(input[i])|])
    ensures out == Normalize(input[..i + 1])
  {
    SliceAll(Split(input[i]));
    NormalizeStep(input[..i], input[i]);
    SliceSnoc(input, i);
  }

  /** Normalising a concatenation normalises each part. */
  lemma {:induction false} NormalizeAppend(a: seq<string>, b: seq<string>)
    ensures Normalize(a + b) == Normalize(a) + Normalize(b)
    decreases |b|
  {
    if b != [] {
      var init, last := b[..|b| - 1], b[|b| - 1];
      assert b == init + [last];
      assert a + b == (a + init) + [last];
      NormalizeStep(a + init, last);
      NormalizeStep(init, last);
      NormalizeAppend(a, init);
      SeqAssoc(Normalize(a), Normalize(init), Kept(Split(last)));
    } else {
      assert a + b == a;
    }
  }

  lemma SliceSnoc<T>(s: seq<T>, j: int)
    requires 0 <= j < |s|
    ensures s[..j + 1] == s[..j] + [s[j]]
  {
  }

  lemma SliceAll<T>(s: seq<T>)
    ensures s[..|s|] == s
  {
  }

  lemma SplitLast<T>(s: seq<T>)
    requires s != []
    ensures s == s[..|s| - 1] + [s[|s| - 1]]
  {
  }

  lemma SeqAssoc(x: seq<string>, y: seq<string>, z: seq<string>)
    ensures (x + y) + z == x + (y + z)
  {
  }

  lemma CleanKept(v: string)
    requires Clean(v)
    ensures TrimSpace(v) == v != []
  {
    TrimSpaceFixed(v);
  }

  /** Clean names are kept as they are. */
  lemma {:induction false} KeptClean(xs: seq<string>)
    requires forall i :: 0 <= i < |xs| ==> Clean(xs[i])
    ensures Kept(xs) == xs
  {
    if xs != [] {
      var init, last := xs[..|xs| - 1], xs[|xs| - 1];
      CleanKept(last);
      KeptClean(init);
      assert init + [last] == xs;
    }
  }

  /** A clean name is one piece, kept as it is. */
  lemma CleanNormalizesToItself(v: string)
    requires Clean(v)
    ensures Kept(Split(v)) == [v]
  {
    SplitNoComma(v);
    CleanKept(v);
    assert [v][..0] == [];
  }

  lemma KeptStep(init: seq<string>, last: string)
    ensures Kept(init + [last]) == Kept(init) + (if TrimSpace(last) != [] then [TrimSpace(last)] else [])
  {
    assert (init + [last])[..|init|] == init;
  }

  lemma NormalizeStep(init: seq<string>, last: string)
    ensures Normalize(init + [last]) == Normalize(init) + Kept(Split(last))
  {
    assert (init + [last])[..|init|] == init;
  }

  /** A list of clean names is its own normalisation. */
  lemma {:induction false} NormalizeFixesClean(xs: seq<string>)
    requires forall i :: 0 <= i < |xs| ==> Clean(xs[i])
    ensures Normalize(xs) == xs
  {
    if xs != [] {
      var init, last := xs[..|xs| - 1], xs[|xs| - 1];
      SplitLast(xs);
      CleanNormalizesToItself(last);
      NormalizeFixesClean(init);
      NormalizeStep(init, last);
    }
  }

  /** Normalising twice gives what normalising once gives. */
  lemma NormalizeIdempotent(input: seq<string>)
    ensures Normalize(Normalize(input)) == Normalize(input)
  {
    NormalizeIsClean(input);
    NormalizeFixesClean(Normalize(input));
  }

  /** A single form value listing names with commas normalises like the names sent as
      separate values: `genres=Action,Drama` is `genres=Action&genres=Drama`. */
  lemma CommaListIsRepeatedField(names: seq<string>)
    requires |names| >= 1 && forall i :: 0 <= i < |names| ==> ',' !in names[i]
    ensures Normalize([Join(names, ",")]) == Normalize(names)
  {
    SplitJoin(names);
    assert [Join(names, ",")][..0] == [];
    KeptSplitsPerName(names);
  }

  lemma {:induction false} KeptSplitsPerName(names: seq<string>)
    requires forall i :: 0 <= i < |names| ==> ',' !in names[i]
    ensures Kept(names) == Normalize(names)
  {
    if names != [] {
      var init, last := names[..|names| - 1], names[|names| - 1];
      SplitNoComma(last);
      assert [last][..0] == [];
      assert Kept([last]) == if TrimSpace(last) != [] then [TrimSpace(last)] else [];
      KeptSplitsPerName(init);
      assert Normalize(names) == Normalize(init) + Kept([last]);
    }
  }

  /** The example of the form documentation: `Action,Drama` in one value is the same
      as `Action` and `Drama` in two. */
  lemma ActionDrama()
    ensures Normalize(["Action,Drama"]) == Normalize(["Action", "Drama"])
  {
    var names := ["Action", "Drama"];
    assert ',' !in names[0] && ',' !in names[1];
    assert Join(names, ",") == "Action,Drama";
    CommaListIsRepeatedField(names);
  }

  // ---------------------------------------------------------------- UpdateMovie

  /** A column value in the update map. */
  datatype Value = Text(s: string) | Number(n: int)

  /** `dtos.UpdateMovieRequest` after binding: every column optional, the two image
      uploads as "a file was sent", and the raw genre and cast values. */
  datatype UpdateMovieRequest = UpdateMovieRequest(
    title: Option<string>, overview: Option<string>, director: Option<string>,
    duration: Option<int>, releaseDate: Option<string>, popularity: Option<int>,
    poster: bool, backdrop: bool, genres: seq<string>, casts: seq<string>)

  /** The `movies` columns the update map can name. */
  datatype Column = Title | Overview | DirectorName | Duration | ReleaseDate | Popularity | PosterPath | BackdropPath

  /** The key the handler writes for a column. */
  function ColumnName(c: Column): string
  {
    match c
    case Title => "title"
    case Overview => "overview"
    case DirectorName => "director_name"
    case Duration => "duration"
    case ReleaseDate => "release_date"
    case Popularity => "popularity"
    case PosterPath => "poster_path"
    case BackdropPath => "backdrop_path"
  }

  /** Distinct columns have distinct keys, so the map loses no field. */
  lemma ColumnNamesDistinct(a: Column, b: Column)
    requires ColumnName(a) == ColumnName(b)
    ensures a == b
  {
  }

  /** The columns the optional form fields map to. */
  const FieldColumns: set<Column> := {Title, Overview, DirectorName, Duration, ReleaseDate, Popularity}

  /** The request's value for a column, if it was sent. */
  function Sent(body: UpdateMovieRequest, c: Column): Option<Value>
  {
    match c
    case Title => if body.title.Some? then Some(Text(body.title.value)) else None
    case Overview => if body.overview.Some? then Some(Text(body.overview.value)) else None
    case DirectorName => if body.director.Some? then Some(Text(body.director.value)) else None
    case Duration => if body.duration.Some? then Some(Number(body.duration.value)) else None
    case ReleaseDate => if body.releaseDate.Some? then Some(Text(body.releaseDate.value)) else None
    case Popularity => if body.popularity.Some? then Some(Number(body.popularity.value)) else None
    case _ => None
  }

  /** The update map of the optional fields: exactly the columns that were sent, each
      with the sent value. */
  function Requested(body: UpdateMovieRequest): map<Column, Value>
  {
    SentAmong(body, FieldColumns)
  }

  /** The sent values of the columns in `cs`. */
  function SentAmong(body: UpdateMovieRequest, cs: set<Column>): map<Column, Value>
  {
    map c | c in cs && Sent(body, c).Some? :: Sent(body, c).value
  }

  /** Considering one more column inserts its value when it was sent. */
  lemma SentAmongStep(body: UpdateMovieRequest, cs: set<Column>, c: Column)
    ensures SentAmong(body, cs + {c}) ==
      if Sent(body, c).Some? then SentAmong(body, cs)[c := Sent(body, c).value] else SentAmong(body, cs)
  {
    var m := if Sent(body, c).Some? then SentAmong(body, cs)[c := Sent(body, c).value] else SentAmong(body, cs);
    assert forall d :: d in SentAmong(body, cs + {c}) <==> d in m;
  }

  /** A request that sends no field and no image leaves the map empty: the repository
      is then asked to update nothing but genres and casts. */
  lemma NothingSent(body: UpdateMovieRequest)
    requires body.title.None? && body.overview.None? && body.director.None?
    requires body.duration.None? && body.releaseDate.None? && body.popularity.None?
    requires !body.poster && !body.backdrop
    ensures WithImages(Requested(body), body, "", "") == map[]
  {
    assert forall c :: c !in Requested(body);
  }

  /** The six insertions of `UpdateMovie` into `update`. */
  method ComposeUpdate(body: UpdateMovieRequest) returns (update: map<Column, Value>)
    ensures update == Requested(body)
  {
    update := map[];
    ghost var seen: set<Column> := {};
    assert update == SentAmong(body, seen);
    if body.title.Some? {
      update := update[Title := Text(body.title.value)];
    }
    SentAmongStep(body, seen, Title);
    seen := seen + {Title};
    if body.overview.Some? {
      update := update[Overview := Text(body.overview.value)];
    }
    SentAmongStep(body, seen, Overview);
    seen := seen + {Overview};
    if body.director.Some? {
      update := update[DirectorName := Text(body.director.value)];
    }
    SentAmongStep(body, seen, DirectorName);
    seen := seen + {DirectorName};
    if body.duration.Some? {
      update := update[Duration := Number(body.duration.value)];
    }
    SentAmongStep(body, seen, Duration);
    seen := seen + {Duration};
    if body.releaseDate.Some? {
      update := update[ReleaseDate := Text(body.releaseDate.value)];
    }
    SentAmongStep(body, seen, ReleaseDate);
    seen := seen + {ReleaseDate};
    if body.popularity.Some? {
      update := update[Popularity := Number(body.popularity.value)];
    }
    SentAmongStep(body, seen, Popularity);
    seen := seen + {Popularity};
    assert seen == FieldColumns;
  }

  /** A call the handler makes on a collaborator. */
  datatype AdminCall =
    | GetMovieByID(id: int)
    | SaveImage(folder: string)
    | UpdateMovieCall(id: int, update: map<Column, Value>, genres: seq<string>, casts: seq<string>)

  /** The update map with the stored image paths added. */
  function WithImages(update: map<Column, Value>, body: UpdateMovieRequest, posterPath: string, backdropPath: string): map<Column, Value>
  {
    var u := if body.poster then update[PosterPath := Text(posterPath)] else update;
    if body.backdrop then u[BackdropPath := Text(backdropPath)] else u
  }

  /** Every uploaded image was stored: `SaveImage` returned a path for it. */
  predicate ImagesSaved(body: UpdateMovieRequest, posterPath: string, backdropPath: string) {
    (body.poster ==> posterPath != "") && (body.backdrop ==> backdropPath != "")
  }

  /** The `SaveImage` calls for the uploaded images, poster first. */
  function Uploads(body: UpdateMovieRequest): seq<AdminCall> {
    (if body.poster then [SaveImage("poster")] else []) + (if body.backdrop then [SaveImage("backdrop")] else [])
  }

  /** The image uploads of `UpdateMovie`: each uploaded image is saved, poster first,
      and its stored path goes into the update map; when a save fails (`SaveImage`
      returned no path) the handler stops there. */
  method AttachImages(update: map<Column, Value>, req: UpdateMovieRequest, posterPath: string, backdropPath: string)
    returns (updated: map<Column, Value>, uploads: seq<AdminCall>, saved: bool)
    ensures saved <==> ImagesSaved(req, posterPath, backdropPath)
    ensures saved ==> updated == WithImages(update, req, posterPath, backdropPath) && uploads == Uploads(req)
    ensures forall k :: 0 <= k < |uploads| ==> uploads[k].SaveImage?
  {
    updated, uploads := update, [];
    if req.poster {
      uploads := uploads + [SaveImage("poster")];
      if posterPath == "" {
        return updated, uploads, false;
      }
      updated := updated[PosterPath := Text(posterPath)];
    }
    if req.backdrop {
      uploads := uploads + [SaveImage("backdrop")];
      if backdropPath == "" {
        return updated, uploads, false;
      }
      updated := updated[BackdropPath := Text(backdropPath)];
    }
    return updated, uploads, true;
  }

  /** `UpdateMovie`. The inputs are the raw `id` path parameter, the bound body (None when
      binding fails), the result of the first `GetMovieByID`, the paths `SaveImage`
      returns (empty when it fails, in which case it has answered the request itself),
      the result of the repository update and of the final `GetMovieByID`. `resp` is
      None when the handler writes no response of its own. */
  method UpdateMovie(idParam: string, body: Option<UpdateMovieRequest>, lookup: Result<Movie>,
                     posterPath: string, backdropPath: string, updateErr: Option<string>, refetched: Option<Movie>)
    returns (resp: Option<Response<Movie>>, calls: seq<AdminCall>)
    ensures body.None? ==> resp == Some(Failure(StatusBadRequest, "Invalid request data")) && calls == []
    ensures body.Some? && lookup.Err? ==>
      resp == Some(Failure(StatusNotFound, "Movie not found")) && calls == [GetMovieByID(Atoi(idParam).value)]
    ensures body.Some? && lookup.Ok? && !ImagesSaved(body.value, posterPath, backdropPath) ==>
      resp.None? && forall k :: 0 <= k < |calls| ==> !calls[k].UpdateMovieCall?
    ensures body.Some? && lookup.Ok? && ImagesSaved(body.value, posterPath, backdropPath) ==>
      var id := Atoi(idParam).value;
      var req := body.value;
      calls == [GetMovieByID(id)] + Uploads(req)
               + [UpdateMovieCall(id, WithImages(Requested(req), req, posterPath, backdropPath),
                                  Normalize(req.genres), Normalize(req.casts))]
               + (if updateErr.None? then [GetMovieByID(id)] else []) &&
      resp == Some(if updateErr.Some? then Failure(StatusInternalServerError, updateErr.value)
                   else Success(StatusOK, "Movie updated successfully", refetched))
  {
    var id := Atoi(idParam).value;
    if body.None? {
      return Some(Failure(StatusBadRequest, "Invalid request data")), [];
    }
    var req := body.value;
    calls := [GetMovieByID(id)];
    if lookup.Err? {
      return Some(Failure(StatusNotFound, "Movie not found")), calls;
    }
    var genres := NormalizeInputArray(req.genres);
    var casts := NormalizeInputArray(req.casts);
    var update := ComposeUpdate(req);
    var uploads, saved;
    update, uploads, saved := AttachImages(update, req, posterPath, backdropPath);
    calls := calls + uploads;
    if !saved {
      return None, calls;
    }
    calls := calls + [UpdateMovieCall(id, update, genres, casts)];
    if updateErr.Some? {
      return Some(Failure(StatusInternalServerError, updateErr.value)), calls;
    }
    calls := calls + [GetMovieByID(id)];
    return Some(Success(StatusOK, "Movie updated successfully", refetched)), calls;
  }
}
