/** The rows the repositories read and write. Times are abstract instants (`int`), the
    popularity score is an abstract totally ordered key, and a UUID is an opaque number. */
module Models {
  import opened Wrappers

  type Uuid = nat

  /** A genre or a cast member: an identifier and a name. */
  datatype Named = Named(id: int, name: string)

  /** A catalog movie together with the genres and casts aggregated onto it. */
  datatype Movie = Movie(
    id: int,
    title: string,
    overview: string,
    director: string,
    duration: int,
    releaseDate: int,
    popularity: int,
    poster: string,
    backdrop: string,
    createdAt: int,
    updatedAt: Option<int>,
    deletedAt: Option<int>,
    genres: seq<Named>,
    casts: seq<Named>)

  /** A row of table `users`. */
  datatype User = User(id: Uuid, email: string, password: string, role: string)

  /** A row of table `profile`: every personal field is nullable. */
  datatype Profile = Profile(
    userId: Uuid,
    firstName: Option<string>,
    lastName: Option<string>,
    phoneNumber: Option<string>,
    avatar: Option<string>,
    point: Option<int>,
    createdAt: int,
    updatedAt: Option<int>)

  /** The error pgx returns when a single-row query finds no row (`pgx.ErrNoRows`). */
  const NoRows: string := "no rows in result set"
}
