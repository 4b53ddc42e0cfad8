/**
 * The movie API: the shared collection of movies and the five handlers of
 * `/movies` and `/movies/:id`, each returning a status code and a body.
 */
module App {
  import opened Wrappers
  import opened Json
  import opened MovieSchema
  import opened Collection
  import SchemaProperties

  /** What a handler sends back. */
  datatype Body =
    | MovieList(movies: seq<MovieRecord>)
    | OneMovie(movie: MovieRecord)
    | ValidationErrors(error: seq<Issue>)
    | NotFoundPage(id: string)      // HTML page naming the missing id
    | NotFoundMessage(id: string)   // JSON `{ message }` naming the missing id
    | NoContent

  datatype Response = Response(status: int, body: Body)

  /** The origins the cross-origin gate lets through. */
  const ACCEPTED_ORIGINS: seq<string> := ["http://localhost:8080", "http://localhost:3000", "https://movies.com"]

  /** A request passes the cross-origin gate when it has no (or an empty) Origin, or a listed one. */
  predicate OriginAllowed(origin: Option<string>)
  {
    match origin
    case None => true
    case Some(o) => o in ACCEPTED_ORIGINS || o == ""
  }

  /** The movie collection and the handlers that read and change it. */
  class MovieApi {
    /** The schema, built once with the year of the moment it was built. */
    const schema: Schema
    /** The movies, in insertion order. */
    var movies: seq<MovieRecord>

    /** Ids are unique and every stored record passes full validation. */
    ghost predicate Valid()
      reads this
    {
      UniqueIds(movies) && AllValid(schema, movies)
    }

    /** Starts from a seed collection that already satisfies the invariant. */
    constructor (schema: Schema, seed: seq<MovieRecord>)
      requires UniqueIds(seed) && AllValid(schema, seed)
      ensures Valid()
      ensures this.schema == schema && movies == seed
    {
      this.schema := schema;
      movies := seed;
    }

    /** GET /movies: all movies, or those having the queried genre when the query is a non-empty string. */
    method List(genre: Option<string>) returns (r: Response)
      ensures r.status == 200 && r.body.MovieList?
      ensures genre.None? || genre.value == "" ==> r.body.movies == movies
      ensures genre.Some? && genre.value != "" ==> r.body.movies == FilterByGenre(movies, genre.value)
    {
      if genre.Some? && genre.value != "" {
        return Response(200, MovieList(FilterByGenre(movies, genre.value)));
      }
      return Response(200, MovieList(movies));
    }

    /** GET /movies/:id: the first movie with that id, or 404. */
    method Get(id: string) returns (r: Response)
      ensures r.status == 200 <==> id in Ids(movies)
      ensures r.status == 200 ==> r.body == OneMovie(movies[FindIndex(movies, id)]) && r.body.movie.id == id
      ensures r.status != 200 ==> r == Response(404, NotFoundPage(id))
    {
      var i := FindIndex(movies, id);
      if i >= 0 {
        return Response(200, OneMovie(movies[i]));
      }
      return Response(404, NotFoundPage(id));
    }

    /** POST /movies: validate the body and append it under the fresh id `newId`. */
    method Create(body: Value, newId: string) returns (r: Response)
      requires Valid()
      requires newId !in Ids(movies)
      modifies this
      ensures Valid()
      ensures ValidateMovie(schema, body).Failure? ==>
        r == Response(400, ValidationErrors(ValidateMovie(schema, body).error)) && movies == old(movies)
      ensures ValidateMovie(schema, body).Success? ==>
        var created := MovieRecord(newId, ValidateMovie(schema, body).value);
        && r == Response(201, OneMovie(created))
        && movies == old(movies) + [created]
        && FindIndex(movies, newId) == |old(movies)|
    {
      var result := ValidateMovie(schema, body);
      if result.Failure? {
        return Response(400, ValidationErrors(result.error));
      }
      var created := MovieRecord(newId, result.value);
      AppendFresh(movies, created);
      movies := movies + [created];
      return Response(201, OneMovie(created));
    }

    /**
     * PATCH /movies/:id: validate the body first (400), then look the id up
     * (404), then overwrite the record in place with the supplied fields.
     */
    method Update(id: string, body: Value) returns (r: Response)
      requires Valid()
      modifies this
      ensures Valid()
      ensures ValidatePartialMovie(schema, body).Failure? ==>
        r == Response(400, ValidationErrors(ValidatePartialMovie(schema, body).error)) && movies == old(movies)
      ensures ValidatePartialMovie(schema, body).Success? && id !in Ids(old(movies)) ==>
        r == Response(404, NotFoundPage(id)) && movies == old(movies)
      ensures ValidatePartialMovie(schema, body).Success? && id in Ids(old(movies)) ==>
        var i := FindIndex(old(movies), id);
        var updated := MovieRecord(id, Merge(old(movies)[i].movie, ValidatePartialMovie(schema, body).value));
        && r == Response(200, OneMovie(updated))
        && movies == old(movies)[i := updated]
        && Ids(movies) == Ids(old(movies))
    {
      var result := ValidatePartialMovie(schema, body);
      var i := FindIndex(movies, id);
      if result.Failure? {
        return Response(400, ValidationErrors(result.error));
      }
      if i == -1 {
        return Response(404, NotFoundPage(id));
      }
      var updated := MovieRecord(movies[i].id, Merge(movies[i].movie, result.value));
      SchemaProperties.MergeKeepsValid(schema, movies[i].movie, result.value);
      ReplaceKeepsIds(movies, i, updated);
      movies := movies[i := updated];
      return Response(200, OneMovie(updated));
    }

    /** DELETE /movies/:id: remove the record with that id, or 404. */
    method Delete(id: string) returns (r: Response)
      requires Valid()
      modifies this
      ensures Valid()
      ensures id !in Ids(old(movies)) ==> r == Response(404, NotFoundMessage(id)) && movies == old(movies)
      ensures id in Ids(old(movies)) ==>
        var i := FindIndex(old(movies), id);
        && r == Response(204, NoContent)
        && movies == old(movies)[..i] + old(movies)[i + 1..]
        && |movies| == |old(movies)| - 1
        && Ids(movies) == Ids(old(movies)) - {id}
    {
      var i := FindIndex(movies, id);
      if i == -1 {
        return Response(404, NotFoundMessage(id));
      }
      RemoveDropsId(movies, i);
      movies := movies[..i] + movies[i + 1..];
      return Response(204, NoContent);
    }
  }

  /** A well-formed body posted and then fetched by the id it was given comes back with the same fields. */
  method CreateThenGet(api: MovieApi, body: Value, newId: string) returns (created: Response, fetched: Response)
    requires api.Valid() && newId !in Ids(api.movies)
    requires ValidateMovie(api.schema, body).Success?
    modifies api
    ensures created.status == 201 && fetched.status == 200
    ensures created.body.OneMovie? && fetched.body == created.body
    ensures created.body.movie == MovieRecord(newId, ValidateMovie(api.schema, body).value)
  {
    created := api.Create(body, newId);
    fetched := api.Get(newId);
  }

  /** Once a movie is deleted, fetching its id gives 404 and listing no longer shows it. */
  method DeleteThenGet(api: MovieApi, id: string) returns (deleted: Response, fetched: Response, listed: Response)
    requires api.Valid() && id in Ids(api.movies)
    modifies api
    ensures deleted.status == 204 && fetched == Response(404, NotFoundPage(id))
    ensures listed.body.MovieList? && forall m :: m in listed.body.movies ==> m.id != id
  {
    deleted := api.Delete(id);
    fetched := api.Get(id);
    listed := api.List(None);
  }
}
