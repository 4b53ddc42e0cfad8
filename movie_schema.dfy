/**
 * The movie schema: one rule per field of a movie record, a full validation
 * that requires every field, and a partial validation that makes every field
 * optional but applies the same rule to each field that is present.
 *
 * Both validations collect the issues of every field in one pass (a field's
 * type error stops that field's own checks, but never the other fields) and
 * drop keys the schema does not name, such as `id`.
 */
module MovieSchema {
  import opened Wrappers
  import opened Json

  /** The 21 genre names; membership is case-sensitive. */
  const GENRES: seq<string> := [
    "Action", "Adventure", "Comedy", "Drama", "Fantasy", "Horror", "Mystery",
    "Thriller", "Western", "Sci-Fi", "Animation", "Documentary", "Biography",
    "Crime", "Romance", "Family", "War", "History", "Music", "Sport", "Musical"
  ]

  /** The keys the schema names, in the order it checks them. */
  const FIELD_NAMES: seq<string> := ["title", "year", "genre", "director", "duration", "rate", "poster"]

  const MIN_YEAR: int := 1800
  const MAX_RATE: int := 10

  /**
   * The schema object as it is built when its module is loaded: the upper
   * bound of `year` is the calendar year at that moment, and `isUrl` is the
   * URL parser's verdict on a string.
   */
  datatype Schema = Schema(maxYear: int, isUrl: string -> bool)

  /** Validated movie data. It has the seven schema fields and nothing else. */
  datatype Movie = Movie(
    title: string,
    year: int,
    genre: seq<string>,
    director: string,
    duration: int,
    rate: real,
    poster: string)

  /** Validated partial data: `Some` exactly for the fields the body supplied. */
  datatype Patch = Patch(
    title: Option<string>,
    year: Option<int>,
    genre: Option<seq<string>>,
    director: Option<string>,
    duration: Option<int>,
    rate: Option<real>,
    poster: Option<string>)

  const EMPTY_PATCH: Patch := Patch(None, None, None, None, None, None, None)

  // ---------------------------------------------------------------------------
  // Issues

  datatype PathSegment = Key(name: string) | Index(i: nat)

  /** What went wrong, with the bound or the value the check reports. */
  datatype IssueCode =
    | InvalidType(expected: JsonType, received: JsonType)
    | NotInteger
    | TooSmall(minimum: int)
    | TooBig(maximum: int)
    | InvalidEnumValue(option: string)
    | InvalidUrl

  /** One field-level issue; `message` is the schema's own text, when it sets one. */
  datatype Issue = Issue(path: seq<PathSegment>, code: IssueCode, message: Option<string>)

  /** True when every issue in `issues` is about the field `key`. */
  predicate AllAbout(issues: seq<Issue>, key: string)
  {
    forall i :: 0 <= i < |issues| ==> |issues[i].path| > 0 && issues[i].path[0] == Key(key)
  }

  /** True when some issue in `issues` is about the field `key`. */
  predicate Mentions(issues: seq<Issue>, key: string)
  {
    exists i :: 0 <= i < |issues| && |issues[i].path| > 0 && issues[i].path[0] == Key(key)
  }

  /** The outcome of one field's rule. */
  datatype Checked<T> = Accept(value: T) | Reject(issues: seq<Issue>)

  function IssuesOf<T>(c: Checked<T>): seq<Issue>
  {
    match c
    case Accept(_) => []
    case Reject(issues) => issues
  }

  // ---------------------------------------------------------------------------
  // The rule table on typed data

  predicate IsInt(n: real)
  {
    n.Floor as real == n
  }

  predicate ValidTitle(title: string)
  {
    |title| >= 1
  }

  predicate ValidYear(schema: Schema, year: int)
  {
    MIN_YEAR <= year <= schema.maxYear
  }

  predicate IsGenre(name: string)
  {
    name in GENRES
  }

  predicate ValidGenres(genre: seq<string>)
  {
    |genre| >= 1 && forall i :: 0 <= i < |genre| ==> IsGenre(genre[i])
  }

  predicate ValidDuration(duration: int)
  {
    duration >= 0
  }

  predicate ValidRate(rate: real)
  {
    0.0 <= rate <= MAX_RATE as real
  }

  /** A movie every field of which satisfies the schema's rule for it. */
  predicate ValidMovie(schema: Schema, m: Movie)
  {
    && ValidTitle(m.title)
    && ValidYear(schema, m.year)
    && ValidGenres(m.genre)
    && ValidDuration(m.duration)
    && ValidRate(m.rate)
    && schema.isUrl(m.poster)
  }

  /** A patch every supplied field of which satisfies the schema's rule for it. */
  predicate ValidPatch(schema: Schema, p: Patch)
  {
    && (p.title.Some? ==> ValidTitle(p.title.value))
    && (p.year.Some? ==> ValidYear(schema, p.year.value))
    && (p.genre.Some? ==> ValidGenres(p.genre.value))
    && (p.duration.Some? ==> ValidDuration(p.duration.value))
    && (p.rate.Some? ==> ValidRate(p.rate.value))
    && (p.poster.Some? ==> schema.isUrl(p.poster.value))
  }

  // ---------------------------------------------------------------------------
  // JSON encodings of typed data

  function GenreArray(genre: seq<string>): Value
  {
    Arr(seq(|genre|, i requires 0 <= i < |genre| => Str(genre[i])))
  }

  /** The JSON value `p` supplies for schema key `key`, if any. */
  function Supplied(p: Patch, key: string): Option<Value>
  {
    if key == "title" then (if p.title.Some? then Some(Str(p.title.value)) else None)
    else if key == "year" then (if p.year.Some? then Some(Num(p.year.value as real)) else None)
    else if key == "genre" then (if p.genre.Some? then Some(GenreArray(p.genre.value)) else None)
    else if key == "director" then (if p.director.Some? then Some(Str(p.director.value)) else None)
    else if key == "duration" then (if p.duration.Some? then Some(Num(p.duration.value as real)) else None)
    else if key == "rate" then (if p.rate.Some? then Some(Num(p.rate.value)) else None)
    else if key == "poster" then (if p.poster.Some? then Some(Str(p.poster.value)) else None)
    else None
  }

  /** The JSON object that carries exactly the fields `p` supplies. */
  function PatchFields(p: Patch): map<string, Value>
  {
    map k | k in FIELD_NAMES && Supplied(p, k).Some? :: Supplied(p, k).value
  }

  /** The JSON object that carries exactly the fields of `m`. */
  function MovieFields(m: Movie): map<string, Value>
  {
    map[
      "title" := Str(m.title),
      "year" := Num(m.year as real),
      "genre" := GenreArray(m.genre),
      "director" := Str(m.director),
      "duration" := Num(m.duration as real),
      "rate" := Num(m.rate),
      "poster" := Str(m.poster)]
  }

  /** A key is present exactly when the patch supplies it, and holds the JSON encoding of the supplied value. */
  predicate CarriesPatch(fields: map<string, Value>, p: Patch)
  {
    && Lookup(fields, "title") == (if p.title.Some? then Some(Str(p.title.value)) else None)
    && Lookup(fields, "year") == (if p.year.Some? then Some(Num(p.year.value as real)) else None)
    && Lookup(fields, "genre") == (if p.genre.Some? then Some(GenreArray(p.genre.value)) else None)
    && Lookup(fields, "director") == (if p.director.Some? then Some(Str(p.director.value)) else None)
    && Lookup(fields, "duration") == (if p.duration.Some? then Some(Num(p.duration.value as real)) else None)
    && Lookup(fields, "rate") == (if p.rate.Some? then Some(Num(p.rate.value)) else None)
    && Lookup(fields, "poster") == (if p.poster.Some? then Some(Str(p.poster.value)) else None)
  }

  /** The patch that supplies every field of `m`. */
  function AllSupplied(m: Movie): Patch
  {
    Patch(Some(m.title), Some(m.year), Some(m.genre), Some(m.director),
          Some(m.duration), Some(m.rate), Some(m.poster))
  }

  /** The body's seven schema keys hold exactly the JSON encoding of `m`'s fields. */
  predicate Carries(fields: map<string, Value>, m: Movie)
  {
    CarriesPatch(fields, AllSupplied(m))
  }

  // ---------------------------------------------------------------------------
  // The per-field rules on JSON input (`None` is an absent key)

  /** `title`: a string of at least one character. */
  function CheckTitle(v: Option<Value>): (r: Checked<string>)
    ensures r.Accept? <==> v.Some? && v.value.Str? && ValidTitle(v.value.s)
    ensures r.Accept? ==> v == Some(Str(r.value))
    ensures r.Reject? ==> r.issues != [] && AllAbout(r.issues, "title")
  {
    var path := [Key("title")];
    match v
    case None => Reject([Issue(path, InvalidType(StringType, UndefinedType), Some("Title is required"))])
    case Some(Str(s)) =>
      if |s| < 1 then Reject([Issue(path, TooSmall(1), Some("Title must be at least 1 character"))])
      else Accept(s)
    case Some(_) => Reject([Issue(path, InvalidType(StringType, TypeOf(v)), Some("Title must be a string"))])
  }

  /** `year`: an integer from MIN_YEAR up to the year captured when the schema was built. */
  function CheckYear(schema: Schema, v: Option<Value>): (r: Checked<int>)
    ensures r.Accept? <==> v.Some? && v.value.Num? && IsInt(v.value.n) && ValidYear(schema, v.value.n.Floor)
    ensures r.Accept? ==> v == Some(Num(r.value as real))
    ensures r.Reject? ==> r.issues != [] && AllAbout(r.issues, "year")
  {
    var path := [Key("year")];
    match v
    case None => Reject([Issue(path, InvalidType(NumberType, UndefinedType), Some("Year is required"))])
    case Some(Num(n)) =>
      // the integer check's own options are ignored; its failure is an invalid-type
      // issue, so it takes the number's invalid-type message
      var issues :=
        (if IsInt(n) then [] else [Issue(path, NotInteger, Some("Year must be an integer number between 1880 and the current year."))])
        + (if n < MIN_YEAR as real then [Issue(path, TooSmall(MIN_YEAR), None)] else [])
        + (if n > schema.maxYear as real then [Issue(path, TooBig(schema.maxYear), None)] else []);
      if issues == [] then Accept(n.Floor) else Reject(issues)
    case Some(_) =>
      Reject([Issue(path, InvalidType(NumberType, TypeOf(v)),
                    Some("Year must be an integer number between 1880 and the current year."))])
  }

  /** The issue, if any, of the genre array's element at `index`. */
  function GenreItemIssues(item: Value, index: nat): (r: seq<Issue>)
    ensures r == [] <==> item.Str? && IsGenre(item.s)
    ensures AllAbout(r, "genre")
  {
    var path := [Key("genre"), Index(index)];
    match item
    case Str(s) => if IsGenre(s) then [] else [Issue(path, InvalidEnumValue(s), None)]
    case _ => [Issue(path, InvalidType(StringType, TypeOf(Some(item))), None)]
  }

  /** The issues of every element of `items`, whose first element sits at index `from` of the array. */
  function GenreItemsIssues(items: seq<Value>, from: nat): (r: seq<Issue>)
    ensures r == [] <==> forall i :: 0 <= i < |items| ==> items[i].Str? && IsGenre(items[i].s)
    ensures AllAbout(r, "genre")
    decreases |items|
  {
    if items == [] then []
    else
      var rest := GenreItemsIssues(items[1..], from + 1);
      assert forall i :: 1 <= i < |items| ==> items[i] == items[1..][i - 1];
      GenreItemIssues(items[0], from) + rest
  }

  /** The strings held by an array all of whose elements are strings. */
  function Strings(items: seq<Value>): (r: seq<string>)
    requires forall i :: 0 <= i < |items| ==> items[i].Str?
    ensures GenreArray(r) == Arr(items)
  {
    var r := seq(|items|, i requires 0 <= i < |items| => items[i].s);
    assert GenreArray(r).items == items;
    r
  }

  /** `genre`: a non-empty array of genre names; repeated names are allowed. */
  function CheckGenre(v: Option<Value>): (r: Checked<seq<string>>)
    ensures r.Accept? <==>
      v.Some? && v.value.Arr? && |v.value.items| >= 1
      && forall i :: 0 <= i < |v.value.items| ==> v.value.items[i].Str? && IsGenre(v.value.items[i].s)
    ensures r.Accept? ==> v == Some(GenreArray(r.value)) && ValidGenres(r.value)
    ensures r.Reject? ==> r.issues != [] && AllAbout(r.issues, "genre")
  {
    var path := [Key("genre")];
    match v
    case None => Reject([Issue(path, InvalidType(ArrayType, UndefinedType), Some("Genres is required"))])
    case Some(Arr(items)) =>
      var issues :=
        (if |items| < 1 then [Issue(path, TooSmall(1), Some("At least one genre is required"))] else [])
        + GenreItemsIssues(items, 0);
      if issues == [] then Accept(Strings(items)) else Reject(issues)
    case Some(_) => Reject([Issue(path, InvalidType(ArrayType, TypeOf(v)), Some("Genre must be a valid genre"))])
  }

  /** `director`: any string. */
  function CheckDirector(v: Option<Value>): (r: Checked<string>)
    ensures r.Accept? <==> v.Some? && v.value.Str?
    ensures r.Accept? ==> v == Some(Str(r.value))
    ensures r.Reject? ==> r.issues != [] && AllAbout(r.issues, "director")
  {
    match v
    case Some(Str(s)) => Accept(s)
    case _ => Reject([Issue([Key("director")], InvalidType(StringType, TypeOf(v)), None)])
  }

  /** `duration`: a non-negative integer. */
  function CheckDuration(v: Option<Value>): (r: Checked<int>)
    ensures r.Accept? <==> v.Some? && v.value.Num? && IsInt(v.value.n) && ValidDuration(v.value.n.Floor)
    ensures r.Accept? ==> v == Some(Num(r.value as real))
    ensures r.Reject? ==> r.issues != [] && AllAbout(r.issues, "duration")
  {
    var path := [Key("duration")];
    match v
    case Some(Num(n)) =>
      var issues :=
        (if IsInt(n) then [] else [Issue(path, NotInteger, None)])
        + (if n < 0.0 then [Issue(path, TooSmall(0), None)] else []);
      if issues == [] then Accept(n.Floor) else Reject(issues)
    case _ => Reject([Issue(path, InvalidType(NumberType, TypeOf(v)), None)])
  }

  /** `rate`: a number from 0 to MAX_RATE, both ends included. */
  function CheckRate(v: Option<Value>): (r: Checked<real>)
    ensures r.Accept? <==> v.Some? && v.value.Num? && ValidRate(v.value.n)
    ensures r.Accept? ==> v == Some(Num(r.value))
    ensures r.Reject? ==> r.issues != [] && AllAbout(r.issues, "rate")
  {
    var path := [Key("rate")];
    match v
    case Some(Num(n)) =>
      var issues :=
        (if n < 0.0 then [Issue(path, TooSmall(0), None)] else [])
        + (if n > MAX_RATE as real then [Issue(path, TooBig(MAX_RATE), None)] else []);
      if issues == [] then Accept(n) else Reject(issues)
    case _ => Reject([Issue(path, InvalidType(NumberType, TypeOf(v)), None)])
  }

  /** `poster`: a string the URL parser accepts. */
  function CheckPoster(schema: Schema, v: Option<Value>): (r: Checked<string>)
    ensures r.Accept? <==> v.Some? && v.value.Str? && schema.isUrl(v.value.s)
    ensures r.Accept? ==> v == Some(Str(r.value))
    ensures r.Reject? ==> r.issues != [] && AllAbout(r.issues, "poster")
    ensures v.Some? && v.value.Str? && !schema.isUrl(v.value.s) ==>
      r == Reject([Issue([Key("poster")], InvalidUrl, Some("Poster must be a valid URL"))])
  {
    var path := [Key("poster")];
    match v
    case Some(Str(s)) =>
      if schema.isUrl(s) then Accept(s)
      else Reject([Issue(path, InvalidUrl, Some("Poster must be a valid URL"))])
    case _ => Reject([Issue(path, InvalidType(StringType, TypeOf(v)), None)])
  }

  /** Whether the rule for schema key `key` accepts `v`; keys outside the schema are ignored. */
  predicate FieldAccepts(schema: Schema, key: string, v: Option<Value>)
  {
    if key == "title" then CheckTitle(v).Accept?
    else if key == "year" then CheckYear(schema, v).Accept?
    else if key == "genre" then CheckGenre(v).Accept?
    else if key == "director" then CheckDirector(v).Accept?
    else if key == "duration" then CheckDuration(v).Accept?
    else if key == "rate" then CheckRate(v).Accept?
    else if key == "poster" then CheckPoster(schema, v).Accept?
    else true
  }

  /** A body that is not an object is refused as a whole, with one issue at the root. */
  function NotAnObject(body: Value): seq<Issue>
  {
    [Issue([], InvalidType(ObjectType, TypeOf(Some(body))), None)]
  }

  // ---------------------------------------------------------------------------
  // Full and partial validation

  /** The outcomes of the seven rules, in the schema's key order. */
  datatype Outcomes<A, B, C, D, E, F, G> = Outcomes(
    title: Checked<A>,
    year: Checked<B>,
    genre: Checked<C>,
    director: Checked<D>,
    duration: Checked<E>,
    rate: Checked<F>,
    poster: Checked<G>)
  {
    predicate AllAccepted()
    {
      title.Accept? && year.Accept? && genre.Accept? && director.Accept?
      && duration.Accept? && rate.Accept? && poster.Accept?
    }

    /** Every field's issues, collected in key order. */
    function Issues(): seq<Issue>
    {
      IssuesOf(title) + IssuesOf(year) + IssuesOf(genre) + IssuesOf(director)
      + IssuesOf(duration) + IssuesOf(rate) + IssuesOf(poster)
    }

    /** Each rejecting rule reports at least one issue, and only about its own key. */
    predicate WellReported()
    {
      && (title.Reject? ==> title.issues != [] && AllAbout(title.issues, "title"))
      && (year.Reject? ==> year.issues != [] && AllAbout(year.issues, "year"))
      && (genre.Reject? ==> genre.issues != [] && AllAbout(genre.issues, "genre"))
      && (director.Reject? ==> director.issues != [] && AllAbout(director.issues, "director"))
      && (duration.Reject? ==> duration.issues != [] && AllAbout(duration.issues, "duration"))
      && (rate.Reject? ==> rate.issues != [] && AllAbout(rate.issues, "rate"))
      && (poster.Reject? ==> poster.issues != [] && AllAbout(poster.issues, "poster"))
    }

    /** Whether the rule for `key` rejected. */
    predicate Rejects(key: string)
    {
      || (key == "title" && title.Reject?)
      || (key == "year" && year.Reject?)
      || (key == "genre" && genre.Reject?)
      || (key == "director" && director.Reject?)
      || (key == "duration" && duration.Reject?)
      || (key == "rate" && rate.Reject?)
      || (key == "poster" && poster.Reject?)
    }
  }

  /** Every rule applied to the value its key holds (`None` when the key is absent). */
  function CheckFields(schema: Schema, fields: map<string, Value>): (r: Outcomes<string, int, seq<string>, string, int, real, string>)
    ensures r.WellReported()
  {
    Outcomes(
      CheckTitle(Lookup(fields, "title")),
      CheckYear(schema, Lookup(fields, "year")),
      CheckGenre(Lookup(fields, "genre")),
      CheckDirector(Lookup(fields, "director")),
      CheckDuration(Lookup(fields, "duration")),
      CheckRate(Lookup(fields, "rate")),
      CheckPoster(schema, Lookup(fields, "poster")))
  }

  /** A rule made optional: an absent key is accepted and yields no value. */
  function Optional<T>(present: bool, c: Checked<T>): (r: Checked<Option<T>>)
    ensures r.Accept? <==> !present || c.Accept?
    ensures r.Accept? ==> (r.value.Some? <==> present) && (present ==> r.value.value == c.value)
    ensures IssuesOf(r) == if present then IssuesOf(c) else []
  {
    if !present then Accept(None)
    else match c
      case Accept(x) => Accept(Some(x))
      case Reject(issues) => Reject(issues)
  }

  /** The rules of `CheckFields`, each made optional. */
  function CheckPresentFields(schema: Schema, fields: map<string, Value>):
    (r: Outcomes<Option<string>, Option<int>, Option<seq<string>>, Option<string>, Option<int>, Option<real>, Option<string>>)
    ensures r.WellReported()
  {
    var c := CheckFields(schema, fields);
    Outcomes(
      Optional("title" in fields, c.title),
      Optional("year" in fields, c.year),
      Optional("genre" in fields, c.genre),
      Optional("director" in fields, c.director),
      Optional("duration" in fields, c.duration),
      Optional("rate" in fields, c.rate),
      Optional("poster" in fields, c.poster))
  }

  /** Validation of a whole movie: every schema field must be present and valid. */
  function ValidateMovie(schema: Schema, body: Value): (r: Result<Movie, seq<Issue>>)
    ensures r.Success? ==> ValidMovie(schema, r.value)
    ensures r.Failure? ==> r.error != []
  {
    match body
    case Obj(fields) =>
      var c := CheckFields(schema, fields);
      if c.AllAccepted() then
        Success(Movie(c.title.value, c.year.value, c.genre.value, c.director.value,
                      c.duration.value, c.rate.value, c.poster.value))
      else Failure(c.Issues())
    case _ => Failure(NotAnObject(body))
  }

  /** Validation of a partial movie: each field is optional, and a present one is checked by its rule. */
  function ValidatePartialMovie(schema: Schema, body: Value): (r: Result<Patch, seq<Issue>>)
    ensures r.Success? ==> ValidPatch(schema, r.value)
    ensures r.Failure? ==> r.error != []
  {
    match body
    case Obj(fields) =>
      var c := CheckPresentFields(schema, fields);
      if c.AllAccepted() then
        Success(Patch(c.title.value, c.year.value, c.genre.value, c.director.value,
                      c.duration.value, c.rate.value, c.poster.value))
      else Failure(c.Issues())
    case _ => Failure(NotAnObject(body))
  }

  /** The record `{...m, ...p}`: each field supplied by `p` replaces `m`'s. */
  function Merge(m: Movie, p: Patch): Movie
  {
    Movie(
      p.title.GetOr(m.title),
      p.year.GetOr(m.year),
      p.genre.GetOr(m.genre),
      p.director.GetOr(m.director),
      p.duration.GetOr(m.duration),
      p.rate.GetOr(m.rate),
      p.poster.GetOr(m.poster))
  }
}
