/**
 * What the movie schema guarantees: which bodies each validation accepts and
 * with what data, how its issues name the failing fields, that unknown keys
 * are dropped, and that a partial update keeps a valid movie valid.
 */
module SchemaProperties {
  import opened Wrappers
  import opened Json
  import opened MovieSchema

  // ---------------------------------------------------------------------------
  // Helpers about encodings and issue lists

  lemma GenreArrayInjective(a: seq<string>, b: seq<string>)
    requires GenreArray(a) == GenreArray(b)
    ensures a == b
  {
    assert |a| == |GenreArray(a).items| == |GenreArray(b).items| == |b|;
    forall i | 0 <= i < |a| ensures a[i] == b[i] {
      assert GenreArray(a).items[i] == Str(a[i]);
      assert GenreArray(b).items[i] == Str(b[i]);
    }
  }

  lemma IntegralReal(n: int)
    ensures IsInt(n as real) && (n as real).Floor == n
  {
  }

  lemma MentionsAppend(a: seq<Issue>, b: seq<Issue>, key: string)
    ensures Mentions(a + b, key) <==> Mentions(a, key) || Mentions(b, key)
  {
    if Mentions(a + b, key) {
      var i :| 0 <= i < |a + b| && |(a + b)[i].path| > 0 && (a + b)[i].path[0] == Key(key);
      if i >= |a| {
        assert b[i - |a|] == (a + b)[i];
      }
    }
    if Mentions(b, key) {
      var i :| 0 <= i < |b| && |b[i].path| > 0 && b[i].path[0] == Key(key);
      assert (a + b)[i + |a|] == b[i];
    }
    if Mentions(a, key) {
      var i :| 0 <= i < |a| && |a[i].path| > 0 && a[i].path[0] == Key(key);
      assert (a + b)[i] == a[i];
    }
  }

  lemma MentionsOfOneField(issues: seq<Issue>, about: string, key: string)
    requires AllAbout(issues, about)
    ensures Mentions(issues, key) <==> issues != [] && about == key
  {
    if issues != [] && about == key {
      assert |issues[0].path| > 0 && issues[0].path[0] == Key(key);
    }
  }

  /** The issues of one rule's outcome name that rule's field exactly when it rejects. */
  lemma MentionsOfChecked<T>(c: Checked<T>, about: string, key: string)
    requires c.Reject? ==> c.issues != [] && AllAbout(c.issues, about)
    ensures Mentions(IssuesOf(c), key) <==> c.Reject? && about == key
  {
    if c.Reject? {
      MentionsOfOneField(c.issues, about, key);
    }
  }

  // ---------------------------------------------------------------------------
  // Full validation

  /**
   * Full validation accepts a body with data `m` exactly when the body is an
   * object whose seven schema keys hold `m`'s fields and `m` satisfies every
   * rule of the table.
   */
  lemma ValidateMovieExact(schema: Schema, body: Value, m: Movie)
    ensures ValidateMovie(schema, body) == Success(m) <==>
      body.Obj? && Carries(body.fields, m) && ValidMovie(schema, m)
  {
    if body.Obj? && Carries(body.fields, m) && ValidMovie(schema, m) {
      var fields := body.fields;
      IntegralReal(m.year);
      IntegralReal(m.duration);
      var genre := CheckGenre(Lookup(fields, "genre"));
      assert GenreArray(m.genre).items[0] == Str(m.genre[0]);
      assert forall i :: 0 <= i < |m.genre| ==> GenreArray(m.genre).items[i] == Str(m.genre[i]);
      assert genre.Accept?;
      GenreArrayInjective(genre.value, m.genre);
      var year := CheckYear(schema, Lookup(fields, "year"));
      assert year.value as real == m.year as real;
      var duration := CheckDuration(Lookup(fields, "duration"));
      assert duration.value as real == m.duration as real;
    }
  }

  /**
   * A stored record, viewed as the JSON object `{id, ...fields}`, passes full
   * validation, and validation gives back its fields without the id, exactly
   * when the fields satisfy the rule table.
   */
  lemma ValidateStoredRecord(schema: Schema, m: Movie, id: string)
    ensures ValidateMovie(schema, Obj(MovieFields(m)["id" := Str(id)])) == Success(m) <==> ValidMovie(schema, m)
  {
    var fields := MovieFields(m)["id" := Str(id)];
    assert Carries(fields, m);
    ValidateMovieExact(schema, Obj(fields), m);
  }

  /** Keys outside the schema, such as a client-supplied `id`, change neither validation. */
  lemma UnknownKeysIgnored(schema: Schema, f: map<string, Value>, g: map<string, Value>)
    requires forall k :: k in FIELD_NAMES ==> Lookup(f, k) == Lookup(g, k)
    ensures ValidateMovie(schema, Obj(f)) == ValidateMovie(schema, Obj(g))
    ensures ValidatePartialMovie(schema, Obj(f)) == ValidatePartialMovie(schema, Obj(g))
  {
    SameLookup(f, g, FIELD_NAMES[0]);
    SameLookup(f, g, FIELD_NAMES[1]);
    SameLookup(f, g, FIELD_NAMES[2]);
    SameLookup(f, g, FIELD_NAMES[3]);
    SameLookup(f, g, FIELD_NAMES[4]);
    SameLookup(f, g, FIELD_NAMES[5]);
    SameLookup(f, g, FIELD_NAMES[6]);
    assert CheckFields(schema, f) == CheckFields(schema, g);
    assert CheckPresentFields(schema, f) == CheckPresentFields(schema, g);
  }

  /** `CarriesPatch` spells out, key by key, that each schema key holds what the patch supplies for it. */
  lemma CarriesPatchIsSupplied(fields: map<string, Value>, p: Patch)
    ensures CarriesPatch(fields, p) <==> forall k :: k in FIELD_NAMES ==> Lookup(fields, k) == Supplied(p, k)
  {
    if CarriesPatch(fields, p) {
      forall k | k in FIELD_NAMES ensures Lookup(fields, k) == Supplied(p, k) {
        assert k == FIELD_NAMES[0] || k == FIELD_NAMES[1] || k == FIELD_NAMES[2] || k == FIELD_NAMES[3]
          || k == FIELD_NAMES[4] || k == FIELD_NAMES[5] || k == FIELD_NAMES[6];
      }
    }
    if forall k :: k in FIELD_NAMES ==> Lookup(fields, k) == Supplied(p, k) {
      assert Lookup(fields, FIELD_NAMES[0]) == Supplied(p, FIELD_NAMES[0]);
      assert Lookup(fields, FIELD_NAMES[1]) == Supplied(p, FIELD_NAMES[1]);
      assert Lookup(fields, FIELD_NAMES[2]) == Supplied(p, FIELD_NAMES[2]);
      assert Lookup(fields, FIELD_NAMES[3]) == Supplied(p, FIELD_NAMES[3]);
      assert Lookup(fields, FIELD_NAMES[4]) == Supplied(p, FIELD_NAMES[4]);
      assert Lookup(fields, FIELD_NAMES[5]) == Supplied(p, FIELD_NAMES[5]);
      assert Lookup(fields, FIELD_NAMES[6]) == Supplied(p, FIELD_NAMES[6]);
    }
  }

  lemma SameLookup(f: map<string, Value>, g: map<string, Value>, key: string)
    requires Lookup(f, key) == Lookup(g, key)
    ensures key in f <==> key in g
  {
  }

  /** Full validation succeeds exactly when every schema key passes its rule. */
  lemma ValidateMovieAcceptsIff(schema: Schema, body: Value)
    ensures ValidateMovie(schema, body).Success? <==>
      body.Obj? && forall k :: k in FIELD_NAMES ==> FieldAccepts(schema, k, Lookup(body.fields, k))
  {
    if body.Obj? && ValidateMovie(schema, body).Success? {
      forall k | k in FIELD_NAMES ensures FieldAccepts(schema, k, Lookup(body.fields, k)) {
      }
    }
    if body.Obj? && forall k :: k in FIELD_NAMES ==> FieldAccepts(schema, k, Lookup(body.fields, k)) {
      assert FieldAccepts(schema, FIELD_NAMES[0], Lookup(body.fields, FIELD_NAMES[0]));
      assert FieldAccepts(schema, FIELD_NAMES[1], Lookup(body.fields, FIELD_NAMES[1]));
      assert FieldAccepts(schema, FIELD_NAMES[2], Lookup(body.fields, FIELD_NAMES[2]));
      assert FieldAccepts(schema, FIELD_NAMES[3], Lookup(body.fields, FIELD_NAMES[3]));
      assert FieldAccepts(schema, FIELD_NAMES[4], Lookup(body.fields, FIELD_NAMES[4]));
      assert FieldAccepts(schema, FIELD_NAMES[5], Lookup(body.fields, FIELD_NAMES[5]));
      assert FieldAccepts(schema, FIELD_NAMES[6], Lookup(body.fields, FIELD_NAMES[6]));
    }
  }

  /**
   * A failed full validation reports every failing schema field and nothing
   * else: it does not stop at the first failing field.
   */
  lemma ValidateMovieReportsFailingFields(schema: Schema, fields: map<string, Value>, key: string)
    requires ValidateMovie(schema, Obj(fields)).Failure?
    ensures Mentions(ValidateMovie(schema, Obj(fields)).error, key) <==>
      key in FIELD_NAMES && !FieldAccepts(schema, key, Lookup(fields, key))
  {
    ReportsFailingFields(CheckFields(schema, fields), key);
  }

  /** A schema key missing from the body makes full validation fail with an issue about that key. */
  lemma MissingFieldReported(schema: Schema, fields: map<string, Value>, key: string)
    requires key in FIELD_NAMES && key !in fields
    ensures ValidateMovie(schema, Obj(fields)).Failure?
    ensures Mentions(ValidateMovie(schema, Obj(fields)).error, key)
  {
    ValidateMovieAcceptsIff(schema, Obj(fields));
    ValidateMovieReportsFailingFields(schema, fields, key);
  }

  /** The issues collected from the seven rule outcomes name exactly the rejecting rules' keys. */
  lemma ReportsFailingFields<A, B, C, D, E, F, G>(c: Outcomes<A, B, C, D, E, F, G>, key: string)
    requires c.WellReported()
    ensures Mentions(c.Issues(), key) <==> c.Rejects(key)
  {
    var i1, i2, i3, i4 := IssuesOf(c.title), IssuesOf(c.year), IssuesOf(c.genre), IssuesOf(c.director);
    var i5, i6, i7 := IssuesOf(c.duration), IssuesOf(c.rate), IssuesOf(c.poster);
    MentionsAppend(i1 + i2 + i3 + i4 + i5 + i6, i7, key);
    MentionsAppend(i1 + i2 + i3 + i4 + i5, i6, key);
    MentionsAppend(i1 + i2 + i3 + i4, i5, key);
    MentionsAppend(i1 + i2 + i3, i4, key);
    MentionsAppend(i1 + i2, i3, key);
    MentionsAppend(i1, i2, key);
    MentionsOfChecked(c.title, "title", key);
    MentionsOfChecked(c.year, "year", key);
    MentionsOfChecked(c.genre, "genre", key);
    MentionsOfChecked(c.director, "director", key);
    MentionsOfChecked(c.duration, "duration", key);
    MentionsOfChecked(c.rate, "rate", key);
    MentionsOfChecked(c.poster, "poster", key);
  }

  // ---------------------------------------------------------------------------
  // Partial validation

  /** Partial validation accepts a body exactly when every schema key PRESENT in it passes its rule. */
  lemma ValidatePartialAcceptsIff(schema: Schema, body: Value)
    ensures ValidatePartialMovie(schema, body).Success? <==>
      body.Obj? && forall k :: k in FIELD_NAMES && k in body.fields ==> FieldAccepts(schema, k, Some(body.fields[k]))
  {
    if body.Obj? {
      var f := body.fields;
      var c := CheckPresentFields(schema, f);
      forall k | k in FIELD_NAMES
        ensures (k in f ==> FieldAccepts(schema, k, Some(f[k]))) <==> !c.Rejects(k)
      {
        FieldAcceptsIsOutcome(schema, f, k);
      }
      AllAcceptedIff(c);
    }
  }

  /** `FieldAccepts` agrees with the outcome of the same key's rule in `CheckFields`. */
  lemma FieldAcceptsIsOutcome(schema: Schema, fields: map<string, Value>, key: string)
    requires key in FIELD_NAMES
    ensures FieldAccepts(schema, key, Lookup(fields, key)) <==> !CheckFields(schema, fields).Rejects(key)
  {
  }

  /** All seven rules accepted exactly when none of the schema keys is rejected. */
  lemma AllAcceptedIff<A, B, C, D, E, F, G>(c: Outcomes<A, B, C, D, E, F, G>)
    ensures c.AllAccepted() <==> forall k :: k in FIELD_NAMES ==> !c.Rejects(k)
  {
    if !c.AllAccepted() {
      if c.title.Reject? { assert c.Rejects(FIELD_NAMES[0]); }
      else if c.year.Reject? { assert c.Rejects(FIELD_NAMES[1]); }
      else if c.genre.Reject? { assert c.Rejects(FIELD_NAMES[2]); }
      else if c.director.Reject? { assert c.Rejects(FIELD_NAMES[3]); }
      else if c.duration.Reject? { assert c.Rejects(FIELD_NAMES[4]); }
      else if c.rate.Reject? { assert c.Rejects(FIELD_NAMES[5]); }
      else { assert c.Rejects(FIELD_NAMES[6]); }
    }
  }

  /** A failed partial validation reports every present field that fails its rule, and nothing else. */
  lemma ValidatePartialReportsFailingFields(schema: Schema, fields: map<string, Value>, key: string)
    requires ValidatePartialMovie(schema, Obj(fields)).Failure?
    ensures Mentions(ValidatePartialMovie(schema, Obj(fields)).error, key) <==>
      key in FIELD_NAMES && key in fields && !FieldAccepts(schema, key, Some(fields[key]))
  {
    ReportsFailingFields(CheckPresentFields(schema, fields), key);
  }

  /**
   * Partial validation accepts a body with patch `p` exactly when the body is
   * an object whose schema keys are present just for `p`'s supplied fields,
   * hold their values, and those values satisfy the rule table.
   */
  lemma ValidatePartialExact(schema: Schema, body: Value, p: Patch)
    ensures ValidatePartialMovie(schema, body) == Success(p) <==>
      body.Obj? && CarriesPatch(body.fields, p) && ValidPatch(schema, p)
  {
    if body.Obj? && CarriesPatch(body.fields, p) && ValidPatch(schema, p) {
      var fields := body.fields;
      if p.year.Some? {
        IntegralReal(p.year.value);
        var year := CheckYear(schema, Lookup(fields, "year"));
        assert year.value as real == p.year.value as real;
      }
      if p.duration.Some? {
        IntegralReal(p.duration.value);
        var duration := CheckDuration(Lookup(fields, "duration"));
        assert duration.value as real == p.duration.value as real;
      }
      if p.genre.Some? {
        var gs := p.genre.value;
        assert GenreArray(gs).items[0] == Str(gs[0]);
        assert forall i :: 0 <= i < |gs| ==> GenreArray(gs).items[i] == Str(gs[i]);
        var genre := CheckGenre(Lookup(fields, "genre"));
        assert genre.Accept?;
        GenreArrayInjective(genre.value, gs);
      }
    }
  }

  /** An empty body passes partial validation and supplies no field. */
  lemma ValidatePartialOfEmptyBody(schema: Schema)
    ensures ValidatePartialMovie(schema, Obj(map[])) == Success(EMPTY_PATCH)
  {
  }

  /** Whatever full validation accepts, partial validation accepts too, supplying every field. */
  lemma FullImpliesPartial(schema: Schema, body: Value, m: Movie)
    requires ValidateMovie(schema, body) == Success(m)
    ensures ValidatePartialMovie(schema, body) == Success(AllSupplied(m))
  {
    ValidateMovieExact(schema, body, m);
    ValidatePartialExact(schema, body, AllSupplied(m));
  }

  // ---------------------------------------------------------------------------
  // Merging a patch onto a record

  /** Merging is the object spread `{...m, ...p}` on the JSON view of the two. */
  lemma MergeIsSpread(m: Movie, p: Patch)
    ensures MovieFields(Merge(m, p)) == MovieFields(m) + PatchFields(p)
  {
    var spread := MovieFields(m) + PatchFields(p);
    var merged := MovieFields(Merge(m, p));
    assert PatchFields(p).Keys <= MovieFields(m).Keys;
    assert spread.Keys == merged.Keys;
    forall k | k in merged ensures merged[k] == spread[k] {
      SpreadAt(m, p, k);
    }
  }

  lemma SpreadAt(m: Movie, p: Patch, k: string)
    requires k in MovieFields(m)
    ensures MovieFields(Merge(m, p))[k] == (MovieFields(m) + PatchFields(p))[k]
  {
    if k in PatchFields(p) {
      assert (MovieFields(m) + PatchFields(p))[k] == Supplied(p, k).value;
    }
  }

  /** A patch that passed partial validation keeps a valid movie valid. */
  lemma MergeKeepsValid(schema: Schema, m: Movie, p: Patch)
    requires ValidMovie(schema, m) && ValidPatch(schema, p)
    ensures ValidMovie(schema, Merge(m, p))
  {
  }

  // ---------------------------------------------------------------------------
  // The field rules at their edges

  lemma TitleEdges()
    ensures CheckTitle(Some(Str(""))) == Reject([Issue([Key("title")], TooSmall(1), Some("Title must be at least 1 character"))])
    ensures CheckTitle(None) == Reject([Issue([Key("title")], InvalidType(StringType, UndefinedType), Some("Title is required"))])
    ensures CheckTitle(Some(Num(1.0))) == Reject([Issue([Key("title")], InvalidType(StringType, NumberType), Some("Title must be a string"))])
    ensures CheckTitle(Some(Str("X"))) == Accept("X")
  {
  }

  lemma YearEdges(schema: Schema)
    requires schema.maxYear >= MIN_YEAR
    ensures CheckYear(schema, Some(Num(1800.0))) == Accept(1800)
    ensures CheckYear(schema, Some(Num(schema.maxYear as real))) == Accept(schema.maxYear)
    ensures CheckYear(schema, Some(Num(1799.0))) == Reject([Issue([Key("year")], TooSmall(MIN_YEAR), None)])
    ensures CheckYear(schema, Some(Num(schema.maxYear as real + 1.0))) == Reject([Issue([Key("year")], TooBig(schema.maxYear), None)])
    ensures CheckYear(schema, Some(Num(1799.5))) ==
      Reject([Issue([Key("year")], NotInteger, Some("Year must be an integer number between 1880 and the current year.")),
              Issue([Key("year")], TooSmall(MIN_YEAR), None)])
  {
    IntegralReal(schema.maxYear);
    IntegralReal(schema.maxYear + 1);
    assert !IsInt(1799.5);
  }

  /** Repeated genre names are accepted. */
  lemma GenreDuplicatesAccepted()
    ensures CheckGenre(Some(Arr([Str("Drama"), Str("Drama")]))) == Accept(["Drama", "Drama"])
  {
    assert IsGenre("Drama") by { assert GENRES[3] == "Drama"; }
    var c := CheckGenre(Some(Arr([Str("Drama"), Str("Drama")])));
    GenreArrayInjective(c.value, ["Drama", "Drama"]);
  }

  /** Genre names are compared case-sensitively. */
  lemma GenreCaseSensitive()
    ensures CheckGenre(Some(Arr([Str("drama")]))) == Reject([Issue([Key("genre"), Index(0)], InvalidEnumValue("drama"), None)])
  {
    assert !IsGenre("drama") by {
      forall i | 0 <= i < |GENRES| ensures GENRES[i] != "drama" {
        assert GENRES[i][0] != 'd';
      }
    }
    assert GenreItemsIssues([Str("drama")], 0) == GenreItemIssues(Str("drama"), 0) + GenreItemsIssues([], 1);
  }

  lemma GenreEmptyOrNotArrayRejected()
    ensures CheckGenre(Some(Arr([]))) == Reject([Issue([Key("genre")], TooSmall(1), Some("At least one genre is required"))])
    ensures CheckGenre(Some(Str("Drama"))) == Reject([Issue([Key("genre")], InvalidType(ArrayType, StringType), Some("Genre must be a valid genre"))])
  {
  }

  lemma DurationAndRateEdges()
    ensures CheckDuration(Some(Num(0.0))) == Accept(0)
    ensures CheckDuration(Some(Num(-1.0))) == Reject([Issue([Key("duration")], TooSmall(0), None)])
    ensures CheckDuration(Some(Num(2.5))) == Reject([Issue([Key("duration")], NotInteger, None)])
    ensures CheckRate(Some(Num(0.0))) == Accept(0.0)
    ensures CheckRate(Some(Num(10.0))) == Accept(10.0)
    ensures CheckRate(Some(Num(-0.1))) == Reject([Issue([Key("rate")], TooSmall(0), None)])
    ensures CheckRate(Some(Num(10.1))) == Reject([Issue([Key("rate")], TooBig(MAX_RATE), None)])
  {
    assert !IsInt(2.5);
  }
}
