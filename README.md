# Movie catalog REST API — Dafny model

This project models a small REST service for a movie catalog. The service has two parts:

- a **movie schema** (`Schemas/movies.js`): a rule per field of a movie record, a full validation that requires every field, and a partial validation for updates that makes every field optional;
- an **in-memory collection** with five route handlers (`app.js`): list all movies or filter them by genre, fetch one by id, create, partially update, and delete.

Files:

- `wrappers.dfy`: `Option` (where `None` is JavaScript's `undefined`) and `Result`.
- `json.dfy`: parsed JSON request bodies (`Json.Value`) and the runtime type names the validator reports.
- `movie_schema.dfy`: the schema as pure functions. `Schema(maxYear, isUrl)` is the schema object as it is built once, when its module is loaded. `maxYear` is the calendar year at that moment. `isUrl` is the URL parser's verdict. Each field rule (`CheckTitle` … `CheckPoster`) follows the validation library's order. The type check comes first and, when it fails, stops that field. The remaining checks of the field all run, so `1799.5` for `year` yields two issues. `ValidateMovie` and `ValidatePartialMovie` apply all seven rules and collect every field's issues in key order. They return the validated `Movie` or `Patch`, which never carries keys outside the schema (such as `id`).
- `genre_issues.dfy`: where the genre rule's issues point. Each element's issues are viewed as one part of a concatenation, and the lemmas show that each unlisted element is reported at its own index, and that each issue sits at such an index.
- `schema_properties.dfy`: what the two validations guarantee. It covers exact acceptance conditions, round trips, issue reporting, dropped unknown keys, merging, and edge values of each rule.
- `collection.dfy`: the collection as `seq<MovieRecord>` and the read-only queries the handlers run on it (`FindIndex` for `find`/`findIndex`, `FilterByGenre` for `filter`/`some`). It also has the facts about ids that the three updates need.
- `app.dfy`: the class `MovieApi`, which holds the shared `movies` sequence. It has one method per route, each returning a status code and a body. Its invariant `Valid()` says that ids are unique and every stored record passes full validation. Every mutating handler preserves `Valid()`. The file also has the cross-origin predicate.

In these places the model follows the code as written:

- The upper bound of `year` is the year captured when the schema object is built (`Schemas/movies.js:13`), not the year at each call.
- The schema's invalid-type message for `year` names 1880 as the lower bound, while the check itself uses 1800. The model keeps both as written.
- The `.int(...)` check of `year` is given an `invalid_type_error` option (`Schemas/movies.js:11-12`), which the validation library ignores. Its failure is an invalid-type issue, so it takes the number's own `invalid_type_error` text from `Schemas/movies.js:10`, not the text at line 12.
- `GET /movies?genre=` (an empty string) is falsy in the handler. It returns the whole list.
- The cross-origin gate also admits an empty `Origin` value, because the handler tests `!origin`.

## Model

| member | source | states |
|---|---|---|
| `MovieSchema.CheckTitle` | Schemas/movies.js:4-7 | accepts exactly a string of length at least 1 and yields that string; otherwise it rejects with issues on `title` only |
| `MovieSchema.CheckYear` | Schemas/movies.js:8-13 | accepts exactly an integral number n with 1800 <= n <= the year captured in the schema, and yields n; otherwise it rejects with issues on `year` only |
| `MovieSchema.GenreItemsIssues` | Schemas/movies.js:14-36 | gives no issue exactly when every element is a string in the 21-name list (compared case-sensitively); every issue it gives is about `genre` |
| `GenreIssues.GenreItemIssue` | Schemas/movies.js:14-36 | an element that yields an issue is not a listed name, and yields exactly one issue, at path `genre`, its index; for a string the issue is an invalid-enum issue naming it |
| `GenreIssues.GenreItemsIssuesPoint` | Schemas/movies.js:14-36 | every unlisted element has an issue at path `genre`, its index (naming the value when it is a string), and every issue sits at the index of an unlisted element |
| `MovieSchema.CheckGenre` | Schemas/movies.js:14-40 | accepts exactly a non-empty array of listed genre names, and yields names whose JSON array is the input; the result satisfies the genre rule |
| `GenreIssues.CheckGenreNamesEntries` | Schemas/movies.js:14-40 | an array with an unlisted element is rejected, with an issue at that element's index that names the value when it is a string |
| `GenreIssues.CheckGenreIssuesLocated` | Schemas/movies.js:14-40 | every issue of a rejected genre array is about the array itself (its size) or sits at the index of an unlisted element |
| `MovieSchema.CheckDirector` | Schemas/movies.js:41 | accepts exactly a string, of any length |
| `MovieSchema.CheckDuration` | Schemas/movies.js:42 | accepts exactly an integral number >= 0 and yields it |
| `MovieSchema.CheckRate` | Schemas/movies.js:43 | accepts exactly a number in [0, 10], both ends included, and yields it |
| `MovieSchema.CheckPoster` | Schemas/movies.js:44-46 | accepts exactly a string the URL parser accepts; a non-URL string is rejected with the single message 'Poster must be a valid URL' |
| `MovieSchema.CheckFields` | Schemas/movies.js:3-47 | every rejecting rule reports at least one issue, all about its own key |
| `MovieSchema.Optional` | Schemas/movies.js:54 | an optional rule accepts an absent key with no value, and otherwise behaves as the rule itself, with the same issues |
| `MovieSchema.ValidateMovie` | Schemas/movies.js:49-51 | a success satisfies the whole rule table; a failure carries at least one issue |
| `MovieSchema.ValidatePartialMovie` | Schemas/movies.js:53-55 | a success satisfies the rule of each supplied field; a failure carries at least one issue |
| `SchemaProperties.ValidateMovieExact` | Schemas/movies.js:3-51 | full validation yields m exactly when the body is an object whose seven schema keys hold m's fields and m satisfies every rule |
| `SchemaProperties.ValidateStoredRecord` | Schemas/movies.js:3-51 | a record viewed as `{id, ...fields}` validates back to its fields without the id exactly when the fields satisfy the rules |
| `SchemaProperties.UnknownKeysIgnored` | Schemas/movies.js:3-47 | two bodies that agree on the seven schema keys get the same full and the same partial outcome, so keys such as `id` are dropped |
| `SchemaProperties.ValidateMovieAcceptsIff` | Schemas/movies.js:49-51 | full validation succeeds exactly when the body is an object and every one of the seven keys, present or not, passes its rule |
| `SchemaProperties.ValidateMovieReportsFailingFields` | Schemas/movies.js:49-51 | a failed full validation has an issue about a key exactly when that key is a schema key whose rule rejects; it does not stop at the first failure |
| `SchemaProperties.MissingFieldReported` | Schemas/movies.js:3-51 | a schema key absent from the body makes full validation fail with an issue naming that key |
| `SchemaProperties.ReportsFailingFields` | Schemas/movies.js:3-47 | the collected issue list names a key exactly when that key's rule rejected |
| `SchemaProperties.ValidatePartialAcceptsIff` | Schemas/movies.js:53-55 | partial validation succeeds exactly when the body is an object and every schema key present in it passes the same rule as in full validation |
| `SchemaProperties.ValidatePartialReportsFailingFields` | Schemas/movies.js:53-55 | a failed partial validation names exactly the present keys whose rule rejects |
| `SchemaProperties.CarriesPatchIsSupplied` | Schemas/movies.js:53-55 | a body carries a patch exactly when each of the seven schema keys holds what the patch supplies for it, absent where it supplies nothing |
| `SchemaProperties.ValidatePartialExact` | Schemas/movies.js:53-55 | partial validation yields patch p exactly when the body holds a key just for p's supplied fields, with their values, and those values satisfy the rules |
| `SchemaProperties.ValidatePartialOfEmptyBody` | Schemas/movies.js:53-55 | the empty object passes partial validation and supplies no field |
| `SchemaProperties.FullImpliesPartial` | Schemas/movies.js:49-55 | whatever full validation accepts with m, partial validation accepts with every field of m supplied |
| `SchemaProperties.MergeIsSpread` | app.js:90-93 | the merged record's JSON is the object spread `{...old, ...patch}` of the stored fields and the supplied fields |
| `SchemaProperties.MergeKeepsValid` | app.js:90-95 | merging a validated patch onto a valid movie gives a valid movie |
| `SchemaProperties.TitleEdges` | Schemas/movies.js:4-7 | "" fails with 'Title must be at least 1 character', a missing title with 'Title is required', a number with 'Title must be a string'; "X" passes |
| `SchemaProperties.YearEdges` | Schemas/movies.js:8-13 | 1800 and the captured year pass; 1799 and the captured year + 1 fail on the bound; 1799.5 fails both the integer check, with the number's invalid-type message, and the minimum check |
| `SchemaProperties.GenreDuplicatesAccepted` | Schemas/movies.js:14-40 | a repeated genre name is accepted |
| `SchemaProperties.GenreCaseSensitive` | Schemas/movies.js:14-36 | "drama" is not a genre name and is reported at its index |
| `SchemaProperties.GenreEmptyOrNotArrayRejected` | Schemas/movies.js:36-40 | [] fails with 'At least one genre is required'; a non-array fails with 'Genre must be a valid genre' |
| `SchemaProperties.DurationAndRateEdges` | Schemas/movies.js:42-43 | duration 0 passes, -1 and 2.5 fail; rate 0 and 10 pass, -0.1 and 10.1 fail |
| `Collection.FindIndex` | app.js:82 | returns -1 exactly when no record has the id, and otherwise the index of the first record that has it |
| `Collection.FindIndexOfUnique` | app.js:107 | with unique ids, the record at any index is the one found for its id |
| `Collection.HasGenre` | app.js:45 | true exactly when some genre of the record equals the query once both are lower-cased |
| `Collection.FilterByGenre` | app.js:44-46 | a record is in the result exactly when it is stored and has a matching genre |
| `Collection.FilterConcat` | app.js:44-46 | the filter distributes over concatenation, so it keeps matching records in stored order |
| `Collection.FilterOne` | app.js:44-46 | the one-record case: the record is kept exactly when it has a matching genre |
| `Collection.FilterCaseInsensitive` | app.js:45 | queries that lower-case alike select the same records |
| `Collection.FilterKeepsAllMatching` | app.js:44-46 | when every record matches, the filter returns the whole collection |
| `Collection.AppendFresh` | app.js:69-75 | appending a record with a fresh id keeps ids unique, adds exactly that id, and the id is then found at the last index |
| `Collection.ReplaceKeepsIds` | app.js:95 | overwriting a record with one of the same id keeps the set of ids and their uniqueness |
| `Collection.RemoveDropsId` | app.js:111 | removing the record at an index keeps the others unique and removes exactly its id |
| `App.MovieApi.constructor` | app.js:4 | the collection starts as a seed that satisfies the invariant |
| `App.MovieApi.List` | app.js:42-49 | status 200; with no or an empty genre, the whole collection in stored order; otherwise the genre filter of it |
| `App.MovieApi.Get` | app.js:52-57 | status 200 exactly when the id is stored, with the first record having it; otherwise 404 naming the id; the collection is not changed |
| `App.MovieApi.Create` | app.js:59-77 | an invalid body gives 400 with its issues and no change; a valid one gives 201 and appends exactly the record (new id, validated fields), after which the id is found at the end; the invariant is kept |
| `App.MovieApi.Update` | app.js:79-98 | an invalid body gives 400 whatever the id; a valid body with an unknown id gives 404; neither changes anything; otherwise the record at the same index is replaced by the merge, keeping its id, the ids and the invariant |
| `App.MovieApi.Delete` | app.js:100-114 | an unknown id gives 404 and no change; otherwise 204, the entry is removed with the others in order, the length drops by 1 and the id disappears |
| `App.CreateThenGet` | app.js:52-77 | a created movie fetched by its new id comes back with status 200 and the same record |
| `App.DeleteThenGet` | app.js:52-114 | after deleting an id, fetching it gives 404 and listing shows no record with it |

## Left out

- The static client page (`web/index.js`): it fetches the list, renders it and sends deletes. It uses the API and holds no logic of its own.
- The HTTP framework: server start-up, `PORT`, the `GET /` page, and routing. Request-body parsing is left out too; the framework itself answers malformed JSON. The handlers receive the parsed body as a `Json.Value`.
- Id generation (`crypto.randomUUID()`): the caller of `Create` supplies `newId` and must guarantee that no stored record has it. The model does not capture that random ids are never reused after a delete.
- URL syntax: `Schema.isUrl` stands for the URL parser, whose rules are not modelled.
- Issue text: each issue carries its path, a structured code and the message the schema's options give it (for `year`, the invalid-type text also covers the integer check). The validation library's default wording for the other issues is not produced. For an element of `genre` that is not a string, the library names the 21 genres as the expected type; the model records `StringType`.
- The `{ error: … }` envelope of a 400 body, the HTML text of the 404 pages, and the JSON message of a DELETE are represented by `Body` constructors. The body of a 204 response is never sent over HTTP, so it is `NoContent`.
- Numbers are exact reals. Rounding of JSON numbers to doubles is left out. Infinities (from literals such as `1e400`) are left out as well; every numeric rule rejects them anyway.
- HasGenre: lower-cases only ASCII letters. Over the fixed genre list this gives the same matches as full Unicode lower-casing, because the only non-ASCII character that lower-cases to an ASCII letter yields `k`, and no genre name has a `k`. Locale-specific lower-casing is not modelled.
- App.MovieApi.List: a `genre` query given more than once arrives as an array, and `?genre[a]=b` arrives as an object. Either is truthy, so the handler filters, and the filter's callback calls `toLocaleLowerCase` on it, which throws. A call therefore fails with a server error only once the callback runs, that is when some stored movie has a genre (every valid record has one). On an empty collection it answers 200 with `[]`. The model takes at most one query string.
- The seed file `movies.json` is not part of this model: the constructor requires a seed that already satisfies the invariant.
- The cross-origin middleware's callback and its rejection response: only the allow-list test of `app.js:18` is modelled, as the plain definition `App.OriginAllowed`; no property is proved about it.
- Concurrency: each request runs to completion, so the model is sequential.
