/**
 * The in-memory movie collection as a sequence of records, and the read-only
 * queries the route handlers run over it: find the index of an id, and keep
 * the movies having a genre that matches a query case-insensitively.
 */
module Collection {
  import opened MovieSchema

  /** A stored movie: the validated fields and the id given to it on creation. */
  datatype MovieRecord = MovieRecord(id: string, movie: Movie)

  function Ids(s: seq<MovieRecord>): set<string>
  {
    set r | r in s :: r.id
  }

  /** No two records of the collection share an id. */
  predicate UniqueIds(s: seq<MovieRecord>)
  {
    forall i, j :: 0 <= i < j < |s| ==> s[i].id != s[j].id
  }

  /** Every record of the collection passes full validation. */
  predicate AllValid(schema: Schema, s: seq<MovieRecord>)
  {
    forall i :: 0 <= i < |s| ==> ValidMovie(schema, s[i].movie)
  }

  // ---------------------------------------------------------------------------
  // Lookup by id

  /** The index of the first record with id `id`, or -1 when there is none. */
  function FindIndex(s: seq<MovieRecord>, id: string): (r: int)
    ensures -1 <= r < |s|
    ensures r == -1 <==> id !in Ids(s)
    ensures 0 <= r ==> s[r].id == id && forall j :: 0 <= j < r ==> s[j].id != id
  {
    if s == [] then -1
    else if s[0].id == id then 0
    else
      var k := FindIndex(s[1..], id);
      assert forall j :: 1 <= j < |s| ==> s[j] == s[1..][j - 1];
      assert Ids(s) == {s[0].id} + Ids(s[1..]);
      if k == -1 then -1 else k + 1
  }

  /** With unique ids, the record at index `i` is the one found for its id. */
  lemma FindIndexOfUnique(s: seq<MovieRecord>, i: int)
    requires UniqueIds(s) && 0 <= i < |s|
    ensures FindIndex(s, s[i].id) == i
  {
  }

  // ---------------------------------------------------------------------------
  // Genre filter

  /** Lower-casing of one character; letters outside A-Z are left as they are. */
  function LowerChar(c: char): char
  {
    if 'A' <= c <= 'Z' then (c as int + 32) as char else c
  }

  function Lower(s: string): (r: string)
    ensures |r| == |s|
  {
    seq(|s|, i requires 0 <= i < |s| => LowerChar(s[i]))
  }

  /** Whether some genre of `genre` equals `query` once both are lower-cased. */
  function HasGenre(genre: seq<string>, query: string): (r: bool)
    ensures r <==> exists i :: 0 <= i < |genre| && Lower(genre[i]) == Lower(query)
  {
    if genre == [] then false
    else if Lower(genre[0]) == Lower(query) then true
    else
      var rest := HasGenre(genre[1..], query);
      assert forall i :: 1 <= i < |genre| ==> genre[i] == genre[1..][i - 1];
      rest
  }

  /** The records of `s` having a genre that matches `query`, in the order of `s`. */
  function FilterByGenre(s: seq<MovieRecord>, query: string): (r: seq<MovieRecord>)
    ensures |r| <= |s|
    ensures forall m :: m in r <==> m in s && HasGenre(m.movie.genre, query)
  {
    if s == [] then []
    else
      var rest := FilterByGenre(s[1..], query);
      assert forall m :: m in s <==> m == s[0] || m in s[1..];
      if HasGenre(s[0].movie.genre, query) then [s[0]] + rest else rest
  }

  /**
   * Filtering distributes over concatenation; with the one-record case this
   * says that the filter keeps exactly the matching records, in stored order.
   */
  lemma {:induction false} FilterConcat(s: seq<MovieRecord>, t: seq<MovieRecord>, query: string)
    ensures FilterByGenre(s + t, query) == FilterByGenre(s, query) + FilterByGenre(t, query)
  {
    if s == [] {
      assert s + t == t;
    } else {
      assert (s + t)[1..] == s[1..] + t;
      FilterConcat(s[1..], t, query);
    }
  }

  lemma FilterOne(r: MovieRecord, query: string)
    ensures FilterByGenre([r], query) == if HasGenre(r.movie.genre, query) then [r] else []
  {
  }

  /** Queries that lower-case to the same string select the same records. */
  lemma {:induction false} FilterCaseInsensitive(s: seq<MovieRecord>, q1: string, q2: string)
    requires Lower(q1) == Lower(q2)
    ensures FilterByGenre(s, q1) == FilterByGenre(s, q2)
  {
    if s != [] {
      FilterCaseInsensitive(s[1..], q1, q2);
    }
  }

  /** A filter keeps every record when each of them has a matching genre. */
  lemma {:induction false} FilterKeepsAllMatching(s: seq<MovieRecord>, query: string)
    requires forall i :: 0 <= i < |s| ==> HasGenre(s[i].movie.genre, query)
    ensures FilterByGenre(s, query) == s
  {
    if s != [] {
      FilterKeepsAllMatching(s[1..], query);
    }
  }

  // ---------------------------------------------------------------------------
  // What the three updates do to the ids

  /** Appending a record with a fresh id keeps ids unique, and the new id is found at the end. */
  lemma AppendFresh(s: seq<MovieRecord>, r: MovieRecord)
    requires UniqueIds(s) && r.id !in Ids(s)
    ensures UniqueIds(s + [r])
    ensures Ids(s + [r]) == Ids(s) + {r.id}
    ensures FindIndex(s + [r], r.id) == |s|
  {
    var t := s + [r];
    assert forall i :: 0 <= i < |s| ==> t[i] == s[i] && s[i].id in Ids(s);
    assert t[|s|] == r;
    assert forall m :: m in t <==> m in s || m == r;
  }

  /** Replacing a record by one with the same id keeps the ids and their uniqueness. */
  lemma ReplaceKeepsIds(s: seq<MovieRecord>, i: int, r: MovieRecord)
    requires UniqueIds(s) && 0 <= i < |s| && r.id == s[i].id
    ensures UniqueIds(s[i := r])
    ensures Ids(s[i := r]) == Ids(s)
  {
    var t := s[i := r];
    forall x | x in Ids(s) ensures x in Ids(t) {
      var m :| m in s && m.id == x;
      var j :| 0 <= j < |s| && s[j] == m;
      assert t[j].id == x;
    }
    forall x | x in Ids(t) ensures x in Ids(s) {
      var m :| m in t && m.id == x;
      var j :| 0 <= j < |t| && t[j] == m;
      assert s[j].id == x;
    }
  }

  /** Removing the record at `i` drops exactly its id and keeps the others unique. */
  lemma RemoveDropsId(s: seq<MovieRecord>, i: int)
    requires UniqueIds(s) && 0 <= i < |s|
    ensures UniqueIds(s[..i] + s[i + 1..])
    ensures Ids(s[..i] + s[i + 1..]) == Ids(s) - {s[i].id}
  {
    var t := s[..i] + s[i + 1..];
    assert forall j :: 0 <= j < |t| ==> t[j] == if j < i then s[j] else s[j + 1];
    forall x | x in Ids(t) ensures x in Ids(s) - {s[i].id} {
      var m :| m in t && m.id == x;
      var j :| 0 <= j < |t| && t[j] == m;
    }
    forall x | x in Ids(s) - {s[i].id} ensures x in Ids(t) {
      var m :| m in s && m.id == x;
      var j :| 0 <= j < |s| && s[j] == m;
      assert j != i;
      if j < i { assert t[j] == m; } else { assert t[j - 1] == m; }
    }
  }
}
