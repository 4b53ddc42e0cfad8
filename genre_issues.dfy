/**
 * Where the issues of the `genre` rule point: the array's invalid elements
 * are reported one by one, each at its own index, and a string that is not a
 * listed name is reported by its value.
 */
module GenreIssues {
  import opened Wrappers
  import opened Json
  import opened MovieSchema

  /** An element of a genre array that is not one of the listed names. */
  predicate BadGenreItem(item: Value)
  {
    !(item.Str? && IsGenre(item.s))
  }

  /** The path of an issue about the genre array's element at `index`. */
  function GenreItemPath(index: nat): seq<PathSegment>
  {
    [Key("genre"), Index(index)]
  }

  // ---------------------------------------------------------------------------
  // Concatenated parts

  function Concat<T>(parts: seq<seq<T>>): seq<T>
  {
    if parts == [] then [] else parts[0] + Concat(parts[1..])
  }

  /** The first element of part `i` sits at position `j` of the concatenation. */
  lemma {:induction false} ConcatFind<T>(parts: seq<seq<T>>, i: int) returns (j: int)
    requires 0 <= i < |parts| && parts[i] != []
    ensures 0 <= j < |Concat(parts)| && Concat(parts)[j] == parts[i][0]
  {
    if i == 0 {
      j := 0;
    } else {
      var k := ConcatFind(parts[1..], i - 1);
      j := |parts[0]| + k;
    }
  }

  /** Position `j` of the concatenation holds element `m` of part `i`. */
  lemma {:induction false} ConcatLocate<T>(parts: seq<seq<T>>, j: int) returns (i: int, m: int)
    requires 0 <= j < |Concat(parts)|
    ensures 0 <= i < |parts| && 0 <= m < |parts[i]| && Concat(parts)[j] == parts[i][m]
  {
    if j < |parts[0]| {
      i, m := 0, j;
    } else {
      var k;
      k, m := ConcatLocate(parts[1..], j - |parts[0]|);
      i := k + 1;
    }
  }

  // ---------------------------------------------------------------------------
  // The genre array's issues, element by element

  /** The issues of each element of `items`, in order; the first sits at index `from`. */
  function GenreParts(items: seq<Value>, from: nat): (r: seq<seq<Issue>>)
    ensures |r| == |items|
  {
    seq(|items|, i requires 0 <= i < |items| => GenreItemIssues(items[i], from + i))
  }

  /** Dropping the first element shifts the remaining elements' issues along. */
  lemma GenrePartsTail(items: seq<Value>, from: nat)
    requires items != []
    ensures GenreParts(items, from)[1..] == GenreParts(items[1..], from + 1)
  {
    var parts, rest := GenreParts(items, from), GenreParts(items[1..], from + 1);
    forall k | 0 <= k < |rest| ensures parts[1..][k] == rest[k] {
      assert items[1..][k] == items[k + 1];
      assert from + 1 + k == from + (k + 1);
    }
  }

  /** The array's issues are those of its elements, one after the other. */
  lemma {:induction false} GenreItemsIssuesConcat(items: seq<Value>, from: nat)
    ensures GenreItemsIssues(items, from) == Concat(GenreParts(items, from))
    decreases |items|
  {
    if items != [] {
      GenreItemsIssuesConcat(items[1..], from + 1);
      GenrePartsTail(items, from);
      var parts := GenreParts(items, from);
      assert GenreItemsIssues(items, from) == parts[0] + GenreItemsIssues(items[1..], from + 1);
    }
  }

  /** The one issue of an element points at it, and names it when it is a string. */
  lemma GenreItemIssue(item: Value, index: nat)
    requires GenreItemIssues(item, index) != []
    ensures BadGenreItem(item) && |GenreItemIssues(item, index)| == 1
    ensures GenreItemIssues(item, index)[0].path == GenreItemPath(index)
    ensures item.Str? ==> GenreItemIssues(item, index)[0].code == InvalidEnumValue(item.s)
  {
  }

  /** The issues of element `i`, as `GenreItemIssue` describes them. */
  lemma PartOf(items: seq<Value>, from: nat, i: int)
    requires 0 <= i < |items|
    ensures GenreParts(items, from)[i] != [] <==> BadGenreItem(items[i])
    ensures GenreParts(items, from)[i] != [] ==>
      && GenreParts(items, from)[i][0].path == GenreItemPath(from + i)
      && (items[i].Str? ==> GenreParts(items, from)[i][0].code == InvalidEnumValue(items[i].s))
    ensures forall m :: 0 <= m < |GenreParts(items, from)[i]| ==> GenreParts(items, from)[i][m].path == GenreItemPath(from + i)
  {
    var part := GenreParts(items, from)[i];
    assert part == GenreItemIssues(items[i], from + i);
    if part != [] {
      GenreItemIssue(items[i], from + i);
    }
  }

  /** Each unlisted element has an issue at its index in the concatenation. */
  lemma PartsReport(items: seq<Value>, from: nat, r: seq<Issue>)
    requires r == Concat(GenreParts(items, from))
    ensures forall i :: 0 <= i < |items| && BadGenreItem(items[i]) ==>
      exists j ::
        && 0 <= j < |r|
        && r[j].path == GenreItemPath(from + i)
        && (items[i].Str? ==> r[j].code == InvalidEnumValue(items[i].s))
  {
    forall i | 0 <= i < |items| && BadGenreItem(items[i])
      ensures exists j :: 0 <= j < |r| && r[j].path == GenreItemPath(from + i) && (items[i].Str? ==> r[j].code == InvalidEnumValue(items[i].s))
    {
      PartOf(items, from, i);
      var j := ConcatFind(GenreParts(items, from), i);
    }
  }

  /** Each issue of the concatenation sits at the index of an unlisted element. */
  lemma PartsLocate(items: seq<Value>, from: nat, r: seq<Issue>)
    requires r == Concat(GenreParts(items, from))
    ensures forall j :: 0 <= j < |r| ==>
      exists i :: 0 <= i < |items| && BadGenreItem(items[i]) && r[j].path == GenreItemPath(from + i)
  {
    forall j | 0 <= j < |r|
      ensures exists i :: 0 <= i < |items| && BadGenreItem(items[i]) && r[j].path == GenreItemPath(from + i)
    {
      var parts := GenreParts(items, from);
      var i: int, m: int := ConcatLocate<Issue>(parts, j);
      PartOf(items, from, i);
      assert parts[i] != [] && parts[i][m].path == GenreItemPath(from + i);
      assert BadGenreItem(items[i]) && r[j].path == GenreItemPath(from + i);
    }
    assert forall j :: 0 <= j < |r| ==> exists i :: 0 <= i < |items| && BadGenreItem(items[i]) && r[j].path == GenreItemPath(from + i);
  }

  /**
   * The issues of a genre array's elements point at the unlisted elements:
   * each of those has an issue at its index (naming the value when it is a
   * string), and each issue sits at the index of one of those.
   */
  lemma GenreItemsIssuesPoint(items: seq<Value>, from: nat)
    ensures forall i :: 0 <= i < |items| && BadGenreItem(items[i]) ==>
      exists j ::
        && 0 <= j < |GenreItemsIssues(items, from)|
        && GenreItemsIssues(items, from)[j].path == GenreItemPath(from + i)
        && (items[i].Str? ==> GenreItemsIssues(items, from)[j].code == InvalidEnumValue(items[i].s))
    ensures forall j :: 0 <= j < |GenreItemsIssues(items, from)| ==>
      exists i :: 0 <= i < |items| && BadGenreItem(items[i]) && GenreItemsIssues(items, from)[j].path == GenreItemPath(from + i)
  {
    GenreItemsIssuesConcat(items, from);
    PartsReport(items, from, GenreItemsIssues(items, from));
    PartsLocate(items, from, GenreItemsIssues(items, from));
  }

  /** In a genre array, every unlisted element is reported at its index, by its value when it is a string. */
  lemma CheckGenreNamesEntries(items: seq<Value>)
    ensures forall i :: 0 <= i < |items| && BadGenreItem(items[i]) ==>
      && CheckGenre(Some(Arr(items))).Reject?
      && exists j ::
        && 0 <= j < |CheckGenre(Some(Arr(items))).issues|
        && CheckGenre(Some(Arr(items))).issues[j].path == GenreItemPath(i)
        && (items[i].Str? ==> CheckGenre(Some(Arr(items))).issues[j].code == InvalidEnumValue(items[i].s))
  {
    if items != [] {
      // a non-empty array gets no size issue, so its issues are those of its elements
      var r := GenreItemsIssues(items, 0);
      GenreItemsIssuesPoint(items, 0);
      assert CheckGenre(Some(Arr(items))) == if r == [] then Accept(Strings(items)) else Reject(r);
    }
  }

  /** Every issue of a rejected genre array is about the array itself or points at an unlisted element. */
  lemma CheckGenreIssuesLocated(items: seq<Value>)
    ensures CheckGenre(Some(Arr(items))).Reject? ==>
      forall j :: 0 <= j < |CheckGenre(Some(Arr(items))).issues| ==>
        || CheckGenre(Some(Arr(items))).issues[j].path == [Key("genre")]
        || exists i ::
          && 0 <= i < |items| && BadGenreItem(items[i])
          && CheckGenre(Some(Arr(items))).issues[j].path == GenreItemPath(i)
  {
    var r := GenreItemsIssues(items, 0);
    if items == [] {
      assert r == [];
    } else {
      GenreItemsIssuesPoint(items, 0);
      assert CheckGenre(Some(Arr(items))) == if r == [] then Accept(Strings(items)) else Reject(r);
    }
  }
}
