/** The six posts the test suite's mock upstream returns for every tag, and the
    answers the suite expects for `tags=history,tech`. */
module Fixture {
  import opened Wrappers
  import opened Posts
  import opened Strings
  import Services
  import opened PostsController

  const P1 := Post("Rylee Paul", 9, 1, 960, 13, 50361, ["tech", "health"])
  const P2 := Post("Zackery Turner", 12, 2, 469, 68, 90406, ["startups", "tech", "history"])
  const P4 := Post("Elisha Friedman", 8, 4, 728, 88, 19645, ["science", "design", "tech"])
  const P8 := Post("Trevon Rodriguez", 5, 8, 735, 76, 8504, ["culture", "history"])
  const P10 := Post("Elisha Friedman", 8, 10, 853, 60, 35913, ["science", "health", "history"])
  const P12 := Post("Adalyn Blevins", 11, 12, 590, 32, 80351, ["tech", "history"])

  /** The mock's post list, in the order it returns them. */
  function MockPosts(): seq<Post> {
    [P1, P2, P4, P8, P10, P12]
  }

  /** The mock upstream answers every tag with the same six posts. */
  function MockFetch(tag: string): Result<seq<Post>, string> {
    Success(MockPosts())
  }

  /** Every pair is strictly in comparator order. */
  predicate StrictlySortedBy(s: seq<Post>, f: SortField, dir: string) {
    forall i, j :: 0 <= i < j < |s| ==> Compare(dir, f, s[i], s[j]) < 0
  }

  lemma SortedTail(r: seq<Post>, f: SortField, dir: string)
    requires r != [] && SortedBy(r, f, dir)
    ensures SortedBy(r[1..], f, dir)
  {
  }

  lemma StrictlySortedTail(s: seq<Post>, f: SortField, dir: string)
    requires s != [] && StrictlySortedBy(s, f, dir)
    ensures StrictlySortedBy(s[1..], f, dir)
  {
  }

  /** Both lists start with the post of least key in comparator order. */
  lemma SameHead(r: seq<Post>, s: seq<Post>, f: SortField, dir: string)
    requires s != [] && SortedBy(r, f, dir) && StrictlySortedBy(s, f, dir)
    requires multiset(r) == multiset(s)
    ensures r != [] && r[0] == s[0]
  {
    assert s[0] in multiset(r);
    assert r[0] in multiset(s);
    var k :| 0 <= k < |s| && s[k] == r[0];
    var m :| 0 <= m < |r| && r[m] == s[0];
    var c := Compare(dir, f, r[0], s[0]);
    assert m == 0 || c <= 0;
    assert k == 0 || Compare(dir, f, s[0], r[0]) < 0;
  }

  lemma SameTailMultiset(r: seq<Post>, s: seq<Post>)
    requires r != [] && s != [] && r[0] == s[0] && multiset(r) == multiset(s)
    ensures multiset(r[1..]) == multiset(s[1..])
  {
    assert r == [r[0]] + r[1..] && s == [s[0]] + s[1..];
    calc {
      multiset(r[1..]);
      (multiset{r[0]} + multiset(r[1..])) - multiset{r[0]};
      multiset(r) - multiset{r[0]};
      multiset(s) - multiset{s[0]};
      (multiset{s[0]} + multiset(s[1..])) - multiset{s[0]};
      multiset(s[1..]);
    }
  }

  /** A sorted permutation of a list whose keys are all different is that list:
      with distinct keys the order of the answer is fully determined. */
  lemma {:induction false} SortedPermutationUnique(r: seq<Post>, s: seq<Post>, f: SortField, dir: string)
    requires SortedBy(r, f, dir) && StrictlySortedBy(s, f, dir)
    requires multiset(r) == multiset(s)
    ensures r == s
    decreases |s|
  {
    if s == [] {
      assert |r| == |multiset(r)| == 0;
    } else {
      SameHead(r, s, f, dir);
      SameTailMultiset(r, s);
      SortedTail(r, f, dir);
      StrictlySortedTail(s, f, dir);
      SortedPermutationUnique(r[1..], s[1..], f, dir);
      assert r == [r[0]] + r[1..] && s == [s[0]] + s[1..];
    }
  }

  lemma TwoTags()
    ensures Split("history,tech", ',') == ["history", "tech"]
  {
    var parts := ["history", "tech"];
    assert Join(parts, ',') == "history,tech";
    SplitJoin(parts, ',');
  }

  lemma MockFetchAll()
    ensures FetchAll(["history", "tech"], MockFetch) == Success([MockPosts(), MockPosts()])
  {
    var r := FetchAll(["history", "tech"], MockFetch);
    assert r.value == [MockPosts(), MockPosts()];
  }

  lemma MockFlatten()
    ensures Flatten([MockPosts(), MockPosts()]) == MockPosts() + MockPosts()
  {
  }

  /** Strict order of neighbours gives strict order of every pair. */
  lemma {:induction false} StrictChain(s: seq<Post>, f: SortField, dir: string)
    requires forall i :: 0 <= i < |s| - 1 ==> Compare(dir, f, s[i], s[i + 1]) < 0
    ensures StrictlySortedBy(s, f, dir)
    decreases |s|
  {
    if |s| > 1 {
      var t := s[1..];
      forall i | 0 <= i < |t| - 1 ensures Compare(dir, f, t[i], t[i + 1]) < 0 {
        assert t[i] == s[i + 1] && t[i + 1] == s[i + 2];
      }
      StrictChain(t, f, dir);
      forall i, j | 0 <= i < j < |s| ensures Compare(dir, f, s[i], s[j]) < 0 {
        if i > 0 {
          assert s[i] == t[i - 1] && s[j] == t[j - 1];
        } else if j > 1 {
          assert s[1] == t[0] && s[j] == t[j - 1];
        }
      }
    }
  }

  lemma MockSortedById()
    ensures StrictlySortedBy(MockPosts(), Id, "asc")
  {
  }

  lemma MockDedup()
    ensures Services.Dedup(MockPosts() + MockPosts()) == MockPosts()
  {
    MockSortedById();
    assert DistinctIds(MockPosts());
    Services.DedupDropsSeen(MockPosts(), MockPosts());
    Services.DedupOfDistinct(MockPosts());
  }

  /** What the controller sees for `tags=history,tech`: both tags fetched, the two
      lists merged, and the merge de-duplicated to the six posts. */
  lemma MockRequest(q: Query)
    requires q.tags == Some("history,tech")
    ensures Truthy(q.tags) && TagList(q) == ["history", "tech"]
    ensures FetchAll(TagList(q), MockFetch).Success?
    ensures Services.Dedup(Flatten(FetchAll(TagList(q), MockFetch).value)) == MockPosts()
  {
    TwoTags();
    MockFetchAll();
    MockFlatten();
    MockDedup();
  }

  /** For `tags=history,tech`, when the expected list is strictly ordered by the
      requested field and direction, the answer can only be that list. */
  lemma MockAnswerIs(q: Query, posts: seq<Post>, expected: seq<Post>)
    requires q.tags == Some("history,tech") && Validate(q) == None
    requires FetchAll(TagList(q), MockFetch).Success?
    requires IsAnswer(q, Flatten(FetchAll(TagList(q), MockFetch).value), posts)
    requires StrictlySortedBy(expected, FieldNamed(SortParam(q)).value, Direction(q))
    requires multiset(expected) == multiset(MockPosts())
    ensures posts == expected
  {
    MockRequest(q);
    SortedPermutationUnique(posts, expected, FieldNamed(SortParam(q)).value, Direction(q));
  }

  /** The error cases of the test suite: no tags; `sortby=incorrectparam`;
      `direction=incorrectparam`. */
  lemma SuiteValidationErrors()
    ensures Validate(Query(None, None, None)) == Some(TagsRequired)
    ensures Validate(Query(Some("history"), Some("incorrectparam"), None)) == Some(SortByInvalid)
    ensures Validate(Query(Some("history"), None, Some("incorrectparam"))) == Some(DirectionInvalid)
  {
  }

  /** For `tags=history,tech` (with any valid sortby and direction), the request passes
      validation, every fetch succeeds, and when the expected list is strictly ordered by
      the requested field and direction, it is the only possible answer. */
  lemma MockQuery(q: Query, expected: seq<Post>)
    requires q.tags == Some("history,tech") && Validate(q) == None
    requires StrictlySortedBy(expected, FieldNamed(SortParam(q)).value, Direction(q))
    requires multiset(expected) == multiset(MockPosts())
    ensures FetchAll(TagList(q), MockFetch).Success?
    ensures forall posts :: IsAnswer(q, Flatten(FetchAll(TagList(q), MockFetch).value), posts) ==>
      posts == expected
  {
    MockRequest(q);
    forall posts | IsAnswer(q, Flatten(FetchAll(TagList(q), MockFetch).value), posts)
      ensures posts == expected
    {
      MockAnswerIs(q, posts, expected);
    }
  }

  /** A request for `tags=history,tech` answered by the mock: when the expected list is
      strictly ordered by the requested field and direction and holds the six posts,
      the handler answers exactly that list. */
  method RequestOnMock(q: Query, expected: seq<Post>) returns (r: Result<seq<Post>, string>)
    requires q.tags == Some("history,tech") && Validate(q) == None
    requires StrictlySortedBy(expected, FieldNamed(SortParam(q)).value, Direction(q))
    requires multiset(expected) == multiset(MockPosts())
    ensures r == Success(expected)
  {
    MockQuery(q, expected);
    r := GetPosts(q, MockFetch);
  }

  const DefaultQuery := Query(Some("history,tech"), None, None)

  lemma DefaultQueryParams()
    ensures Validate(DefaultQuery) == None
    ensures FieldNamed(SortParam(DefaultQuery)) == Some(Id) && Direction(DefaultQuery) == "asc"
  {
  }

  /** `tags=history,tech` with no other parameter: six posts, not twelve, by ascending id. */
  method DefaultRequest() returns (r: Result<seq<Post>, string>)
    ensures r == Success([P1, P2, P4, P8, P10, P12])
  {
    DefaultQueryParams();
    MockSortedById();
    r := RequestOnMock(DefaultQuery, MockPosts());
  }

  /** `tags=history,tech&sortby=<field>&direction=<dir>`. */
  function SortQuery(f: SortField, dir: string): Query {
    Query(Some("history,tech"), Some(FieldName(f)), Some(dir))
  }

  lemma SortQueryParams(f: SortField, dir: string)
    requires dir == "asc" || dir == "desc"
    ensures Validate(SortQuery(f, dir)) == None
    ensures FieldNamed(SortParam(SortQuery(f, dir))) == Some(f)
    ensures Direction(SortQuery(f, dir)) == dir
  {
    assert FieldNamed(FieldName(f)) == Some(f);
  }

  /** `sortby=id&direction=asc`: ids 1, 2, 4, 8, 10, 12. */
  method IdAscRequest() returns (r: Result<seq<Post>, string>)
    ensures r == Success([P1, P2, P4, P8, P10, P12])
  {
    SortQueryParams(Id, "asc");
    MockSortedById();
    r := RequestOnMock(SortQuery(Id, "asc"), MockPosts());
  }

  lemma IdDescPermutation()
    ensures multiset([P12, P10, P8, P4, P2, P1]) == multiset(MockPosts())
  {
  }

  /** `sortby=id&direction=desc`: ids 12, 10, 8, 4, 2, 1. */
  method IdDescRequest() returns (r: Result<seq<Post>, string>)
    ensures r == Success([P12, P10, P8, P4, P2, P1])
  {
    SortQueryParams(Id, "desc");
    StrictChain([P12, P10, P8, P4, P2, P1], Id, "desc");
    IdDescPermutation();
    r := RequestOnMock(SortQuery(Id, "desc"), [P12, P10, P8, P4, P2, P1]);
  }

  lemma ReadsAscPermutation()
    ensures multiset([P8, P4, P10, P1, P12, P2]) == multiset(MockPosts())
  {
  }

  /** `sortby=reads&direction=asc`: reads 8504, 19645, 35913, 50361, 80351, 90406. */
  method ReadsAscRequest() returns (r: Result<seq<Post>, string>)
    ensures r == Success([P8, P4, P10, P1, P12, P2])
  {
    SortQueryParams(Reads, "asc");
    StrictChain([P8, P4, P10, P1, P12, P2], Reads, "asc");
    ReadsAscPermutation();
    r := RequestOnMock(SortQuery(Reads, "asc"), [P8, P4, P10, P1, P12, P2]);
  }

  lemma ReadsDescPermutation()
    ensures multiset([P2, P12, P1, P10, P4, P8]) == multiset(MockPosts())
  {
  }

  /** `sortby=reads&direction=desc`: reads 90406, 80351, 50361, 35913, 19645, 8504. */
  method ReadsDescRequest() returns (r: Result<seq<Post>, string>)
    ensures r == Success([P2, P12, P1, P10, P4, P8])
  {
    SortQueryParams(Reads, "desc");
    StrictChain([P2, P12, P1, P10, P4, P8], Reads, "desc");
    ReadsDescPermutation();
    r := RequestOnMock(SortQuery(Reads, "desc"), [P2, P12, P1, P10, P4, P8]);
  }

  lemma LikesAscPermutation()
    ensures multiset([P2, P12, P4, P8, P10, P1]) == multiset(MockPosts())
  {
  }

  /** `sortby=likes&direction=asc`: likes 469, 590, 728, 735, 853, 960. */
  method LikesAscRequest() returns (r: Result<seq<Post>, string>)
    ensures r == Success([P2, P12, P4, P8, P10, P1])
  {
    SortQueryParams(Likes, "asc");
    StrictChain([P2, P12, P4, P8, P10, P1], Likes, "asc");
    LikesAscPermutation();
    r := RequestOnMock(SortQuery(Likes, "asc"), [P2, P12, P4, P8, P10, P1]);
  }

  lemma LikesDescPermutation()
    ensures multiset([P1, P10, P8, P4, P12, P2]) == multiset(MockPosts())
  {
  }

  /** `sortby=likes&direction=desc`: likes 960, 853, 735, 728, 590, 469. */
  method LikesDescRequest() returns (r: Result<seq<Post>, string>)
    ensures r == Success([P1, P10, P8, P4, P12, P2])
  {
    SortQueryParams(Likes, "desc");
    StrictChain([P1, P10, P8, P4, P12, P2], Likes, "desc");
    LikesDescPermutation();
    r := RequestOnMock(SortQuery(Likes, "desc"), [P1, P10, P8, P4, P12, P2]);
  }

  lemma PopularityAscPermutation()
    ensures multiset([P1, P12, P10, P2, P8, P4]) == multiset(MockPosts())
  {
  }

  /** `sortby=popularity&direction=asc`: popularity 0.13, 0.32, 0.6, 0.68, 0.76, 0.88. */
  method PopularityAscRequest() returns (r: Result<seq<Post>, string>)
    ensures r == Success([P1, P12, P10, P2, P8, P4])
  {
    SortQueryParams(Popularity, "asc");
    StrictChain([P1, P12, P10, P2, P8, P4], Popularity, "asc");
    PopularityAscPermutation();
    r := RequestOnMock(SortQuery(Popularity, "asc"), [P1, P12, P10, P2, P8, P4]);
  }

  lemma PopularityDescPermutation()
    ensures multiset([P4, P8, P2, P10, P12, P1]) == multiset(MockPosts())
  {
  }

  /** `sortby=popularity&direction=desc`: popularity 0.88, 0.76, 0.68, 0.6, 0.32, 0.13,
      that is ids 4, 8, 2, 10, 12, 1. */
  method PopularityDescRequest() returns (r: Result<seq<Post>, string>)
    ensures r == Success([P4, P8, P2, P10, P12, P1])
  {
    SortQueryParams(Popularity, "desc");
    StrictChain([P4, P8, P2, P10, P12, P1], Popularity, "desc");
    PopularityDescPermutation();
    r := RequestOnMock(SortQuery(Popularity, "desc"), [P4, P8, P2, P10, P12, P1]);
  }
}
