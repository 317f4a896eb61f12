/** postsController.getPosts: validate the query, split the tags, fetch one post list
    per tag, merge, de-duplicate by id and sort by the requested field and direction.
    The upstream HTTP call is the parameter `fetch`. */
module PostsController {
  import opened Wrappers
  import opened Posts
  import opened Strings
  import Services

  /** The query string; a parameter that is not given is `None`. */
  datatype Query = Query(tags: Option<string>, sortby: Option<string>, direction: Option<string>)

  const TagsRequired := "The tags parameter is required"
  const SortByInvalid := "The sortBy parameter is invalid"
  const DirectionInvalid := "The direction parameter is invalid"

  /** JavaScript truthiness of a query parameter: given and not the empty string. */
  predicate Truthy(v: Option<string>) {
    v.Some? && v.value != ""
  }

  /** Looks a sort field up by its property name. */
  function FieldNamed(name: string): (f: Option<SortField>)
    ensures f.Some? <==> name in {"id", "reads", "likes", "popularity"}
    ensures f.Some? ==> FieldName(f.value) == name
  {
    if name == "id" then Some(Id)
    else if name == "reads" then Some(Reads)
    else if name == "likes" then Some(Likes)
    else if name == "popularity" then Some(Popularity)
    else None
  }

  /** The early-return checks, in order: tags, then sortby, then direction.
      `None` means the query passed; otherwise the error the request fails with.
      The first failing check decides the error. */
  function Validate(q: Query): (err: Option<string>)
    ensures err == Some(TagsRequired) <==> !Truthy(q.tags)
    ensures err == Some(SortByInvalid) <==>
      Truthy(q.tags) && Truthy(q.sortby) && FieldNamed(q.sortby.value).None?
    ensures err == Some(DirectionInvalid) <==>
      Truthy(q.tags) && (!Truthy(q.sortby) || FieldNamed(q.sortby.value).Some?)
      && Truthy(q.direction) && q.direction.value != "asc" && q.direction.value != "desc"
    ensures err == None <==>
      Truthy(q.tags)
      && (!Truthy(q.sortby) || FieldNamed(q.sortby.value).Some?)
      && (!Truthy(q.direction) || q.direction.value in {"asc", "desc"})
  {
    if !Truthy(q.tags) then Some(TagsRequired)
    else if Truthy(q.sortby)
      && q.sortby.value != "id" && q.sortby.value != "reads"
      && q.sortby.value != "likes" && q.sortby.value != "popularity"
    then Some(SortByInvalid)
    else if Truthy(q.direction) && q.direction.value != "asc" && q.direction.value != "desc"
    then Some(DirectionInvalid)
    else None
  }

  /** `req.query.direction || 'asc'`. */
  function Direction(q: Query): (dir: string)
    ensures Truthy(q.direction) ==> dir == q.direction.value
    ensures !Truthy(q.direction) ==> dir == "asc"
    ensures Validate(q) == None ==> dir == "asc" || dir == "desc"
  {
    if Truthy(q.direction) then q.direction.value else "asc"
  }

  /** `req.query.sortby || 'id'`. */
  function SortParam(q: Query): (name: string)
    ensures Truthy(q.sortby) ==> name == q.sortby.value
    ensures !Truthy(q.sortby) ==> name == "id"
    ensures Validate(q) == None ==> FieldNamed(name).Some?
  {
    if Truthy(q.sortby) then q.sortby.value else "id"
  }

  /** The tags the posts are fetched for, in the order given. */
  function TagList(q: Query): seq<string>
    requires Truthy(q.tags)
  {
    Split(q.tags.value, ',')
  }

  /** `Promise.all` over one fetch per tag: all lists, in tag order, when every fetch
      succeeds; otherwise the failure of a tag whose fetch failed. */
  function FetchAll(tags: seq<string>, fetch: string -> Result<seq<Post>, string>)
    : (r: Result<seq<seq<Post>>, string>)
    ensures r.Success? <==> forall i :: 0 <= i < |tags| ==> fetch(tags[i]).Success?
    ensures r.Success? ==>
      |r.value| == |tags| && forall i :: 0 <= i < |tags| ==> r.value[i] == fetch(tags[i]).value
    ensures r.Failure? ==> exists i :: 0 <= i < |tags| && fetch(tags[i]) == Failure(r.error)
    decreases |tags|
  {
    if tags == [] then Success([])
    else
      match fetch(tags[0])
      case Failure(e) => Failure(e)
      case Success(posts) =>
        match FetchAll(tags[1..], fetch)
        case Failure(e) => Failure(e)
        case Success(rest) => Success([posts] + rest)
  }

  /** `response.flat(tags.length)`: the lists one after the other. Posts are objects,
      not arrays, and `tags.length >= 1`, so exactly one level is flattened. */
  function Flatten(lists: seq<seq<Post>>): (r: seq<Post>)
    ensures forall i, j :: 0 <= i < |lists| && 0 <= j < |lists[i]| ==> lists[i][j] in r
    ensures forall p :: p in r ==> exists i :: 0 <= i < |lists| && p in lists[i]
    decreases |lists|
  {
    if lists == [] then [] else lists[0] + Flatten(lists[1..])
  }

  /** Flattening keeps the tag order: the lists of earlier tags come first. */
  lemma {:induction false} FlattenAppend(a: seq<seq<Post>>, b: seq<seq<Post>>)
    ensures Flatten(a + b) == Flatten(a) + Flatten(b)
    decreases |a|
  {
    if a == [] {
      assert a + b == b;
    } else {
      assert (a + b)[1..] == a[1..] + b;
      FlattenAppend(a[1..], b);
    }
  }

  /** One tag's list is merged as it is: its order and its repeated posts are kept. */
  lemma FlattenSingle(l: seq<Post>)
    ensures Flatten([l]) == l
  {
    assert [l][1..] == [];
  }

  /** The number of posts over all the per-tag lists. */
  function TotalLength(lists: seq<seq<Post>>): nat
    decreases |lists|
  {
    if lists == [] then 0 else |lists[0]| + TotalLength(lists[1..])
  }

  /** The merge holds every copy of every post: its length is the sum of the lists' lengths. */
  lemma {:induction false} FlattenLength(lists: seq<seq<Post>>)
    ensures |Flatten(lists)| == TotalLength(lists)
    decreases |lists|
  {
    if lists != [] {
      FlattenLength(lists[1..]);
    }
  }

  /** The comparator passed to `sort`: negative or zero when `a` may stay before `b`. */
  function Compare(dir: string, f: SortField, a: Post, b: Post): (c: int)
    ensures dir == "desc" ==> (c <= 0 <==> Key(a, f) >= Key(b, f))
    ensures dir != "desc" ==> (c <= 0 <==> Key(a, f) <= Key(b, f))
  {
    if dir == "desc" then Key(b, f) - Key(a, f) else Key(a, f) - Key(b, f)
  }

  /** Every pair is in comparator order. */
  predicate SortedBy(s: seq<Post>, f: SortField, dir: string) {
    forall i, j :: 0 <= i < j < |s| ==> Compare(dir, f, s[i], s[j]) <= 0
  }

  /** Sorted by the comparator means non-decreasing in the field for `asc` (and any
      direction other than `desc`), non-increasing for `desc`. */
  lemma SortedByKeys(s: seq<Post>, f: SortField, dir: string)
    ensures dir == "desc" ==> (SortedBy(s, f, dir) <==> NonIncreasing(s, f))
    ensures dir != "desc" ==> (SortedBy(s, f, dir) <==> NonDecreasing(s, f))
  {
  }

  /** While the post at `j` moves down: all pairs not involving `j` are in order
      within `s[..i+1]`, and the post at `j` is in order with everything after it. */
  ghost predicate Inserting(s: seq<Post>, i: nat, j: nat, f: SortField, dir: string)
    requires j <= i < |s|
  {
    && (forall k, l :: 0 <= k < l <= i && l != j ==> Compare(dir, f, s[k], s[l]) <= 0)
    && (forall l :: j < l <= i ==> Compare(dir, f, s[j], s[l]) <= 0)
  }

  lemma StartInserting(s: seq<Post>, i: nat, f: SortField, dir: string)
    requires i < |s| && SortedBy(s[..i], f, dir)
    ensures Inserting(s, i, i, f, dir)
  {
  }

  lemma SwapDown(s: seq<Post>, i: nat, j: nat, f: SortField, dir: string)
    requires 0 < j <= i < |s| && Inserting(s, i, j, f, dir)
    requires Compare(dir, f, s[j - 1], s[j]) > 0
    ensures Inserting(s[j - 1 := s[j]][j := s[j - 1]], i, j - 1, f, dir)
  {
  }

  lemma DoneInserting(s: seq<Post>, i: nat, j: nat, f: SortField, dir: string)
    requires j <= i < |s| && Inserting(s, i, j, f, dir)
    requires j == 0 || Compare(dir, f, s[j - 1], s[j]) <= 0
    ensures SortedBy(s[..i + 1], f, dir)
  {
  }

  method Swap(a: array<Post>, i: int, j: int)
    requires 0 <= i < j < a.Length
    modifies a
    ensures a[..] == old(a[..])[i := old(a[j])][j := old(a[i])]
    ensures multiset(a[..]) == multiset(old(a[..]))
  {
    a[i], a[j] := a[j], a[i];
  }

  /** `Array.prototype.sort` with the comparator, in place: the array ends up in
      comparator order and holds the same posts. Modelled as an insertion sort. */
  method SortPosts(a: array<Post>, f: SortField, dir: string)
    modifies a
    ensures SortedBy(a[..], f, dir)
    ensures multiset(a[..]) == multiset(old(a[..]))
  {
    for i := 0 to a.Length
      invariant SortedBy(a[..i], f, dir)
      invariant multiset(a[..]) == multiset(old(a[..]))
    {
      StartInserting(a[..], i, f, dir);
      var j := i;
      while j > 0 && Compare(dir, f, a[j - 1], a[j]) > 0
        invariant 0 <= j <= i
        invariant Inserting(a[..], i, j, f, dir)
        invariant multiset(a[..]) == multiset(old(a[..]))
      {
        SwapDown(a[..], i, j, f, dir);
        Swap(a, j - 1, j);
        j := j - 1;
      }
      DoneInserting(a[..], i, j, f, dir);
      assert a[..][..i + 1] == a[..i + 1];
    }
    assert a[..a.Length] == a[..];
  }

  /** The posts the request answers with, up to the order of equal keys: the
      de-duplicated merge, sorted by the requested field in the requested direction. */
  ghost predicate IsAnswer(q: Query, merged: seq<Post>, posts: seq<Post>)
    requires Validate(q) == None
  {
    var f := FieldNamed(SortParam(q)).value;
    && multiset(posts) == multiset(Services.Dedup(merged))
    && SortedBy(posts, f, Direction(q))
    && (Direction(q) == "asc" ==> NonDecreasing(posts, f))
    && (Direction(q) == "desc" ==> NonIncreasing(posts, f))
  }

  /** getPosts. A failed check answers with its error before anything is fetched;
      a failed fetch answers with the fetch's error; otherwise the answer is the
      de-duplicated merge of the per-tag lists, sorted. */
  method GetPosts(q: Query, fetch: string -> Result<seq<Post>, string>)
    returns (r: Result<seq<Post>, string>)
    ensures Validate(q).Some? ==> r == Failure(Validate(q).value)
    ensures Validate(q) == None && FetchAll(TagList(q), fetch).Failure? ==>
      r == Failure(FetchAll(TagList(q), fetch).error)
    ensures Validate(q) == None && FetchAll(TagList(q), fetch).Success? ==>
      r.Success? && IsAnswer(q, Flatten(FetchAll(TagList(q), fetch).value), r.value)
    ensures Validate(q) == None && FetchAll(TagList(q), fetch).Success? ==>
      r.Success? && DistinctIds(r.value)
  {
    var err := Validate(q);
    if err.Some? {
      return Failure(err.value);
    }
    var tags := Split(q.tags.value, ',');
    var response := FetchAll(tags, fetch);
    if response.Failure? {
      return Failure(response.error);
    }
    var dir := Direction(q);
    var sortParam := SortParam(q);
    var field := FieldNamed(sortParam).value;
    var merged := Flatten(response.value);
    var postArr := new Post[|merged|](i requires 0 <= i < |merged| => merged[i]);
    assert postArr[..] == merged;
    var unique := Services.RemoveDups(postArr);
    var sorted := new Post[|unique|](i requires 0 <= i < |unique| => unique[i]);
    assert sorted[..] == unique;
    SortPosts(sorted, field, dir);
    SortedByKeys(sorted[..], field, dir);
    Services.DedupDistinct(merged);
    Services.PermutationKeepsDistinct(sorted[..], unique);
    r := Success(sorted[..]);
  }
}
