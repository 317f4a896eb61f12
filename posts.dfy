/** The blog posts the upstream API returns, and the numeric fields they can be sorted by. */
module Posts {

  /** One post as the upstream API returns it (`readCount` is its `reads` property,
      a keyword in Dafny). `popularity` is a fraction in the API;
      here it is an integer key with the same order (hundredths in the test fixture). */
  datatype Post = Post(
    author: string,
    authorId: int,
    id: int,
    likes: int,
    popularity: int,
    readCount: int,
    tags: seq<string>)

  /** The fields a client may sort by. */
  datatype SortField = Id | Reads | Likes | Popularity

  /** The property name of a sort field, as it appears in the query and in a post. */
  function FieldName(f: SortField): string {
    match f
    case Id => "id"
    case Reads => "reads"
    case Likes => "likes"
    case Popularity => "popularity"
  }

  /** `post[name]` for the sortable fields. */
  function Key(p: Post, f: SortField): int {
    match f
    case Id => p.id
    case Reads => p.readCount
    case Likes => p.likes
    case Popularity => p.popularity
  }

  /** The set of ids occurring in a list of posts. */
  function Ids(s: seq<Post>): set<int> {
    set p | p in s :: p.id
  }

  /** No two posts in the list share an id. */
  predicate DistinctIds(s: seq<Post>) {
    forall i, j :: 0 <= i < j < |s| ==> s[i].id != s[j].id
  }

  predicate NonDecreasing(s: seq<Post>, f: SortField) {
    forall i, j :: 0 <= i < j < |s| ==> Key(s[i], f) <= Key(s[j], f)
  }

  predicate NonIncreasing(s: seq<Post>, f: SortField) {
    forall i, j :: 0 <= i < j < |s| ==> Key(s[i], f) >= Key(s[j], f)
  }
}
