/** The de-duplication helper of services/index.js: keep the first post of every id,
    in input order. The source controller repeats this code inline; `GetPosts` calls it. */
module Services {
  import opened Posts

  /** The specification: the posts of `s`, dropping every post whose id already
      occurred earlier in `s`. Stated on prefixes, the way the loop walks the input. */
  function Dedup(s: seq<Post>): seq<Post>
    decreases |s|
  {
    if s == [] then []
    else if s[|s| - 1].id in Ids(s[..|s| - 1]) then Dedup(s[..|s| - 1])
    else Dedup(s[..|s| - 1]) + [s[|s| - 1]]
  }

  /** Number of posts in `s` whose id is `id` (the value the cache holds for `id`). */
  function Occurrences(s: seq<Post>, id: int): nat
    decreases |s|
  {
    if s == [] then 0
    else Occurrences(s[..|s| - 1], id) + (if s[|s| - 1].id == id then 1 else 0)
  }

  /** The position of the first post of `s` with id `id`. */
  function FirstIndex(s: seq<Post>, id: int): (k: nat)
    requires id in Ids(s)
    ensures k < |s| && s[k].id == id
    ensures forall j :: 0 <= j < k ==> s[j].id != id
    decreases |s|
  {
    if s[0].id == id then 0
    else
      assert s == [s[0]] + s[1..];
      1 + FirstIndex(s[1..], id)
  }

  /** The first post of `s` with id `id`. */
  function First(s: seq<Post>, id: int): Post
    requires id in Ids(s)
  {
    s[FirstIndex(s, id)]
  }

  /** `r` is `s` with some posts left out and the rest in their original order. */
  predicate IsSubsequence(r: seq<Post>, s: seq<Post>)
    decreases |s|
  {
    if r == [] then true
    else if s == [] then false
    else
      (r[|r| - 1] == s[|s| - 1] && IsSubsequence(r[..|r| - 1], s[..|s| - 1]))
      || IsSubsequence(r, s[..|s| - 1])
  }

  /** removeDups: a single pass over the input with a per-id counter in `cache`;
      a post is pushed when its counter is below 2, i.e. when it is the first of its id.
      The input array is only read. */
  method RemoveDups(postArr: array<Post>) returns (posts: seq<Post>)
    ensures posts == Dedup(postArr[..])
  {
    var cache: map<int, nat> := map[];
    posts := [];
    for i := 0 to postArr.Length
      invariant posts == Dedup(postArr[..i])
      invariant forall id :: id in cache <==> id in Ids(postArr[..i])
      invariant forall id :: id in cache ==> cache[id] == Occurrences(postArr[..i], id) >= 1
    {
      var post := postArr[i];
      assert postArr[..i + 1][..i] == postArr[..i];
      IdsSnoc(postArr[..i], post);
      OccurrencesPositive(postArr[..i], post.id);
      if post.id in cache && cache[post.id] != 0 {
        cache := cache[post.id := cache[post.id] + 1];
      } else {
        cache := cache[post.id := 1];
      }
      if cache[post.id] < 2 {
        posts := posts + [post];
      }
    }
    assert postArr[..postArr.Length] == postArr[..];
  }

  lemma IdsSnoc(s: seq<Post>, p: Post)
    ensures Ids(s + [p]) == Ids(s) + {p.id}
  {
  }

  lemma IdsAppend(s: seq<Post>, t: seq<Post>)
    ensures Ids(s + t) == Ids(s) + Ids(t)
  {
  }

  /** The cache holds a counter for exactly the ids seen so far. */
  lemma {:induction false} OccurrencesPositive(s: seq<Post>, id: int)
    ensures Occurrences(s, id) > 0 <==> id in Ids(s)
    decreases |s|
  {
    if s != [] {
      var init, last := s[..|s| - 1], s[|s| - 1];
      assert s == init + [last];
      IdsSnoc(init, last);
      OccurrencesPositive(init, id);
    }
  }

  /** The output keeps exactly the ids of the input. */
  lemma {:induction false} DedupIds(s: seq<Post>)
    ensures Ids(Dedup(s)) == Ids(s)
    decreases |s|
  {
    if s != [] {
      var init, last := s[..|s| - 1], s[|s| - 1];
      assert s == init + [last];
      IdsSnoc(init, last);
      DedupIds(init);
      if last.id !in Ids(init) {
        IdsSnoc(Dedup(init), last);
      }
    }
  }

  /** No two posts of the output share an id. */
  lemma {:induction false} DedupDistinct(s: seq<Post>)
    ensures DistinctIds(Dedup(s))
    decreases |s|
  {
    if s != [] {
      var init, last := s[..|s| - 1], s[|s| - 1];
      DedupDistinct(init);
      if last.id !in Ids(init) {
        DedupIds(init);
        var d := Dedup(init);
        forall i | 0 <= i < |d| ensures d[i].id != last.id {
          assert d[i] in d;
        }
      }
    }
  }

  /** In a list with distinct ids each post occurs at most once. */
  lemma {:induction false} DistinctCount(s: seq<Post>, p: Post)
    requires DistinctIds(s)
    ensures multiset(s)[p] <= 1
    decreases |s|
  {
    if s != [] {
      assert s == [s[0]] + s[1..];
      assert DistinctIds(s[1..]) by {
        forall i, j | 0 <= i < j < |s[1..]| ensures s[1..][i].id != s[1..][j].id {
          assert s[1..][i] == s[i + 1] && s[1..][j] == s[j + 1];
        }
      }
      DistinctCount(s[1..], p);
      if s[0] == p {
        forall k | 0 <= k < |s[1..]| ensures s[1..][k] != p {
          assert s[1..][k] == s[k + 1];
        }
        assert p !in s[1..];
      }
    }
  }

  /** A post at two positions of a list occurs at least twice in it. */
  lemma TwoCopies(r: seq<Post>, i: nat, j: nat)
    requires i < j < |r| && r[i] == r[j]
    ensures multiset(r)[r[i]] >= 2
  {
    assert r == r[..j] + r[j..];
    assert r[i] in r[..j];
    assert r[j] in r[j..];
  }

  /** Reordering a list keeps its ids distinct. */
  lemma PermutationKeepsDistinct(r: seq<Post>, s: seq<Post>)
    requires multiset(r) == multiset(s) && DistinctIds(s)
    ensures DistinctIds(r)
  {
    forall i, j | 0 <= i < j < |r| ensures r[i].id != r[j].id {
      if r[i] == r[j] {
        TwoCopies(r, i, j);
        DistinctCount(s, r[i]);
      } else {
        assert r[i] in multiset(s) && r[j] in multiset(s);
        var k :| 0 <= k < |s| && s[k] == r[i];
        var l :| 0 <= l < |s| && s[l] == r[j];
        assert k != l;
      }
    }
  }

  /** The output is a subsequence of the input. */
  lemma {:induction false} DedupSubsequence(s: seq<Post>)
    ensures IsSubsequence(Dedup(s), s)
    decreases |s|
  {
    if s != [] {
      var init, last := s[..|s| - 1], s[|s| - 1];
      DedupSubsequence(init);
      if last.id !in Ids(init) {
        var d := Dedup(init) + [last];
        assert d[..|d| - 1] == Dedup(init);
      }
    }
  }

  /** Appending a post does not move the first position of an id already present;
      an id not present before first occurs at the appended post. */
  lemma FirstIndexSnoc(s: seq<Post>, p: Post, id: int)
    requires id in Ids(s) || id == p.id
    ensures id in Ids(s + [p])
    ensures FirstIndex(s + [p], id) == if id in Ids(s) then FirstIndex(s, id) else |s|
  {
    IdsSnoc(s, p);
    var t := s + [p];
    assert forall j :: 0 <= j < |s| ==> t[j] == s[j];
    if id !in Ids(s) {
      forall j | 0 <= j < |s| ensures s[j].id != id {
        assert s[j] in s;
      }
    }
  }

  lemma FirstSnoc(s: seq<Post>, p: Post, id: int)
    requires id in Ids(s) || id == p.id
    ensures id in Ids(s + [p])
    ensures First(s + [p], id) == if id in Ids(s) then First(s, id) else p
  {
    FirstIndexSnoc(s, p, id);
    if id in Ids(s) {
      assert (s + [p])[FirstIndex(s, id)] == s[FirstIndex(s, id)];
    }
  }

  /** For every id, the post kept is the first post of the input with that id:
      later posts with the same id are dropped whatever their other fields. */
  lemma {:induction false} DedupKeepsFirst(s: seq<Post>)
    ensures forall p :: p in Dedup(s) ==> p.id in Ids(s) && p == First(s, p.id)
    decreases |s|
  {
    if s != [] {
      var init, last := s[..|s| - 1], s[|s| - 1];
      assert s == init + [last];
      DedupKeepsFirst(init);
      forall p | p in Dedup(s) ensures p.id in Ids(s) && p == First(s, p.id) {
        if p in Dedup(init) {
          FirstSnoc(init, last, p.id);
        } else {
          assert p == last && last.id !in Ids(init);
          FirstSnoc(init, last, p.id);
        }
      }
    }
  }

  /** The kept posts appear in the order in which their ids first occur in the input:
      of any two kept posts, the earlier one's id occurs first in the input. */
  lemma {:induction false} DedupInFirstOccurrenceOrder(s: seq<Post>, i: nat, j: nat)
    requires i < j < |Dedup(s)|
    ensures Dedup(s)[i].id in Ids(s) && Dedup(s)[j].id in Ids(s)
    ensures FirstIndex(s, Dedup(s)[i].id) < FirstIndex(s, Dedup(s)[j].id)
    decreases |s|
  {
    var init, last := s[..|s| - 1], s[|s| - 1];
    assert s == init + [last];
    var d, e := Dedup(s), Dedup(init);
    DedupIds(init);
    assert d[i] == e[i] && d[i] in e;
    FirstIndexSnoc(init, last, d[i].id);
    if j < |e| {
      assert d[j] == e[j] && d[j] in e;
      FirstIndexSnoc(init, last, d[j].id);
      DedupInFirstOccurrenceOrder(init, i, j);
    } else {
      FirstIndexSnoc(init, last, last.id);
    }
  }

  lemma DistinctSnoc(s: seq<Post>, p: Post)
    ensures DistinctIds(s + [p]) <==> DistinctIds(s) && p.id !in Ids(s)
  {
    var t := s + [p];
    if DistinctIds(t) {
      assert forall i, j :: 0 <= i < j < |s| ==> s[i] == t[i] && s[j] == t[j];
      forall k | 0 <= k < |s| ensures s[k].id != p.id {
        assert s[k] == t[k] && p == t[|s|];
      }
    }
    if DistinctIds(s) && p.id !in Ids(s) {
      forall i, j | 0 <= i < j < |t| ensures t[i].id != t[j].id {
        if j == |s| { assert t[i] in s; }
      }
    }
  }

  /** The output is never longer than the input, and is exactly as long when the
      input ids are already distinct. */
  lemma {:induction false} DedupLength(s: seq<Post>)
    ensures |Dedup(s)| <= |s|
    ensures |Dedup(s)| == |s| <==> DistinctIds(s)
    decreases |s|
  {
    if s != [] {
      var init, last := s[..|s| - 1], s[|s| - 1];
      assert s == init + [last];
      DedupLength(init);
      DistinctSnoc(init, last);
    }
  }

  /** On input with distinct ids nothing is dropped. */
  lemma {:induction false} DedupOfDistinct(s: seq<Post>)
    requires DistinctIds(s)
    ensures Dedup(s) == s
    decreases |s|
  {
    if s != [] {
      var init, last := s[..|s| - 1], s[|s| - 1];
      assert s == init + [last];
      DistinctSnoc(init, last);
      DedupOfDistinct(init);
    }
  }

  /** De-duplicating twice gives the same list as de-duplicating once. */
  lemma DedupIdempotent(s: seq<Post>)
    ensures Dedup(Dedup(s)) == Dedup(s)
  {
    DedupDistinct(s);
    DedupOfDistinct(Dedup(s));
  }

  /** Posts appended after `s` whose ids all occurred in `s` are all dropped. */
  lemma {:induction false} DedupDropsSeen(s: seq<Post>, t: seq<Post>)
    requires Ids(t) <= Ids(s)
    ensures Dedup(s + t) == Dedup(s)
    decreases |t|
  {
    if t == [] {
      assert s + t == s;
    } else {
      var init, last := t[..|t| - 1], t[|t| - 1];
      assert t == init + [last];
      assert s + t == (s + init) + [last];
      assert (s + t)[|s + t| - 1] == last;
      assert (s + t)[..|s + t| - 1] == s + init;
      IdsSnoc(init, last);
      IdsAppend(s, init);
      DedupDropsSeen(s, init);
      assert last.id in Ids(s + init);
    }
  }
}
