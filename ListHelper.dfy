/**
  The blog-list helpers: `dummy` and `totalLikes`. A blog is reduced to the
  one field the helpers read, `likes`, taken as an integer.
*/
module ListHelper {

  datatype Blog = Blog(likes: int)

  /** `dummy` ignores its argument. */
  function Dummy(blogs: seq<Blog>): (r: int)
    ensures r == 1
  {
    1
  }

  /** `blogs.reduce((sum, b) => sum + b.likes, acc)`: a left fold from `acc`. */
  function ReduceLikes(acc: int, blogs: seq<Blog>): int
    decreases |blogs|
  {
    if blogs == [] then acc else ReduceLikes(acc + blogs[0].likes, blogs[1..])
  }

  /** The reference sum of likes, right to left. */
  function SumLikes(blogs: seq<Blog>): int
    decreases |blogs|
  {
    if blogs == [] then 0 else blogs[0].likes + SumLikes(blogs[1..])
  }

  /** `totalLikes`: the empty-list guard, then the reduce from 0. */
  function TotalLikes(blogs: seq<Blog>): int {
    if |blogs| == 0 then 0 else ReduceLikes(0, blogs)
  }

  /** The left fold adds the sum of the list to its starting value. */
  lemma {:induction false} ReduceLikesIsSum(acc: int, blogs: seq<Blog>)
    ensures ReduceLikes(acc, blogs) == acc + SumLikes(blogs)
    decreases |blogs|
  {
    if blogs != [] {
      ReduceLikesIsSum(acc + blogs[0].likes, blogs[1..]);
    }
  }

  /** The early return agrees with the reduce: the guard changes no result. */
  lemma GuardAgreesWithReduce(blogs: seq<Blog>)
    ensures TotalLikes(blogs) == ReduceLikes(0, blogs)
    ensures TotalLikes([]) == 0
  {
  }

  /** `totalLikes` is the sum of `likes` over the list. */
  lemma TotalLikesIsSum(blogs: seq<Blog>)
    ensures TotalLikes(blogs) == SumLikes(blogs)
  {
    ReduceLikesIsSum(0, blogs);
  }

  lemma TotalLikesSingleton(b: Blog)
    ensures TotalLikes([b]) == b.likes
  {
    assert [b][1..] == [];
    assert ReduceLikes(0, [b]) == ReduceLikes(b.likes, []);
  }

  lemma {:induction false} SumLikesAppend(a: seq<Blog>, b: seq<Blog>)
    ensures SumLikes(a + b) == SumLikes(a) + SumLikes(b)
    decreases |a|
  {
    if a == [] {
      assert a + b == b;
    } else {
      assert (a + b)[1..] == a[1..] + b;
      SumLikesAppend(a[1..], b);
    }
  }

  /** The total of a concatenation is the sum of the totals. */
  lemma TotalLikesAppend(a: seq<Blog>, b: seq<Blog>)
    ensures TotalLikes(a + b) == TotalLikes(a) + TotalLikes(b)
  {
    TotalLikesIsSum(a);
    TotalLikesIsSum(b);
    TotalLikesIsSum(a + b);
    SumLikesAppend(a, b);
  }

  /** Taking the blog at index j out of the list takes its likes out of the sum. */
  lemma {:induction false} SumLikesRemove(b: seq<Blog>, j: nat)
    requires j < |b|
    ensures SumLikes(b) == b[j].likes + SumLikes(b[..j] + b[j + 1..])
    decreases j
  {
    if j == 0 {
      assert b[..0] + b[1..] == b[1..];
    } else {
      var tail := b[1..];
      SumLikesRemove(tail, j - 1);
      assert b[..j] + b[j + 1..] == [b[0]] + (tail[..j - 1] + tail[j..]);
    }
  }

  /** An index at which x occurs in a list whose multiset holds x. */
  lemma IndexOf(b: seq<Blog>, x: Blog) returns (j: nat)
    requires x in multiset(b)
    ensures j < |b| && b[j] == x
  {
    assert x in b;
    j :| 0 <= j < |b| && b[j] == x;
  }

  lemma MultisetRemove(b: seq<Blog>, j: nat)
    requires j < |b|
    ensures multiset(b[..j] + b[j + 1..]) == multiset(b) - multiset{b[j]}
  {
    assert b == b[..j] + [b[j]] + b[j + 1..];
  }

  lemma MultisetRemoveFirst(b: seq<Blog>)
    requires |b| > 0
    ensures multiset(b[1..]) == multiset(b) - multiset{b[0]}
  {
    assert b == [b[0]] + b[1..];
  }

  lemma {:induction false} SumLikesPermutation(a: seq<Blog>, b: seq<Blog>)
    requires multiset(a) == multiset(b)
    ensures SumLikes(a) == SumLikes(b)
    decreases |a|
  {
    if |a| == 0 {
      assert |b| == |multiset(b)| == 0;
    } else {
      var j := IndexOf(b, a[0]);
      var rest := b[..j] + b[j + 1..];
      calc {
        multiset(a[1..]);
        { MultisetRemoveFirst(a); }
        multiset(a) - multiset{a[0]};
        multiset(b) - multiset{b[j]};
        { MultisetRemove(b, j); }
        multiset(rest);
      }
      SumLikesPermutation(a[1..], rest);
      SumLikesRemove(b, j);
    }
  }

  /** Reordering the blogs does not change the total. */
  lemma TotalLikesPermutation(a: seq<Blog>, b: seq<Blog>)
    requires multiset(a) == multiset(b)
    ensures TotalLikes(a) == TotalLikes(b)
  {
    TotalLikesIsSum(a);
    TotalLikesIsSum(b);
    SumLikesPermutation(a, b);
  }
}
