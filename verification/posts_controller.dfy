/** The posts handlers of controllers/posts.js: page arithmetic of
    `getPosts`, the like toggle and comment append, and the id guards of the
    writing handlers over a store of posts keyed by id. `ObjectId.isValid`
    is a parameter. */
module PostsController {
  import opened Common

  /** Posts per page (`LIMIT`). */
  const PageSize: nat := 8

  datatype Post = Post(creator: Option<string>, title: string, message: string,
                       tags: seq<string>, selectedFile: string,
                       likes: seq<string>, comments: seq<string>, createdAt: string)

  /** The fields `createPost` takes from the body. */
  datatype PostBody = PostBody(title: string, message: string, tags: seq<string>, selectedFile: string)

  /** The fields `updatePost` takes from the body. */
  datatype UpdateBody = UpdateBody(creator: string, title: string, message: string,
                                   tags: seq<string>, selectedFile: string)

  /** `getPosts`' answer: 404 when the store rejects the query, otherwise the
      JSON `{ data, currentPage, numberOfPages }`. */
  datatype PageReply = PageNotFound | PageOf(data: seq<Post>, currentPage: int, numberOfPages: nat)

  /** A JSON post (`null` when `post` is `None`), a fixed message, or the
      message of a thrown error. */
  datatype PostReply = Json(status: nat, post: Option<Post>) | Message(status: nat, message: string) | Thrown(status: nat)

  // ---------------------------------------------------------------------
  // Pagination

  /** `Math.ceil(total / LIMIT)`. */
  function NumberOfPages(total: nat): (n: nat)
    ensures n * PageSize >= total
    ensures n > 0 ==> (n - 1) * PageSize < total
  {
    (total + PageSize - 1) / PageSize
  }

  /** `.limit(LIMIT).skip(start)` on the newest-first list. */
  function Window(newestFirst: seq<Post>, start: nat): (w: seq<Post>)
    ensures |w| <= PageSize
    ensures start >= |newestFirst| ==> w == []
    ensures start < |newestFirst| ==> 0 < |w| && start + |w| <= |newestFirst| && w == newestFirst[start..start + |w|]
    ensures start + PageSize <= |newestFirst| ==> |w| == PageSize
    ensures start < |newestFirst| && |newestFirst| < start + PageSize ==> |w| == |newestFirst| - start
  {
    if start >= |newestFirst| then []
    else if start + PageSize <= |newestFirst| then newestFirst[start..start + PageSize]
    else newestFirst[start..]
  }

  /** `getPosts` on the store's posts sorted newest first: the start index is
      `(page - 1) * 8`; a negative skip (page below 1) is rejected by the store
      and reported as 404. */
  function GetPosts(newestFirst: seq<Post>, page: int): (r: PageReply)
    ensures r.PageNotFound? <==> page < 1
    ensures r.PageOf? ==>
      && r.currentPage == page
      && r.numberOfPages * PageSize >= |newestFirst|
      && (r.numberOfPages > 0 ==> (r.numberOfPages - 1) * PageSize < |newestFirst|)
      && r.data == Window(newestFirst, (page - 1) * PageSize)
  {
    var startIndex := (page - 1) * PageSize;
    if startIndex < 0 then PageNotFound
    else PageOf(Window(newestFirst, startIndex), page, NumberOfPages(|newestFirst|))
  }

  /** Pages 1 to k, one after the other. */
  function PagesUpTo(newestFirst: seq<Post>, k: nat): seq<Post>
  {
    if k == 0 then [] else PagesUpTo(newestFirst, k - 1) + Window(newestFirst, (k - 1) * PageSize)
  }

  /** Pages 1 to k together are the first `8k` posts. */
  lemma {:induction false} PagesUpToIsPrefix(newestFirst: seq<Post>, k: nat)
    ensures PagesUpTo(newestFirst, k) ==
      newestFirst[..if k * PageSize <= |newestFirst| then k * PageSize else |newestFirst|]
  {
    if k > 0 {
      PagesUpToIsPrefix(newestFirst, k - 1);
      var start := (k - 1) * PageSize;
      var w := Window(newestFirst, start);
      if start < |newestFirst| {
        assert newestFirst[..start] + newestFirst[start..start + |w|] == newestFirst[..start + |w|];
      }
    }
  }

  /** Pages 1 to numberOfPages are each non-empty, follow one another
      without overlap or gap, and together give every post exactly once in
      newest-first order; every later page is empty. */
  lemma PagesPartitionPosts(newestFirst: seq<Post>, page: nat)
    ensures PagesUpTo(newestFirst, NumberOfPages(|newestFirst|)) == newestFirst
    ensures 1 <= page <= NumberOfPages(|newestFirst|) ==> Window(newestFirst, (page - 1) * PageSize) != []
    ensures page > NumberOfPages(|newestFirst|) ==> Window(newestFirst, (page - 1) * PageSize) == []
  {
    PagesUpToIsPrefix(newestFirst, NumberOfPages(|newestFirst|));
    assert newestFirst[..|newestFirst|] == newestFirst;
    if page > NumberOfPages(|newestFirst|) {
      assert (page - 1) * PageSize >= NumberOfPages(|newestFirst|) * PageSize;
    }
  }

  // ---------------------------------------------------------------------
  // Likes and comments

  /** `likes.filter((id) => id !== user)`. */
  function RemoveAll(likes: seq<string>, user: string): (r: seq<string>)
    ensures user !in r
    ensures |r| <= |likes|
    ensures multiset(r) <= multiset(likes)
    ensures user !in likes ==> r == likes
  {
    if likes == [] then []
    else
      assert likes == [likes[0]] + likes[1..];
      (if likes[0] == user then [] else [likes[0]]) + RemoveAll(likes[1..], user)
  }

  /** Filtering drops no other id: every other id keeps its number of
      occurrences. */
  lemma {:induction false} RemoveAllKeepsOthers(likes: seq<string>, user: string, x: string)
    requires x != user
    ensures multiset(RemoveAll(likes, user))[x] == multiset(likes)[x]
  {
    if likes != [] {
      RemoveAllKeepsOthers(likes[1..], user, x);
      assert likes == [likes[0]] + likes[1..];
    }
  }

  /** Filtering keeps relative order: it distributes over concatenation. */
  lemma {:induction false} RemoveAllKeepsOrder(a: seq<string>, b: seq<string>, user: string)
    ensures RemoveAll(a + b, user) == RemoveAll(a, user) + RemoveAll(b, user)
  {
    if a == [] {
      assert a + b == b;
    } else {
      var head := if a[0] == user then [] else [a[0]];
      var ab := a + b;
      assert ab[0] == a[0] && ab[1..] == a[1..] + b by { assert ab == [a[0]] + (a[1..] + b); }
      calc {
        RemoveAll(ab, user);
        head + RemoveAll(a[1..] + b, user);
        { RemoveAllKeepsOrder(a[1..], b, user); }
        head + (RemoveAll(a[1..], user) + RemoveAll(b, user));
        (head + RemoveAll(a[1..], user)) + RemoveAll(b, user);
        RemoveAll(a, user) + RemoveAll(b, user);
      }
    }
  }

  /** The like toggle of `likePost`: append the user when absent, otherwise
      drop every occurrence. */
  function ToggleLike(likes: seq<string>, user: string): (r: seq<string>)
    ensures user in r <==> user !in likes
    ensures user !in likes ==> |r| == |likes| + 1 && r[..|likes|] == likes && r[|likes|] == user
    ensures user in likes ==> r == RemoveAll(likes, user)
  {
    if user !in likes then likes + [user] else RemoveAll(likes, user)
  }

  /** Liking and then unliking, from a list without the user, restores the
      list. */
  lemma ToggleTwiceRestores(likes: seq<string>, user: string)
    requires user !in likes
    ensures ToggleLike(ToggleLike(likes, user), user) == likes
  {
    RemoveAllKeepsOrder(likes, [user], user);
    assert RemoveAll([user], user) == [] + RemoveAll([], user);
  }

  /** `comments.push(value)`. */
  function AppendComment(comments: seq<string>, value: string): (r: seq<string>)
    ensures |r| == |comments| + 1 && r[..|comments|] == comments && r[|comments|] == value
  {
    comments + [value]
  }

  // ---------------------------------------------------------------------
  // The store and the writing handlers

  class PostStore {
    var posts: map<string, Post>

    constructor ()
      ensures posts == map[]
    {
      posts := map[];
    }

    /** `getPost`: an id the store cannot cast throws (404); otherwise the
        post, or `null` when there is none. */
    function GetPost(id: string, isValid: string -> bool): (reply: PostReply)
      reads this
      ensures !isValid(id) ==> reply == Thrown(404)
      ensures isValid(id) ==> reply.Json? && reply.status == 200
      ensures isValid(id) ==> (reply.post.Some? <==> id in posts)
      ensures isValid(id) && id in posts ==> reply.post == Some(posts[id])
    {
      if !isValid(id) then Thrown(404)
      else if id in posts then Json(200, Some(posts[id]))
      else Json(200, None)
    }

    /** `createPost`: the post takes the body's four fields, the caller's
        user id as creator and the given timestamp, with no likes or comments;
        a save the store rejects (the id is taken) is 409. */
    method CreatePost(newId: string, body: PostBody, userId: Option<string>, createdAt: string)
      returns (reply: PostReply)
      modifies this
      ensures newId in old(posts) ==> reply == Thrown(409) && posts == old(posts)
      ensures newId !in old(posts) ==>
        var post := Post(userId, body.title, body.message, body.tags, body.selectedFile, [], [], createdAt);
        posts == old(posts)[newId := post] && reply == Json(201, Some(post))
    {
      var post := Post(userId, body.title, body.message, body.tags, body.selectedFile, [], [], createdAt);
      if newId in posts {
        reply := Thrown(409);
        return;
      }
      posts := posts[newId := post];
      reply := Json(201, Some(post));
    }

    /** `updatePost`: an id failing `isValid` is 404 with nothing read; an
        unknown id answers `null`; otherwise the five body fields replace the
        post's, likes, comments and timestamp kept. */
    method UpdatePost(id: string, body: UpdateBody, isValid: string -> bool) returns (reply: PostReply)
      modifies this
      ensures !isValid(id) ==> reply == Message(404, "No post with id: " + id) && posts == old(posts)
      ensures isValid(id) && id !in old(posts) ==> reply == Json(200, None) && posts == old(posts)
      ensures isValid(id) && id in old(posts) ==>
        var post := old(posts)[id].(creator := Some(body.creator), title := body.title,
                                    message := body.message, tags := body.tags,
                                    selectedFile := body.selectedFile);
        posts == old(posts)[id := post] && reply == Json(200, Some(post))
    {
      if !isValid(id) {
        reply := Message(404, "No post with id: " + id);
        return;
      }
      if id !in posts {
        reply := Json(200, None);
        return;
      }
      var post := posts[id];
      post := post.(creator := Some(body.creator), title := body.title, message := body.message,
                    tags := body.tags, selectedFile := body.selectedFile);
      posts := posts[id := post];
      reply := Json(200, Some(post));
    }

    /** `deletePost`: an id failing `isValid` is 404 with nothing removed;
        otherwise the post, if any, is removed and the answer is the same
        whether or not it existed. */
    method DeletePost(id: string, isValid: string -> bool) returns (reply: PostReply)
      modifies this
      ensures !isValid(id) ==> reply == Message(404, "No post with id: " + id) && posts == old(posts)
      ensures isValid(id) ==> reply == Message(200, "Post deleted successfully.") && posts == old(posts) - {id}
    {
      if !isValid(id) {
        reply := Message(404, "No post with id: " + id);
        return;
      }
      posts := posts - {id};
      reply := Message(200, "Post deleted successfully.");
    }

    /** `likePost`: no user id answers "Unauthenticated" (status 200), an
        invalid id 404, a missing post 409 (reading `likes` of `null` throws);
        otherwise the user's like is toggled and the post written back. */
    method LikePost(id: string, userId: Option<string>, isValid: string -> bool) returns (reply: PostReply)
      modifies this
      ensures !Truthy(userId) ==> reply == Message(200, "Unauthenticated") && posts == old(posts)
      ensures Truthy(userId) && !isValid(id) ==> reply == Message(404, "No post with id: " + id) && posts == old(posts)
      ensures Truthy(userId) && isValid(id) && id !in old(posts) ==> reply == Thrown(409) && posts == old(posts)
      ensures Truthy(userId) && isValid(id) && id in old(posts) ==>
        var post := old(posts)[id].(likes := ToggleLike(old(posts)[id].likes, userId.value));
        posts == old(posts)[id := post] && reply == Json(200, Some(post))
    {
      if !Truthy(userId) {
        reply := Message(200, "Unauthenticated");
        return;
      }
      if !isValid(id) {
        reply := Message(404, "No post with id: " + id);
        return;
      }
      if id !in posts {
        reply := Thrown(409);
        return;
      }
      var post := posts[id];
      var user := userId.value;
      if user !in post.likes {
        post := post.(likes := post.likes + [user]);
      } else {
        post := post.(likes := RemoveAll(post.likes, user));
      }
      posts := posts[id := post];
      reply := Json(200, Some(post));
    }

    /** `commentPost`: no id guard before the lookup; an id the store
        cannot cast makes the lookup throw and an unknown id makes the push
        throw, both 409; otherwise the value becomes the last comment. */
    method CommentPost(id: string, value: string, isValid: string -> bool) returns (reply: PostReply)
      modifies this
      ensures !isValid(id) ==> reply == Thrown(409) && posts == old(posts)
      ensures id !in old(posts) ==> reply == Thrown(409) && posts == old(posts)
      ensures isValid(id) && id in old(posts) ==>
        var post := old(posts)[id].(comments := AppendComment(old(posts)[id].comments, value));
        posts == old(posts)[id := post] && reply == Json(200, Some(post))
    {
      if !isValid(id) || id !in posts {
        reply := Thrown(409);
        return;
      }
      var post := posts[id];
      post := post.(comments := post.comments + [value]);
      posts := posts[id := post];
      reply := Json(200, Some(post));
    }
  }
}
