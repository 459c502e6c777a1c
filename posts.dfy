/**
 * The post store: the module-level `posts` array and its counter `nextId`,
 * the CRUD handlers over them, and the cascade from deleting a post into
 * the comment store.
 */
module Posts {
  import opened Wire
  import opened Seqs
  import Comments

  datatype Post = Post(
    id: int,
    authorName: string,
    text: string,
    createdAt: Timestamp,
    updatedAt: Timestamp)

  function PostId(p: Post): int { p.id }

  /** Body of `POST /posts` and of `PUT /posts/:id`. */
  datatype PostBody = PostBody(authorName: Field<string>, text: Field<string>)

  /** The create handler's guard: `author_name` and `text` both truthy. */
  predicate Acceptable(body: PostBody): (b: bool)
    ensures b ==> body.authorName.Given? && body.text.Given?
    ensures body.authorName == Given("") || body.text == Given("") ==> !b
    ensures b <== body.authorName.Given? && body.authorName.value != "" && body.text.Given? && body.text.value != ""
  {
    Truthy(body.authorName) && Truthy(body.text)
  }

  /** A post record after a `PUT`: the sent fields replace the old ones, `updated_at` becomes `now`. */
  function Patched(p: Post, body: PostBody, now: Timestamp): (r: Post)
    ensures r.id == p.id && r.createdAt == p.createdAt && r.updatedAt == now
  {
    p.(authorName := body.authorName.Or(p.authorName),
       text := body.text.Or(p.text),
       updatedAt := now)
  }

  /** A `PUT` keeps the id and the creation time, refreshes `updated_at`, and keeps every field it was not sent. */
  lemma PatchedKeepsUnsent(p: Post, body: PostBody, now: Timestamp)
    ensures var r := Patched(p, body, now);
      r.id == p.id && r.createdAt == p.createdAt && r.updatedAt == now &&
      (body.authorName.Absent? ==> r.authorName == p.authorName) &&
      (body.text.Absent? ==> r.text == p.text)
  {
  }

  /** A `PUT` writes every sent field with exactly the sent value. */
  lemma PatchedTakesSent(p: Post, body: PostBody, now: Timestamp)
    ensures var r := Patched(p, body, now);
      (body.authorName.Given? ==> r.authorName == body.authorName.value) &&
      (body.text.Given? ==> r.text == body.text.value)
  {
  }

  /** Sending the same `PUT` twice with the same clock gives the same record as sending it once. */
  lemma PatchedIdempotent(p: Post, body: PostBody, now: Timestamp)
    ensures Patched(Patched(p, body, now), body, now) == Patched(p, body, now)
  {
  }

  class PostStore {
    var posts: seq<Post>
    var nextId: int

    /** Ids strictly increase along the array and all were issued by the counter. */
    ghost predicate Valid()
      reads this
    {
      1 <= nextId && Increasing(posts, PostId) && Within(posts, PostId, 1, nextId)
    }

    /** Module initialisation: `let posts = []`, `let nextId = 1`. */
    constructor ()
      ensures Valid()
      ensures posts == [] && nextId == 1
    {
      posts := [];
      nextId := 1;
    }

    /** `_resetPosts`. */
    method Reset()
      modifies this
      ensures Valid()
      ensures posts == [] && nextId == 1
    {
      posts := [];
      nextId := 1;
    }

    /** `GET /posts`: the posts in insertion order. */
    method List() returns (r: seq<Post>)
      ensures r == posts
    {
      r := posts;
    }

    /** `GET /posts/:id`: the first post with that id, or not-found. */
    method Get(id: int) returns (r: Reply<Post>)
      ensures r.Ok? || r == NotFound
      ensures r == NotFound <==> !HasKey(posts, PostId, id)
      ensures r.Ok? ==> r.value in posts && r.value.id == id
    {
      var i := FindIndex(posts, (p: Post) => p.id == id);
      if i == -1 {
        r := NotFound;
      } else {
        r := Ok(posts[i]);
      }
    }

    /** `POST /posts`: takes the counter's value as the id, bumps the counter, appends. */
    method Create(body: PostBody, now: Timestamp) returns (r: Reply<Post>)
      requires Valid()
      modifies this
      ensures Valid()
      ensures r.Ok? || r == BadRequest
      ensures r == BadRequest <==> !Acceptable(body)
      ensures r == BadRequest ==> posts == old(posts) && nextId == old(nextId)
      ensures r.Ok? ==>
        r.value == Post(old(nextId), body.authorName.value, body.text.value, now, now) &&
        posts == old(posts) + [r.value] &&
        nextId == old(nextId) + 1
      ensures r.Ok? ==> forall p :: p in old(posts) ==> p.id < r.value.id
    {
      if !Truthy(body.authorName) || !Truthy(body.text) {
        return BadRequest;
      }
      var p := Post(nextId, body.authorName.value, body.text.value, now, now);
      PushKeepsIds(posts, PostId, p, nextId);
      nextId := nextId + 1;
      posts := posts + [p];
      r := Ok(p);
    }

    /** `PUT /posts/:id`: applies the sent fields to the post in place. */
    method Update(id: int, body: PostBody, now: Timestamp) returns (r: Reply<Post>)
      requires Valid()
      modifies this
      ensures Valid()
      ensures nextId == old(nextId)
      ensures r.Ok? || r == NotFound
      ensures r == NotFound <==> !HasKey(old(posts), PostId, id)
      ensures r == NotFound ==> posts == old(posts)
      ensures r.Ok? ==>
        exists k :: 0 <= k < |old(posts)| && old(posts)[k].id == id &&
          r.value == Patched(old(posts)[k], body, now) && posts == old(posts)[k := r.value]
    {
      var i := FindIndex(posts, (p: Post) => p.id == id);
      if i == -1 {
        return NotFound;
      }
      var p := Patched(posts[i], body, now);
      ReplaceKeepsIds(posts, PostId, i, p, nextId);
      posts := posts[i := p];
      r := Ok(p);
    }

    /**
     * `DELETE /posts/:id`: splices the post out, then removes every comment
     * on it from `comments`, and answers with the removed post.
     */
    method Delete(id: int, comments: Comments.CommentStore) returns (r: Reply<Post>)
      requires Valid() && comments.Valid()
      modifies this, comments
      ensures Valid() && comments.Valid()
      ensures nextId == old(nextId) && comments.nextCommentId == old(comments.nextCommentId)
      ensures r.Ok? || r == NotFound
      ensures r == NotFound <==> !HasKey(old(posts), PostId, id)
      ensures r == NotFound ==> posts == old(posts) && comments.comments == old(comments.comments)
      ensures r.Ok? ==> r.value.id == id && !HasKey(posts, PostId, id)
      ensures r.Ok? ==>
        exists k :: 0 <= k < |old(posts)| && old(posts)[k] == r.value &&
          posts == RemoveAt(old(posts), k)
      ensures r.Ok? ==> comments.comments == Comments.WithoutPost(old(comments.comments), id)
      ensures r.Ok? ==> forall c :: c in comments.comments ==> c.postId != id
    {
      var i := FindIndex(posts, (p: Post) => p.id == id);
      if i == -1 {
        return NotFound;
      }
      var deleted := posts[i];
      RemoveAtKeepsIds(posts, PostId, i, nextId);
      posts := RemoveAt(posts, i);
      comments.DeleteByPost(deleted.id);
      r := Ok(deleted);
    }
  }
}
