/**
 * The comment store: the module-level `comments` array and its private
 * counter `nextCommentId`, the CRUD handlers over them, and
 * `deleteCommentsByPost`, the bulk removal the post store cascades into.
 */
module Comments {
  import opened Wire
  import opened Seqs

  datatype Comment = Comment(
    id: int,
    postId: int,
    authorName: string,
    authorAvatar: Option<string>,
    text: string,
    likes: int,
    createdAt: Timestamp,
    updatedAt: Timestamp)

  function CommentId(c: Comment): int { c.id }

  /** Body of `POST /comments`. */
  datatype NewComment = NewComment(
    postId: Field<int>,
    authorName: Field<string>,
    authorAvatar: Field<Option<string>>,
    text: Field<string>)

  /** Body of `PUT /comments/:id`: every key optional; `post_id` cannot be changed. */
  datatype CommentPatch = CommentPatch(
    authorName: Field<string>,
    authorAvatar: Field<Option<string>>,
    text: Field<string>,
    likes: Field<int>)

  /** The create handler's guard: both strings truthy and a `post_id` sent. */
  predicate Acceptable(body: NewComment): (b: bool)
    ensures b ==> body.postId.Given? && body.authorName.Given? && body.text.Given?
    ensures body.authorName == Given("") || body.text == Given("") ==> !b
    ensures b <== body.postId.Given? &&
      body.authorName.Given? && body.authorName.value != "" && body.text.Given? && body.text.value != ""
  {
    Truthy(body.authorName) && Truthy(body.text) && body.postId.Given?
  }

  /**
   * `comments.filter(c => c.post_id !== postId)`: the comments not on post
   * `postId`, in their original order.
   */
  function WithoutPost(s: seq<Comment>, postId: int): (r: seq<Comment>)
    ensures |r| <= |s|
    ensures forall c :: c in r ==> c in s && c.postId != postId
    ensures forall c :: c in s && c.postId != postId ==> c in r
  {
    if s == [] then []
    else if s[0].postId != postId then [s[0]] + WithoutPost(s[1..], postId)
    else WithoutPost(s[1..], postId)
  }

  /** A comment record after a `PUT`: the sent fields replace the old ones, `updated_at` becomes `now`. */
  function Patched(c: Comment, patch: CommentPatch, now: Timestamp): (r: Comment)
    ensures r.id == c.id && r.postId == c.postId && r.createdAt == c.createdAt && r.updatedAt == now
  {
    c.(authorName := patch.authorName.Or(c.authorName),
       authorAvatar := patch.authorAvatar.Or(c.authorAvatar),
       text := patch.text.Or(c.text),
       likes := patch.likes.Or(c.likes),
       updatedAt := now)
  }

  /** The filter keeps order: it never puts a later comment before an earlier one. */
  lemma {:induction false} WithoutPostKeepsIds(s: seq<Comment>, postId: int, next: int)
    requires Increasing(s, CommentId) && Within(s, CommentId, 1, next)
    ensures Increasing(WithoutPost(s, postId), CommentId)
    ensures Within(WithoutPost(s, postId), CommentId, 1, next)
  {
    if s != [] {
      var rest := s[1..];
      DropFirstKeepsIds(s, CommentId, next);
      WithoutPostKeepsIds(rest, postId, next);
      if s[0].postId != postId {
        var tail := WithoutPost(rest, postId);
        forall y | y in tail ensures s[0].id < y.id {
          var k :| 0 <= k < |rest| && rest[k] == y;
          assert rest[k] == s[k + 1];
        }
        ConsKeepsIds(s[0], tail, CommentId, next);
      }
    }
  }

  /** Removing the comments of a post twice removes nothing more. */
  lemma {:induction false} WithoutPostIdempotent(s: seq<Comment>, postId: int)
    ensures WithoutPost(WithoutPost(s, postId), postId) == WithoutPost(s, postId)
  {
    if s != [] {
      WithoutPostIdempotent(s[1..], postId);
      if s[0].postId != postId {
        var tail := WithoutPost(s[1..], postId);
        assert WithoutPost(s, postId) == [s[0]] + tail;
        assert ([s[0]] + tail)[1..] == tail;
      }
    }
  }

  /** When no comment is on the post, the filter returns the array unchanged. */
  lemma {:induction false} WithoutPostNoMatch(s: seq<Comment>, postId: int)
    requires forall i :: 0 <= i < |s| ==> s[i].postId != postId
    ensures WithoutPost(s, postId) == s
  {
    if s != [] {
      WithoutPostNoMatch(s[1..], postId);
      assert [s[0]] + s[1..] == s;
    }
  }

  /**
   * A `PUT` never changes which post a comment belongs to, nor its id or
   * creation time, refreshes `updated_at`, and keeps every field it was not sent.
   */
  lemma PatchedKeepsUnsent(c: Comment, patch: CommentPatch, now: Timestamp)
    ensures var r := Patched(c, patch, now);
      r.id == c.id && r.postId == c.postId && r.createdAt == c.createdAt && r.updatedAt == now &&
      (patch.authorName.Absent? ==> r.authorName == c.authorName) &&
      (patch.authorAvatar.Absent? ==> r.authorAvatar == c.authorAvatar) &&
      (patch.text.Absent? ==> r.text == c.text) &&
      (patch.likes.Absent? ==> r.likes == c.likes)
  {
  }

  /** A `PUT` writes every sent field with exactly the sent value, `null` avatar included. */
  lemma PatchedTakesSent(c: Comment, patch: CommentPatch, now: Timestamp)
    ensures var r := Patched(c, patch, now);
      (patch.authorName.Given? ==> r.authorName == patch.authorName.value) &&
      (patch.authorAvatar.Given? ==> r.authorAvatar == patch.authorAvatar.value) &&
      (patch.text.Given? ==> r.text == patch.text.value) &&
      (patch.likes.Given? ==> r.likes == patch.likes.value)
  {
  }

  /** Sending the same `PUT` twice with the same clock gives the same record as sending it once. */
  lemma PatchedIdempotent(c: Comment, patch: CommentPatch, now: Timestamp)
    ensures Patched(Patched(c, patch, now), patch, now) == Patched(c, patch, now)
  {
  }

  class CommentStore {
    var comments: seq<Comment>
    var nextCommentId: int

    /** Ids strictly increase along the array and all were issued by the counter. */
    ghost predicate Valid()
      reads this
    {
      1 <= nextCommentId &&
      Increasing(comments, CommentId) && Within(comments, CommentId, 1, nextCommentId)
    }

    /** Module initialisation: `let comments = []`, `let nextCommentId = 1`. */
    constructor ()
      ensures Valid()
      ensures comments == [] && nextCommentId == 1
    {
      comments := [];
      nextCommentId := 1;
    }

    /** `_resetComments`. */
    method Reset()
      modifies this
      ensures Valid()
      ensures comments == [] && nextCommentId == 1
    {
      comments := [];
      nextCommentId := 1;
    }

    /** `deleteCommentsByPost`: rebinds the array to the comments not on `postId`; the counter is untouched. */
    method DeleteByPost(postId: int)
      requires Valid()
      modifies this
      ensures Valid()
      ensures comments == WithoutPost(old(comments), postId)
      ensures nextCommentId == old(nextCommentId)
      ensures forall c :: c in comments ==> c.postId != postId
    {
      WithoutPostKeepsIds(comments, postId, nextCommentId);
      comments := WithoutPost(comments, postId);
    }

    /** `GET /comments`. */
    method List() returns (r: seq<Comment>)
      ensures r == comments
    {
      r := comments;
    }

    /** `GET /comments/:id`: the first comment with that id, or not-found. */
    method Get(id: int) returns (r: Reply<Comment>)
      ensures r.Ok? || r == NotFound
      ensures r == NotFound <==> !HasKey(comments, CommentId, id)
      ensures r.Ok? ==> r.value in comments && r.value.id == id
    {
      var i := FindIndex(comments, (c: Comment) => c.id == id);
      if i == -1 {
        r := NotFound;
      } else {
        r := Ok(comments[i]);
      }
    }

    /** `POST /comments`. */
    method Create(body: NewComment, now: Timestamp) returns (r: Reply<Comment>)
      requires Valid()
      modifies this
      ensures Valid()
      ensures r.Ok? || r == BadRequest
      ensures r == BadRequest <==> !Acceptable(body)
      ensures r == BadRequest ==> comments == old(comments) && nextCommentId == old(nextCommentId)
      ensures r.Ok? ==>
        r.value == Comment(old(nextCommentId), body.postId.value, body.authorName.value,
                           OrNull(body.authorAvatar), body.text.value, 0, now, now) &&
        comments == old(comments) + [r.value] &&
        nextCommentId == old(nextCommentId) + 1
      ensures r.Ok? ==> forall c :: c in old(comments) ==> c.id < r.value.id
    {
      if !Truthy(body.authorName) || !Truthy(body.text) || body.postId.Absent? {
        return BadRequest;
      }
      var c := Comment(nextCommentId, body.postId.value, body.authorName.value,
                       OrNull(body.authorAvatar), body.text.value, 0, now, now);
      PushKeepsIds(comments, CommentId, c, nextCommentId);
      nextCommentId := nextCommentId + 1;
      comments := comments + [c];
      r := Ok(c);
    }

    /** `PUT /comments/:id`: applies the sent fields to the comment in place. */
    method Update(id: int, patch: CommentPatch, now: Timestamp) returns (r: Reply<Comment>)
      requires Valid()
      modifies this
      ensures Valid()
      ensures nextCommentId == old(nextCommentId)
      ensures r.Ok? || r == NotFound
      ensures r == NotFound <==> !HasKey(old(comments), CommentId, id)
      ensures r == NotFound ==> comments == old(comments)
      ensures r.Ok? ==>
        exists k :: 0 <= k < |old(comments)| && old(comments)[k].id == id &&
          r.value == Patched(old(comments)[k], patch, now) && comments == old(comments)[k := r.value]
    {
      var i := FindIndex(comments, (c: Comment) => c.id == id);
      if i == -1 {
        return NotFound;
      }
      var c := Patched(comments[i], patch, now);
      ReplaceKeepsIds(comments, CommentId, i, c, nextCommentId);
      comments := comments[i := c];
      r := Ok(c);
    }

    /** `DELETE /comments/:id`: splices the comment out and answers with it. */
    method Delete(id: int) returns (r: Reply<Comment>)
      requires Valid()
      modifies this
      ensures Valid()
      ensures nextCommentId == old(nextCommentId)
      ensures r.Ok? || r == NotFound
      ensures r == NotFound <==> !HasKey(old(comments), CommentId, id)
      ensures r == NotFound ==> comments == old(comments)
      ensures r.Ok? ==> r.value.id == id && !HasKey(comments, CommentId, id)
      ensures r.Ok? ==>
        exists k :: 0 <= k < |old(comments)| && old(comments)[k] == r.value &&
          comments == RemoveAt(old(comments), k)
    {
      var i := FindIndex(comments, (c: Comment) => c.id == id);
      if i == -1 {
        return NotFound;
      }
      r := Ok(comments[i]);
      RemoveAtKeepsIds(comments, CommentId, i, nextCommentId);
      comments := RemoveAt(comments, i);
    }
  }
}
