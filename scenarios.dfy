/**
 * Clients of the stores: request sequences whose outcome the handlers
 * promise, checked against the stores' contracts alone.
 */
module Scenarios {
  import opened Wire
  import Posts
  import Comments
  import Profiles
  import Auth

  /** Create a post, comment on it, delete the post: no comment is left. */
  method CascadeLeavesNoComments(now: Timestamp) returns (deleted: Reply<Posts.Post>, left: seq<Comments.Comment>)
    ensures deleted.Ok? && deleted.value.id == 1
    ensures left == []
  {
    var posts := new Posts.PostStore();
    var comments := new Comments.CommentStore();
    var p := posts.Create(Posts.PostBody(Given("A"), Given("T")), now);
    var c := comments.Create(Comments.NewComment(Given(p.value.id), Given("B"), Absent, Given("C")), now);
    assert posts.posts[0].id == 1;
    deleted := posts.Delete(p.value.id, comments);
    left := comments.List();
  }

  /** A post created after a delete gets the next id, not the freed one. */
  method IdsAreNotReused(now: Timestamp) returns (first: int, second: int)
    ensures first == 1 && second == 2
  {
    var posts := new Posts.PostStore();
    var comments := new Comments.CommentStore();
    var p := posts.Create(Posts.PostBody(Given("A"), Given("T")), now);
    first := p.value.id;
    var d := posts.Delete(first, comments);
    var q := posts.Create(Posts.PostBody(Given("A"), Given("T")), now);
    second := q.value.id;
  }

  /** Updating only the text keeps the author and refreshes `updated_at`. */
  method PartialUpdate(created: Timestamp, later: Timestamp) returns (r: Reply<Posts.Post>)
    ensures r == Ok(Posts.Post(1, "A", "T2", created, later))
  {
    var posts := new Posts.PostStore();
    var p := posts.Create(Posts.PostBody(Given("A"), Given("T")), created);
    assert posts.posts[0].id == 1;
    r := posts.Update(1, Posts.PostBody(Absent, Given("T2")), later);
  }

  /** Deleting an id that was never issued is not-found in all three record stores. */
  method DeleteUnknownId() returns (a: Reply<Posts.Post>, b: Reply<Comments.Comment>, c: Reply<Profiles.Profile>)
    ensures a == NotFound && b == NotFound && c == NotFound
  {
    var posts := new Posts.PostStore();
    var comments := new Comments.CommentStore();
    var profiles := new Profiles.ProfileStore();
    a := posts.Delete(9999, comments);
    b := comments.Delete(9999);
    c := profiles.Delete(9999);
  }

  /** A comment may name a post that does not exist: creation does not look at the post store. */
  method CommentOnMissingPost(now: Timestamp) returns (r: Reply<Comments.Comment>)
    ensures r.Ok? && r.value.postId == 42 && r.value.likes == 0 && r.value.authorAvatar == None
  {
    var comments := new Comments.CommentStore();
    r := comments.Create(Comments.NewComment(Given(42), Given("B"), Absent, Given("C")), now);
  }

  /**
   * A second profile with a taken username is refused, renaming another
   * profile onto it is refused, and re-sending a profile's own username succeeds.
   */
  method ProfileUsernames(now: Timestamp) returns (second: Reply<Profiles.Profile>, rename: Reply<Profiles.Profile>, same: Reply<Profiles.Profile>)
    ensures second == Conflict && rename == Conflict
    ensures same.Ok? && same.value.username == "alice"
  {
    var profiles := new Profiles.ProfileStore();
    var a := profiles.Create(Profiles.ProfileBody(Given(1), Given("alice"), Absent, Absent), now);
    assert profiles.profiles[0].username == "alice";
    second := profiles.Create(Profiles.ProfileBody(Given(2), Given("alice"), Absent, Absent), now);
    var b := profiles.Create(Profiles.ProfileBody(Given(3), Given("bob"), Absent, Absent), now);
    assert profiles.profiles[0].username == "alice" && profiles.profiles[1].id == b.value.id;
    rename := profiles.Update(b.value.id, Profiles.ProfileBody(Absent, Given("alice"), Absent, Absent), now);
    assert profiles.profiles[0].id == a.value.id;
    same := profiles.Update(a.value.id, Profiles.ProfileBody(Absent, Given("alice"), Absent, Absent), now);
  }

  /** Renaming a profile to `""` skips the uniqueness check, so two profiles can both be named `""`. */
  method EmptyUsernameTwice(now: Timestamp) returns (names: seq<string>)
    ensures names == ["", ""]
  {
    var profiles := new Profiles.ProfileStore();
    var a := profiles.Create(Profiles.ProfileBody(Given(1), Given("a"), Absent, Absent), now);
    var b := profiles.Create(Profiles.ProfileBody(Given(2), Given(""), Absent, Absent), now);
    var u := profiles.Update(a.value.id, Profiles.ProfileBody(Absent, Given(""), Absent, Absent), now);
    var all := profiles.List();
    names := [all[0].username, all[1].username];
  }

  /** With no seed settings in the environment, `test`/`test` logs in and a wrong password does not. */
  method SeedLogin(now: Timestamp) returns (good: Reply<string>, bad: Reply<string>)
    ensures good == Ok("test") && bad == Unauthorized
  {
    var users := new Auth.UserStore(None, None, now);
    assert users.users[0].username == "test" && users.users[0].password == "test";
    good := users.Login(Auth.Credentials(Given("test"), Given("test")));
    bad := users.Login(Auth.Credentials(Given("test"), Given("wrong")));
  }

  /** Registering the seed username again is a conflict; a new username gets id 2. */
  method RegisterAfterSeed(now: Timestamp) returns (dup: Reply<Auth.Account>, added: Reply<Auth.Account>)
    ensures dup == Conflict && added == Ok(Auth.Account(2, "bob"))
  {
    var users := new Auth.UserStore(None, None, now);
    assert users.users[0].username == "test";
    dup := users.Register(Auth.Credentials(Given("test"), Given("x")), now);
    added := users.Register(Auth.Credentials(Given("bob"), Given("pw")), now);
  }
}
