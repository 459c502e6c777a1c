# T-NEWS record stores, modelled in Dafny

The T-NEWS backend is a small social-feed server. It keeps four in-memory
record stores, each a module-level array with its own private id counter, and
its HTTP handlers read and change them in place:

- **posts** (`back/src/routes/posts.ts`): list, get, create, partial update, delete.
  Deleting a post cascades into the comment store.
- **comments** (`back/src/routes/comments.ts`): the same operations, plus
  `deleteCommentsByPost`, the bulk removal that cascade uses.
- **profiles** (`back/src/routes/profiles.ts`): the same operations. A profile's
  username may not already be held by another profile, on create and on update.
- **users** (`back/src/routes/auth.ts`): a seed account inserted when the module
  loads, `/register` with unique usernames, and `/login` by exact, plaintext
  comparison of username and password.

Each store is a Dafny class with the array as a `seq` field and the counter
as an `int` field. Its handlers are methods that change those fields and
answer with a `Reply`: `Ok(record)`, `BadRequest` (400), `NotFound` (404),
`Conflict` (409) or `Unauthorized` (401). The object invariant `Valid()` holds
before and after every handler. It says that ids strictly increase along the
array and that every id lies in `[1, counter)`. For profiles it adds that no two
profiles share a non-empty username. For users it adds that no two users share
a username.

Every handler either leaves the counter alone or raises it by exactly one, and
only a reset lowers it. Every id issued since the last reset is therefore below
the counter. A new record takes the counter's value, so its id exceeds every id
issued since the last reset, including the ids of records deleted since.

Files:

- `wire.dfy`: request-body keys that may be absent (`Field`), nullable fields
  (`Option`), JavaScript truthiness of strings, and `Reply`.
- `seqs.dfy`: `findIndex`/`find`/`some` as one loop, `splice(i, 1)`, and the id
  discipline with the lemmas that `push`, `splice`, in-place replacement and
  filtering keep it.
- `comments.dfy`, `posts.dfy`, `profiles.dfy`, `auth.dfy`: one module and one
  class per store. The post store's `Delete` takes the comment store as an
  argument, so the cascade is part of its contract.
- `scenarios.dfy`: request sequences issued against fresh stores, whose
  outcomes are proved from the stores' contracts alone.

Modelling choices:

- A body key the client did not send (`undefined`) is `Absent`. A sent key is
  `Given(v)`. A nullable record field (`string | null`) is an `Option<string>`.
- The path id is an `int`. `parseInt` of a non-numeric id gives `NaN`, which
  equals no id, so it behaves like any id that is not in the store.
- `new Date().toISOString()` is the `now` parameter of each handler.
- `SEED_USER`/`SEED_PASS` are the `Option<string>` parameters of the user
  store's constructor. `SeedSetting` applies `|| 'test'` to them.

## Model

| member | source | states |
|---|---|---|
| Wire.Field.Or | back/src/routes/posts.ts:89-94 | `x !== undefined ? x : current`: the current value when the key was not sent, the sent value otherwise. |
| Wire.Truthy | back/src/routes/posts.ts:48 | `!x` for a string body key: falsy exactly when the key is `undefined` or the empty string. |
| Wire.OrNull | back/src/routes/comments.ts:63 | `x ?? null`: `null` when the key was not sent, the sent value (which may itself be `null`) otherwise. |
| Seqs.FindIndex | back/src/routes/posts.ts:79 | `findIndex`: returns -1 exactly when no element satisfies the predicate. Otherwise it returns the first index whose element satisfies it. |
| Seqs.RemoveAt | back/src/routes/posts.ts:116 | `splice(i, 1)`: one element fewer. Elements before `i` stay in place, later ones shift down by one, and the multiset loses exactly the removed element. |
| Seqs.IncreasingKeyUnique | back/src/routes/posts.ts:56 | In an array whose ids strictly increase, an id occurs at one position at most. |
| Seqs.PushKeepsIds | back/src/routes/posts.ts:55-63 | Appending a record whose id is the counter keeps ids strictly increasing and inside `[1, counter + 1)`. |
| Seqs.RemoveAtKeepsIds | back/src/routes/posts.ts:116 | Splicing one record out keeps the id discipline, and no remaining record has the removed id. |
| Seqs.ReplaceKeepsIds | back/src/routes/posts.ts:86-96 | Replacing a record in place by one with the same id keeps the id discipline. |
| Comments.WithoutPost | back/src/routes/comments.ts:11-13 | The filter keeps a comment if and only if its `post_id` differs from the argument, and it never adds a comment. |
| Comments.WithoutPostKeepsIds | back/src/routes/comments.ts:12 | Filtering keeps ids strictly increasing and inside `[1, counter)`, so the original order survives. |
| Comments.WithoutPostIdempotent | back/src/routes/comments.ts:11-13 | Removing a post's comments a second time changes nothing. |
| Comments.WithoutPostNoMatch | back/src/routes/comments.ts:11-13 | When no comment is on the post, the filter returns the array unchanged. |
| Comments.Acceptable | back/src/routes/comments.ts:52 | The negation of the 400 test: holding implies `post_id`, `author_name` and `text` were sent; an empty `author_name` or `text` fails it; sent `post_id` and non-empty strings pass it. |
| Comments.Patched | back/src/routes/comments.ts:94-99 | The record after the field-by-field writes of a `PUT`: keeps `id`, `post_id` and `created_at`, and `updated_at` is `now`. |
| Comments.PatchedKeepsUnsent | back/src/routes/comments.ts:91-99 | A `PUT` never changes a comment's `id`, `post_id` or `created_at`, sets `updated_at` to `now`, and keeps each of `author_name`, `author_avatar`, `text` and `likes` whose key was not sent. |
| Comments.PatchedTakesSent | back/src/routes/comments.ts:94-97 | Each of `author_name`, `author_avatar`, `text` and `likes` that was sent takes exactly the sent value. |
| Comments.PatchedIdempotent | back/src/routes/comments.ts:94-99 | Applying the same `PUT` twice with the same clock gives the same record as applying it once. |
| Comments.CommentStore.constructor | back/src/routes/comments.ts:5-6 | The store starts empty with counter 1. |
| Comments.CommentStore.Reset | back/src/routes/comments.ts:16-19 | `_resetComments` empties the store and sets the counter back to 1. |
| Comments.CommentStore.DeleteByPost | back/src/routes/comments.ts:11-13 | The store becomes exactly the comments whose `post_id` differs, in order. No comment on the post remains, and the counter is unchanged. |
| Comments.CommentStore.List | back/src/routes/comments.ts:23-25 | Returns the whole array in insertion order. |
| Comments.CommentStore.Get | back/src/routes/comments.ts:34-39 | Returns not-found if and only if no comment has the id. Otherwise it returns a stored comment with that id. |
| Comments.CommentStore.Create | back/src/routes/comments.ts:50-71 | Bad request, with the store unchanged, exactly when `author_name` or `text` is falsy or `post_id` is missing. The referenced post is not checked. Otherwise: id = old counter, counter + 1, `likes` 0, avatar `?? null`, `created_at == updated_at == now`, appended. |
| Comments.CommentStore.Update | back/src/routes/comments.ts:85-101 | Not-found, with the store unchanged, if and only if the id is absent. Otherwise only that comment is replaced: sent fields replace old ones and `updated_at` is refreshed. Length and counter are unchanged. |
| Comments.CommentStore.Delete | back/src/routes/comments.ts:112-118 | Not-found, with no change, if and only if the id is absent. Otherwise the matching comment is spliced out and returned, the rest keep their order, and no comment with that id remains. |
| Posts.Acceptable | back/src/routes/posts.ts:48 | The negation of the 400 test: holding implies both keys were sent; an empty one fails it; two non-empty strings pass it. |
| Posts.Patched | back/src/routes/posts.ts:88-96 | The record after the field-by-field writes of a `PUT`: keeps `id` and `created_at`, and `updated_at` is `now`. |
| Posts.PatchedKeepsUnsent | back/src/routes/posts.ts:88-96 | A `PUT` keeps `id` and `created_at`, refreshes `updated_at`, and keeps every field that was not sent. |
| Posts.PatchedTakesSent | back/src/routes/posts.ts:89-94 | `author_name` and `text`, when sent, take exactly the sent value. |
| Posts.PatchedIdempotent | back/src/routes/posts.ts:88-96 | Applying the same `PUT` twice with the same clock gives the same record as applying it once. |
| Posts.PostStore.constructor | back/src/routes/posts.ts:6-7 | The store starts empty with counter 1. |
| Posts.PostStore.Reset | back/src/routes/posts.ts:10-13 | `_resetPosts` empties the store and sets the counter back to 1. |
| Posts.PostStore.List | back/src/routes/posts.ts:17-19 | Returns the whole array in insertion order. |
| Posts.PostStore.Get | back/src/routes/posts.ts:28-35 | Returns not-found if and only if no post has the id. Otherwise it returns a stored post with that id. |
| Posts.PostStore.Create | back/src/routes/posts.ts:46-64 | Bad request, with the store unchanged, exactly when `author_name` or `text` is missing or empty. Otherwise: id = old counter (above every stored id), counter + 1, `created_at == updated_at`, appended at the end. |
| Posts.PostStore.Update | back/src/routes/posts.ts:78-98 | Not-found, with no change, if and only if the id is absent. Otherwise only that post is replaced, by the patched record. Every other post, the length and the counter are unchanged. |
| Posts.PostStore.Delete | back/src/routes/posts.ts:109-119 | Not-found, with neither store changed, if and only if the id is absent. Otherwise exactly that post is spliced out and returned. The comment store becomes the comments not on it, so none points at it. Both counters are unchanged. |
| Profiles.UpdateConflicts | back/src/routes/profiles.ts:92-94 | The update's 409 test: it holds if and only if the sent username is truthy, differs from the profile's current one, and some stored profile holds it. |
| Profiles.Patched | back/src/routes/profiles.ts:100-113 | The record after the field-by-field writes of a `PUT`: keeps `id` and `created_at`, and `updated_at` is `now`. |
| Profiles.PatchedKeepsUnsent | back/src/routes/profiles.ts:100-113 | A `PUT` keeps `id` and `created_at`, refreshes `updated_at`, and keeps every field whose key was not sent. |
| Profiles.PatchedTakesSent | back/src/routes/profiles.ts:100-111 | Each of `user_id`, `username`, `description` and `photo` that was sent takes exactly the sent value, `null` and `""` included. |
| Profiles.OwnUsernameNeverConflicts | back/src/routes/profiles.ts:92-97 | Re-sending a profile's own username never triggers the conflict test. |
| Profiles.PushKeepsUsernamesDistinct | back/src/routes/profiles.ts:52-67 | Appending a profile whose username nobody holds keeps non-empty usernames distinct. |
| Profiles.PatchKeepsUsernamesDistinct | back/src/routes/profiles.ts:92-113 | An update that passes the conflict test keeps non-empty usernames distinct. |
| Profiles.RemoveKeepsUsernamesDistinct | back/src/routes/profiles.ts:132 | Splicing a profile out keeps non-empty usernames distinct. |
| Profiles.EmptyUsernameCanRepeat | back/src/routes/profiles.ts:92-105 | From distinct usernames, an update to `""` passes the conflict test and leaves two profiles named `""`. So the invariant cannot cover the empty name. |
| Profiles.ProfileStore.constructor | back/src/routes/profiles.ts:5-6 | The store starts empty with counter 1. |
| Profiles.ProfileStore.Reset | back/src/routes/profiles.ts:9-12 | `_resetProfiles` empties the store and sets the counter back to 1. |
| Profiles.ProfileStore.List | back/src/routes/profiles.ts:16-18 | Returns the whole array in insertion order. |
| Profiles.ProfileStore.Get | back/src/routes/profiles.ts:27-35 | Returns not-found if and only if no profile has the id. Otherwise it returns a stored profile with that id. |
| Profiles.ProfileStore.IsTaken | back/src/routes/profiles.ts:52 | The `some` scan returns true if and only if some profile holds the username. |
| Profiles.ProfileStore.Create | back/src/routes/profiles.ts:45-68 | Bad request exactly when `user_id` or `username` is missing; an empty username is accepted. Conflict exactly when some profile holds the username. Both leave the store unchanged. Otherwise: id = old counter, counter + 1, `description`/`photo` `?? null`, `created_at == updated_at`, appended. |
| Profiles.ProfileStore.Update | back/src/routes/profiles.ts:82-114 | Not-found if and only if the id is absent. Conflict if and only if the sent username is truthy, differs from the current one and is held by some profile. Neither changes anything. Otherwise only that profile is patched. |
| Profiles.ProfileStore.Delete | back/src/routes/profiles.ts:125-133 | Not-found, with no change, if and only if the id is absent. Otherwise exactly that profile is spliced out and returned, and no profile with that id remains. |
| Auth.SeedSetting | back/src/routes/auth.ts:16-17 | The environment value when it is set and non-empty, otherwise `test`. The result is never empty. |
| Auth.Authenticates | back/src/routes/auth.ts:70 | The `find` of login succeeds if and only if some stored user's username and password equal the sent ones; it never succeeds when either key is missing. |
| Auth.PushKeepsUsernamesUnique | back/src/routes/auth.ts:44-56 | Appending a user under a username nobody holds keeps usernames unique. |
| Auth.AuthenticatesSingleUser | back/src/routes/auth.ts:70 | With unique usernames, at most one stored user can match a login. |
| Auth.UserStore.constructor | back/src/routes/auth.ts:5-25 | On load, the empty store with counter 1 receives the seed user as id 1, and the counter becomes 2. |
| Auth.UserStore.Reset | back/src/routes/auth.ts:9-12 | `_resetUsers` empties the store, sets the counter back to 1, and does not seed again. |
| Auth.UserStore.IsRegistered | back/src/routes/auth.ts:44 | The `find` by username succeeds if and only if some user holds the username. |
| Auth.UserStore.Seed | back/src/routes/auth.ts:18-25 | Inserts the seed user, with the next id, exactly when no user holds the seed username. Otherwise nothing changes. |
| Auth.UserStore.Register | back/src/routes/auth.ts:37-57 | Bad request exactly when `username` or `password` is falsy. Conflict exactly when the username is taken. Both leave the store unchanged. Otherwise: next id, counter + 1, appended. The answer holds only id and username. |
| Auth.UserStore.Login | back/src/routes/auth.ts:68-77 | Succeeds if and only if some stored user has exactly the sent username and password. The cookie value is the sent username. The store is only read. |
| Scenarios.CascadeLeavesNoComments | back/src/routes/posts.ts:116-118 | Create post 1, comment on it, delete the post: the delete succeeds and the comment store is empty. |
| Scenarios.IdsAreNotReused | back/src/routes/posts.ts:56 | Create, delete, create: the second post gets id 2, not the freed id 1. |
| Scenarios.PartialUpdate | back/src/routes/posts.ts:85-96 | Updating only `text` keeps `author_name` and `created_at` and sets `updated_at` to the new clock. |
| Scenarios.DeleteUnknownId | back/src/routes/posts.ts:110-114 | Deleting id 9999 from empty stores is not-found for posts, comments and profiles. |
| Scenarios.CommentOnMissingPost | back/src/routes/comments.ts:52-71 | A comment on a post id that does not exist is created, with `likes` 0 and a null avatar. |
| Scenarios.ProfileUsernames | back/src/routes/profiles.ts:52-54 | A second profile named `alice` is a conflict. Renaming `bob` to `alice` is a conflict. Re-sending `alice` for `alice` succeeds. |
| Scenarios.EmptyUsernameTwice | back/src/routes/profiles.ts:92-105 | Creating `a` and `""`, then renaming `a` to `""`, leaves two profiles named `""`. |
| Scenarios.SeedLogin | back/src/routes/auth.ts:16-25 | With no seed settings, `test`/`test` logs in and `test`/`wrong` is unauthorized. |
| Scenarios.RegisterAfterSeed | back/src/routes/auth.ts:44-57 | Registering the seed username again is a conflict. A new username gets id 2. |

## Left out

- HTTP wiring: routes, reply and status plumbing, CORS, static files and the server entry point (`back/src/server.ts`). Handlers answer with `Reply` instead.
- Cookie signing and unsigning, and `GET /hello`. They are calls into `@fastify/cookie`, whose code is not part of this model. `Login` returns the username the cookie would carry.
- `parseInt` of the path parameter. The id is an `int`, and the `NaN` of a non-numeric id is covered by "no record has this id".
- Wall-clock time. `now` is a parameter, and nothing is claimed about its order, so `updated_at > created_at` is not stated.
- Reading `PORT`, `COOKIE_SECRET`, `SEED_USER` and `SEED_PASS` from the environment. The two seed values are constructor parameters.
- JSON values of the wrong type, such as `null` or a number where a string is declared, and a request without a body. The model takes each body key as either absent or of its declared type.
- Numbers are unbounded integers. JavaScript's doubles, with their precision limit above 2^53, are not modelled, and neither are fractional `likes`.
- Object identity. The source hands out references to the stored objects, and a later `PUT` mutates the very object an earlier response returned. The model stores record values and replaces the record at its index, so the final state is the same but aliasing is not captured.
- Resets break id non-reuse. After `_reset*` the counter is 1 again, which is the source's behaviour for tests.
- The front-end scripts (DOM rendering, `fetch`, alerts) and the type declarations in `back/src/types`. The latter appear here as datatypes.
