/**
 * The profile store: the module-level `profiles` array and its counter
 * `nextProfileId`, the CRUD handlers over them, and the rule that a
 * profile's username is not already held by another profile.
 */
module Profiles {
  import opened Wire
  import opened Seqs

  datatype Profile = Profile(
    id: int,
    userId: int,
    username: string,
    description: Option<string>,
    photo: Option<string>,
    createdAt: Timestamp,
    updatedAt: Timestamp)

  function ProfileId(p: Profile): int { p.id }

  /** Body of `POST /profiles` and of `PUT /profiles/:id`. */
  datatype ProfileBody = ProfileBody(
    userId: Field<int>,
    username: Field<string>,
    description: Field<Option<string>>,
    photo: Field<Option<string>>)

  /** `profiles.some(p => p.username === name)`. */
  predicate Taken(s: seq<Profile>, name: string)
  {
    exists i :: 0 <= i < |s| && s[i].username == name
  }

  /**
   * The invariant the uniqueness checks keep: two different profiles never
   * share a non-empty username. The empty username is exempt, because an
   * update to `""` is applied without the check.
   */
  predicate UsernamesDistinct(s: seq<Profile>)
  {
    forall i, j :: 0 <= i < |s| && 0 <= j < |s| && i != j && s[i].username == s[j].username ==>
      s[i].username == ""
  }

  /**
   * The update handler's conflict test: the sent username is truthy, differs
   * from the profile's current one, and some profile already holds it.
   */
  predicate UpdateConflicts(s: seq<Profile>, current: Profile, username: Field<string>): (b: bool)
    ensures b ==> username.Given? && username.value != "" && username.value != current.username
    ensures b <==>
      (username.Given? && username.value != "" && username.value != current.username &&
       exists q :: q in s && q.username == username.value)
  {
    Truthy(username) && username.value != current.username && Taken(s, username.value)
  }

  /** A profile record after a `PUT`: every sent key replaces its field, `updated_at` becomes `now`. */
  function Patched(p: Profile, body: ProfileBody, now: Timestamp): (r: Profile)
    ensures r.id == p.id && r.createdAt == p.createdAt && r.updatedAt == now
  {
    p.(userId := body.userId.Or(p.userId),
       username := body.username.Or(p.username),
       description := body.description.Or(p.description),
       photo := body.photo.Or(p.photo),
       updatedAt := now)
  }

  /** A `PUT` keeps the id and the creation time, refreshes `updated_at`, and keeps every field it was not sent. */
  lemma PatchedKeepsUnsent(p: Profile, body: ProfileBody, now: Timestamp)
    ensures var r := Patched(p, body, now);
      r.id == p.id && r.createdAt == p.createdAt && r.updatedAt == now &&
      (body.userId.Absent? ==> r.userId == p.userId) &&
      (body.username.Absent? ==> r.username == p.username) &&
      (body.description.Absent? ==> r.description == p.description) &&
      (body.photo.Absent? ==> r.photo == p.photo)
  {
  }

  /** A `PUT` writes every sent field with exactly the sent value, `null` included. */
  lemma PatchedTakesSent(p: Profile, body: ProfileBody, now: Timestamp)
    ensures var r := Patched(p, body, now);
      (body.userId.Given? ==> r.userId == body.userId.value) &&
      (body.username.Given? ==> r.username == body.username.value) &&
      (body.description.Given? ==> r.description == body.description.value) &&
      (body.photo.Given? ==> r.photo == body.photo.value)
  {
  }

  /** Re-sending a profile's own username is never a conflict. */
  lemma OwnUsernameNeverConflicts(s: seq<Profile>, p: Profile)
    ensures !UpdateConflicts(s, p, Given(p.username))
  {
  }

  /** Appending a profile whose username nobody holds keeps usernames distinct. */
  lemma PushKeepsUsernamesDistinct(s: seq<Profile>, p: Profile)
    requires UsernamesDistinct(s) && !Taken(s, p.username)
    ensures UsernamesDistinct(s + [p])
  {
  }

  /** An update the conflict test lets through keeps usernames distinct. */
  lemma PatchKeepsUsernamesDistinct(s: seq<Profile>, k: nat, body: ProfileBody, now: Timestamp)
    requires k < |s| && UsernamesDistinct(s)
    requires !UpdateConflicts(s, s[k], body.username)
    ensures UsernamesDistinct(s[k := Patched(s[k], body, now)])
  {
  }

  /** Splicing a profile out keeps usernames distinct. */
  lemma RemoveKeepsUsernamesDistinct(s: seq<Profile>, k: nat)
    requires k < |s| && UsernamesDistinct(s)
    ensures UsernamesDistinct(RemoveAt(s, k))
  {
  }

  /**
   * The exemption is needed: from a state whose usernames are distinct, an
   * update to `""` passes the conflict test and leaves two profiles named `""`.
   */
  lemma EmptyUsernameCanRepeat(now: Timestamp)
    ensures var s := [Profile(1, 1, "a", None, None, now, now), Profile(2, 2, "", None, None, now, now)];
      var body := ProfileBody(Absent, Given(""), Absent, Absent);
      UsernamesDistinct(s) && !UpdateConflicts(s, s[0], body.username) &&
      Patched(s[0], body, now).username == s[1].username
  {
  }

  class ProfileStore {
    var profiles: seq<Profile>
    var nextProfileId: int

    /** Ids strictly increase and were issued by the counter; non-empty usernames are distinct. */
    ghost predicate Valid()
      reads this
    {
      1 <= nextProfileId &&
      Increasing(profiles, ProfileId) && Within(profiles, ProfileId, 1, nextProfileId) &&
      UsernamesDistinct(profiles)
    }

    /** Module initialisation: `let profiles = []`, `let nextProfileId = 1`. */
    constructor ()
      ensures Valid()
      ensures profiles == [] && nextProfileId == 1
    {
      profiles := [];
      nextProfileId := 1;
    }

    /** `_resetProfiles`. */
    method Reset()
      modifies this
      ensures Valid()
      ensures profiles == [] && nextProfileId == 1
    {
      profiles := [];
      nextProfileId := 1;
    }

    /** `GET /profiles`. */
    method List() returns (r: seq<Profile>)
      ensures r == profiles
    {
      r := profiles;
    }

    /** `GET /profiles/:id`: the first profile with that id, or not-found. */
    method Get(id: int) returns (r: Reply<Profile>)
      ensures r.Ok? || r == NotFound
      ensures r == NotFound <==> !HasKey(profiles, ProfileId, id)
      ensures r.Ok? ==> r.value in profiles && r.value.id == id
    {
      var i := FindIndex(profiles, (p: Profile) => p.id == id);
      if i == -1 {
        r := NotFound;
      } else {
        r := Ok(profiles[i]);
      }
    }

    /** The `some` scan of both handlers: whether any profile holds `name`. */
    method IsTaken(name: string) returns (b: bool)
      ensures b == Taken(profiles, name)
    {
      var i := FindIndex(profiles, (p: Profile) => p.username == name);
      b := i != -1;
    }

    /**
     * `POST /profiles`: 400 when `user_id` or `username` was not sent (an
     * empty username is sent), 409 when a profile holds the username,
     * otherwise a new profile with the counter's id, appended.
     */
    method Create(body: ProfileBody, now: Timestamp) returns (r: Reply<Profile>)
      requires Valid()
      modifies this
      ensures Valid()
      ensures r.Ok? || r == BadRequest || r == Conflict
      ensures r == BadRequest <==> body.userId.Absent? || body.username.Absent?
      ensures r == Conflict <==> body.userId.Given? && body.username.Given? && Taken(old(profiles), body.username.value)
      ensures !r.Ok? ==> profiles == old(profiles) && nextProfileId == old(nextProfileId)
      ensures r.Ok? ==>
        r.value == Profile(old(nextProfileId), body.userId.value, body.username.value,
                           OrNull(body.description), OrNull(body.photo), now, now) &&
        profiles == old(profiles) + [r.value] &&
        nextProfileId == old(nextProfileId) + 1
    {
      if body.userId.Absent? || body.username.Absent? {
        return BadRequest;
      }
      var taken := IsTaken(body.username.value);
      if taken {
        return Conflict;
      }
      var p := Profile(nextProfileId, body.userId.value, body.username.value,
                       OrNull(body.description), OrNull(body.photo), now, now);
      PushKeepsIds(profiles, ProfileId, p, nextProfileId);
      PushKeepsUsernamesDistinct(profiles, p);
      nextProfileId := nextProfileId + 1;
      profiles := profiles + [p];
      r := Ok(p);
    }

    /**
     * `PUT /profiles/:id`: 404 for an unknown id, 409 when the conflict test
     * fires, otherwise the sent fields are written into the profile in place.
     */
    method Update(id: int, body: ProfileBody, now: Timestamp) returns (r: Reply<Profile>)
      requires Valid()
      modifies this
      ensures Valid()
      ensures nextProfileId == old(nextProfileId)
      ensures r.Ok? || r == NotFound || r == Conflict
      ensures r == NotFound <==> !HasKey(old(profiles), ProfileId, id)
      ensures r == Conflict <==>
        exists k :: 0 <= k < |old(profiles)| && old(profiles)[k].id == id &&
          UpdateConflicts(old(profiles), old(profiles)[k], body.username)
      ensures !r.Ok? ==> profiles == old(profiles)
      ensures r.Ok? ==>
        exists k :: 0 <= k < |old(profiles)| && old(profiles)[k].id == id &&
          r.value == Patched(old(profiles)[k], body, now) && profiles == old(profiles)[k := r.value]
    {
      var i := FindIndex(profiles, (p: Profile) => p.id == id);
      if i == -1 {
        return NotFound;
      }
      var existing := profiles[i];
      forall k | 0 <= k < |profiles| && profiles[k].id == id
        ensures k == i
      {
        IncreasingKeyUnique(profiles, ProfileId, k, i);
      }
      if Truthy(body.username) && body.username.value != existing.username {
        var taken := IsTaken(body.username.value);
        if taken {
          return Conflict;
        }
      }
      var p := Patched(existing, body, now);
      ReplaceKeepsIds(profiles, ProfileId, i, p, nextProfileId);
      PatchKeepsUsernamesDistinct(profiles, i, body, now);
      profiles := profiles[i := p];
      r := Ok(p);
    }

    /** `DELETE /profiles/:id`: splices the profile out and answers with it. */
    method Delete(id: int) returns (r: Reply<Profile>)
      requires Valid()
      modifies this
      ensures Valid()
      ensures nextProfileId == old(nextProfileId)
      ensures r.Ok? || r == NotFound
      ensures r == NotFound <==> !HasKey(old(profiles), ProfileId, id)
      ensures r == NotFound ==> profiles == old(profiles)
      ensures r.Ok? ==> r.value.id == id && !HasKey(profiles, ProfileId, id)
      ensures r.Ok? ==>
        exists k :: 0 <= k < |old(profiles)| && old(profiles)[k] == r.value &&
          profiles == RemoveAt(old(profiles), k)
    {
      var i := FindIndex(profiles, (p: Profile) => p.id == id);
      if i == -1 {
        return NotFound;
      }
      r := Ok(profiles[i]);
      RemoveAtKeepsIds(profiles, ProfileId, i, nextProfileId);
      RemoveKeepsUsernamesDistinct(profiles, i);
      profiles := RemoveAt(profiles, i);
    }
  }
}
