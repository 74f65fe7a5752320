/**
 The in-memory user tracker: a map from phone number to that user's profile
 record. A profile record is a dict; `add_user` creates it with four default
 fields and `update_user_info` merges keyword arguments into it, so later
 records may hold further keys.
 */
module UserTracking {
  import opened Results
  import opened JsonValues

  type PhoneNumber = string

  /** One user's profile record, a dict of field name to value. */
  type Profile = Dict

  datatype UserTracker = UserTracker(users: map<PhoneNumber, Profile>)

  /** The record `add_user` creates: nothing chosen yet, no attractions. */
  const DefaultProfile: Profile := map[
    "last_location" := JNull,
    "last_attraction_type" := JNull,
    "attractions" := JArray([]),
    "last_sent_attraction" := JNull
  ]

  /** Every record carries at least the fields of the default record. */
  ghost predicate WellFormed(t: UserTracker) {
    forall p :: p in t.users ==> DefaultProfile.Keys <= t.users[p].Keys
  }

  /** Every user other than `p` keeps its record. */
  ghost predicate SameElsewhere(t: UserTracker, t': UserTracker, p: PhoneNumber) {
    forall q :: q != p && q in t.users ==> q in t'.users && t'.users[q] == t.users[q]
  }

  /**
   Keyword arguments Python can bind to `**kwargs`: a keyword that names one
   of the method's own parameters is rejected before the body runs.
   */
  predicate BindableKeywords(updates: Dict) {
    "self" !in updates && "phone_number" !in updates
  }

  /** A freshly constructed tracker. */
  function NewTracker(): (t: UserTracker)
    ensures forall p :: GetUserInfo(t, p) == None
    ensures WellFormed(t)
  {
    UserTracker(map[])
  }

  /** Registers `p` with the default record unless it is already tracked. */
  function AddUser(t: UserTracker, p: PhoneNumber): (r: UserTracker)
    ensures r.users.Keys == t.users.Keys + {p}
    ensures p in t.users ==> r == t
    ensures p !in t.users ==> r.users[p] == DefaultProfile
    ensures SameElsewhere(t, r, p)
    ensures WellFormed(t) ==> WellFormed(r)
  {
    if p in t.users then t else UserTracker(t.users[p := DefaultProfile])
  }

  /**
   Merges `updates` into the record of `p` when `p` is tracked, the way
   `dict.update` does: supplied keys take the new value, the others keep
   theirs. An unknown number is ignored.
   */
  function UpdateUserInfo(t: UserTracker, p: PhoneNumber, updates: Dict): (r: UserTracker)
    requires BindableKeywords(updates)
    ensures p !in t.users ==> r == t
    ensures r.users.Keys == t.users.Keys
    ensures p in t.users ==>
      && r.users[p].Keys == t.users[p].Keys + updates.Keys
      && (forall k :: k in updates ==> r.users[p][k] == updates[k])
      && (forall k :: k in t.users[p] && k !in updates ==> r.users[p][k] == t.users[p][k])
    ensures SameElsewhere(t, r, p)
    ensures WellFormed(t) ==> WellFormed(r)
  {
    if p in t.users then UserTracker(t.users[p := t.users[p] + updates]) else t
  }

  /** The record of `p`, or None for a number that is not tracked. */
  function GetUserInfo(t: UserTracker, p: PhoneNumber): (r: Option<Profile>)
    ensures r.Some? <==> p in t.users
    ensures r.Some? ==> r.value == t.users[p]
  {
    if p in t.users then Some(t.users[p]) else None
  }

  /** After `add_user(p)` the number is known, with its default record if it was new. */
  lemma GetAfterAdd(t: UserTracker, p: PhoneNumber)
    ensures GetUserInfo(AddUser(t, p), p).Some?
    ensures p !in t.users ==> GetUserInfo(AddUser(t, p), p) == Some(DefaultProfile)
    ensures forall q :: q != p ==> GetUserInfo(AddUser(t, p), q) == GetUserInfo(t, q)
  {
  }

  /** Adding a user twice is the same as adding it once. */
  lemma AddUserIdempotent(t: UserTracker, p: PhoneNumber)
    ensures AddUser(AddUser(t, p), p) == AddUser(t, p)
  {
  }

  /** The order in which two numbers are added does not matter. */
  lemma AddUserCommutes(t: UserTracker, p: PhoneNumber, q: PhoneNumber)
    ensures AddUser(AddUser(t, p), q) == AddUser(AddUser(t, q), p)
  {
  }

  /** Updating an unknown number does not create it. */
  lemma UpdateUnknownStaysUnknown(t: UserTracker, p: PhoneNumber, updates: Dict)
    requires BindableKeywords(updates)
    requires GetUserInfo(t, p) == None
    ensures GetUserInfo(UpdateUserInfo(t, p, updates), p) == None
  {
  }

  /** A lookup after an update sees the old record merged with the updates. */
  lemma GetAfterUpdate(t: UserTracker, p: PhoneNumber, updates: Dict)
    requires BindableKeywords(updates)
    requires p in t.users
    ensures GetUserInfo(UpdateUserInfo(t, p, updates), p) == Some(t.users[p] + updates)
  {
  }

  /** Two updates in a row merge as one update with the later values winning. */
  lemma UpdatesCompose(t: UserTracker, p: PhoneNumber, first: Dict, second: Dict)
    requires BindableKeywords(first) && BindableKeywords(second)
    ensures UpdateUserInfo(UpdateUserInfo(t, p, first), p, second)
         == UpdateUserInfo(t, p, first + second)
  {
    if p in t.users {
      var once := UpdateUserInfo(t, p, first);
      assert once.users[p] + second == t.users[p] + (first + second);
    }
  }

  /** Repeating the same update changes nothing further. */
  lemma UpdateIdempotent(t: UserTracker, p: PhoneNumber, updates: Dict)
    requires BindableKeywords(updates)
    ensures UpdateUserInfo(UpdateUserInfo(t, p, updates), p, updates)
         == UpdateUserInfo(t, p, updates)
  {
    UpdatesCompose(t, p, updates, updates);
    assert updates + updates == updates;
  }

  /** An update with no keyword arguments leaves the tracker as it was. */
  lemma EmptyUpdateIsNoop(t: UserTracker, p: PhoneNumber)
    ensures UpdateUserInfo(t, p, map[]) == t
  {
    if p in t.users {
      assert t.users[p] + map[] == t.users[p];
      assert t.users[p := t.users[p]] == t.users;
    }
  }
}
