/**
 * The users store of the administrator's dashboard: the users last
 * fetched, a loading flag and the last error message, with the getters
 * the dashboard reads and the actions that mirror each successful service
 * call in the list.
 */
module Users {
  import opened Js
  import Http
  import opened ListOps
  import opened UserService
  import Roles

  /** `user.role === role` */
  function HasRole(role: string): User -> bool {
    (u: User) => u.role == role
  }

  /** `user.id === id || user._id === id` */
  function MatchesId(id: string): User -> bool {
    (u: User) => u.id == Some(id) || u.dbId == Some(id)
  }

  /** `user.id !== id && user._id !== id` */
  function OtherId(id: string): User -> bool {
    (u: User) => u.id != Some(id) && u.dbId != Some(id)
  }

  function CreatedAt(u: User): int { u.createdAt }
  function UpdatedAt(u: User): int { u.updatedAt }

  /** `user.username.toLowerCase().includes(term) || user.role.toLowerCase().includes(term)` */
  function Mentions(term: string): User -> bool {
    (u: User) => Contains(Lower(u.username), term) || Contains(Lower(u.role), term)
  }

  /** The object getStatistics returns. */
  datatype Statistics = Statistics(
    total: nat, admins: nat, designers: nat, developers: nat, testers: nat,
    recentlyCreated: nat, recentlyUpdated: nat)

  /** The messages the actions set when the service call throws. */
  const FetchThrew: string := "Ett oväntat fel uppstod vid hämtning av användare"
  const CreateThrew: string := "Ett oväntat fel uppstod vid skapande av användare"
  const UpdateThrew: string := "Ett oväntat fel uppstod vid uppdatering av användare"
  const DeleteThrew: string := "Ett oväntat fel uppstod vid borttagning av användare"

  class UsersStore {
    var users: seq<User>
    var loading: bool
    var error: Option<string>

    constructor()
      ensures users == [] && !loading && error.None?
    {
      users := [];
      loading := false;
      error := None;
    }

    // -------------------------------------------------------------------
    // Getters

    /** adminUsers, designerUsers, developerUsers, testerUsers and
        getUsersByRole: every copy of each user of one role. */
    function RoleUsers(role: string): (r: seq<User>)
      reads this
      ensures forall u :: u in r <==> u in users && u.role == role
      ensures forall u :: multiset(r)[u] == if u.role == role then multiset(users)[u] else 0
      ensures |r| == Count(users, HasRole(role))
    {
      FilterLength(users, HasRole(role));
      FilterMultisets(users, HasRole(role));
      Filter(users, HasRole(role))
    }

    /** getUserById: the first user whose `id` or `_id` is `id`. */
    function GetUserById(id: string): (r: Option<User>)
      reads this
      ensures r.None? <==> forall j :: 0 <= j < |users| ==> users[j].id != Some(id) && users[j].dbId != Some(id)
      ensures r.Some? ==> exists i :: 0 <= i < |users| && users[i] == r.value &&
                                (users[i].id == Some(id) || users[i].dbId == Some(id)) &&
                                forall j :: 0 <= j < i ==> users[j].id != Some(id) && users[j].dbId != Some(id)
    {
      Find(users, MatchesId(id))
    }

    /** getUserByUsername: the first user with exactly that username. */
    function GetUserByUsername(username: string): (r: Option<User>)
      reads this
      ensures r.None? <==> forall j :: 0 <= j < |users| ==> users[j].username != username
      ensures r.Some? ==> exists i :: 0 <= i < |users| && users[i] == r.value && users[i].username == username &&
                                forall j :: 0 <= j < i ==> users[j].username != username
    {
      Find(users, (u: User) => u.username == username)
    }

    /** recentlyCreatedUsers: the ten newest users, newest first. */
    function RecentlyCreated(): (r: seq<User>)
      reads this
      ensures |r| == Min(10, |users|)
      ensures SortedDesc(r, CreatedAt) && multiset(r) <= multiset(users)
      ensures forall x, y :: x in multiset(users) - multiset(r) && y in r ==> CreatedAt(x) <= CreatedAt(y)
    {
      Top(users, CreatedAt, 10)
    }

    /** recentlyUpdatedUsers: the ten most recently updated users, latest
        first. */
    function RecentlyUpdated(): (r: seq<User>)
      reads this
      ensures |r| == Min(10, |users|)
      ensures SortedDesc(r, UpdatedAt) && multiset(r) <= multiset(users)
      ensures forall x, y :: x in multiset(users) - multiset(r) && y in r ==> UpdatedAt(x) <= UpdatedAt(y)
    {
      Top(users, UpdatedAt, 10)
    }

    /** searchUsers: every user when the term is empty or absent, otherwise
        the users whose username or role contains the term, ignoring case. */
    function SearchUsers(term: Option<string>): (r: seq<User>)
      reads this
      ensures !Truthy(term) ==> r == users
      ensures Truthy(term) ==> forall u :: u in r <==>
        u in users && (Contains(Lower(u.username), Lower(term.value)) || Contains(Lower(u.role), Lower(term.value)))
      ensures Truthy(term) ==> forall u :: multiset(r)[u] == if Mentions(Lower(term.value))(u) then multiset(users)[u] else 0
    {
      if !Truthy(term) then users else
        FilterMultisets(users, Mentions(Lower(term.value)));
        Filter(users, Mentions(Lower(term.value)))
    }

    /** getStatistics */
    function GetStatistics(): (s: Statistics)
      reads this
      ensures s.total == |users|
      ensures s.admins == Count(users, HasRole("admin"))
      ensures s.designers == Count(users, HasRole("designer"))
      ensures s.developers == Count(users, HasRole("developer"))
      ensures s.testers == Count(users, HasRole("tester"))
      ensures s.recentlyCreated == Min(10, |users|) && s.recentlyUpdated == Min(10, |users|)
    {
      Statistics(|users|, |RoleUsers("admin")|, |RoleUsers("designer")|, |RoleUsers("developer")|,
                 |RoleUsers("tester")|, |RecentlyCreated()|, |RecentlyUpdated()|)
    }

    // -------------------------------------------------------------------
    // Actions

    /** fetchUsers, given what getAllUsers gave. */
    method FetchUsers(r: Http.Outcome<Http.Envelope<seq<User>>>)
      requires r.Returned? ==> r.value.WellFormed()
      modifies this
      ensures !loading
      ensures r.Returned? && r.value.success ==> users == r.value.item.value && error.None?
      ensures r.Returned? && !r.value.success ==> users == old(users) && error == r.value.message
      ensures r.Threw? ==> users == old(users) && error == Some(FetchThrew)
    {
      loading := true;
      error := None;
      match r {
        case Threw =>
          error := Some(FetchThrew);
        case Returned(e) =>
          if e.success {
            users := e.item.value;
          } else {
            error := e.message;
          }
      }
      loading := false;
    }

    /** createUser: a created user is appended; a refused one leaves the
        list and the (cleared) error alone. */
    method CreateUser(r: Http.Outcome<Http.Envelope<User>>) returns (result: Http.Envelope<User>)
      requires r.Returned? ==> r.value.WellFormed()
      modifies this
      ensures !loading
      ensures r.Returned? ==> result == r.value && error.None?
      ensures r.Returned? && r.value.success ==> users == old(users) + [r.value.item.value]
      ensures r.Returned? && !r.value.success ==> users == old(users)
      ensures r.Threw? ==>
        users == old(users) && error == Some(CreateThrew) && result == Http.Failed(CreateThrew, None, None)
    {
      loading := true;
      error := None;
      match r {
        case Threw =>
          error := Some(CreateThrew);
          result := Http.Failed(CreateThrew, None, None);
        case Returned(e) =>
          if e.success {
            users := users + [e.item.value];
          }
          result := e;
      }
      loading := false;
    }

    /** updateUser: the first user with that `id` or `_id` is replaced by
        the updated one; a refused update leaves the list and the (cleared)
        error alone. */
    method UpdateUser(id: string, r: Http.Outcome<Http.Envelope<User>>) returns (result: Http.Envelope<User>)
      requires r.Returned? ==> r.value.WellFormed()
      modifies this
      ensures !loading
      ensures r.Returned? ==> result == r.value && error.None?
      ensures r.Returned? && r.value.success ==> users == ReplaceFirst(old(users), MatchesId(id), r.value.item.value)
      ensures r.Returned? && !r.value.success ==> users == old(users)
      ensures r.Threw? ==>
        users == old(users) && error == Some(UpdateThrew) && result == Http.Failed(UpdateThrew, None, None)
    {
      loading := true;
      error := None;
      match r {
        case Threw =>
          error := Some(UpdateThrew);
          result := Http.Failed(UpdateThrew, None, None);
        case Returned(e) =>
          if e.success {
            users := ReplaceFirst(users, MatchesId(id), e.item.value);
          }
          result := e;
      }
      loading := false;
    }

    /** deleteUser: every user with that `id` or `_id` leaves the list; a
        refusal's message becomes the error. */
    method DeleteUser(id: string, r: Http.Outcome<Http.Envelope<()>>) returns (result: Http.Envelope<()>)
      modifies this
      ensures !loading
      ensures r.Returned? ==> result == r.value
      ensures r.Returned? && r.value.success ==> users == Filter(old(users), OtherId(id)) && error.None?
      ensures r.Returned? && !r.value.success ==> users == old(users) && error == r.value.message
      ensures r.Threw? ==>
        users == old(users) && error == Some(DeleteThrew) && result == Http.Failed(DeleteThrew, None, None)
    {
      loading := true;
      error := None;
      match r {
        case Threw =>
          error := Some(DeleteThrew);
          result := Http.Failed(DeleteThrew, None, None);
        case Returned(e) =>
          if e.success {
            users := Filter(users, OtherId(id));
          } else {
            error := e.message;
          }
          result := e;
      }
      loading := false;
    }

    /** clearError */
    method ClearError()
      modifies this
      ensures error.None? && users == old(users) && loading == old(loading)
    {
      error := None;
    }

    /** resetState */
    method ResetState()
      modifies this
      ensures users == [] && !loading && error.None?
    {
      users := [];
      loading := false;
      error := None;
    }
  }

  // ---------------------------------------------------------------------
  // Properties of the list operations the actions use

  /** When every user holds one of the four roles, the four role counts of
      the statistics add up to the total. */
  lemma {:induction false} RoleCountsAddUp(s: seq<User>)
    requires forall i :: 0 <= i < |s| ==> s[i].role in Roles.All
    ensures Count(s, HasRole("admin")) + Count(s, HasRole("designer")) +
            Count(s, HasRole("developer")) + Count(s, HasRole("tester")) == |s|
  {
    if s != [] {
      RoleCountsAddUp(s[1..]);
    }
  }

  /** After a successful delete no user with that id is left, and every
      other user is kept. */
  lemma DeletedUserIsGone(s: seq<User>, id: string)
    ensures Find(Filter(s, OtherId(id)), MatchesId(id)).None?
    ensures forall u :: u in s && u.id != Some(id) && u.dbId != Some(id) ==> u in Filter(s, OtherId(id))
    ensures forall x: User :: multiset(Filter(s, OtherId(id)))[x] == if OtherId(id)(x) then multiset(s)[x] else 0
    ensures (forall j :: 0 <= j < |s| ==> OtherId(id)(s[j])) ==> Filter(s, OtherId(id)) == s
  {
    forall x: User
      ensures multiset(Filter(s, OtherId(id)))[x] == if OtherId(id)(x) then multiset(s)[x] else 0
    {
      FilterMultiset(s, OtherId(id), x);
    }
    if forall j :: 0 <= j < |s| ==> OtherId(id)(s[j]) {
      FilterKeepsAll(s, OtherId(id));
    }
    var t := Filter(s, OtherId(id));
    assert forall j :: 0 <= j < |t| ==> !MatchesId(id)(t[j]) by {
      forall j | 0 <= j < |t|
        ensures !MatchesId(id)(t[j])
      {
        assert t[j] in t;
      }
    }
  }

  /** A created user is appended, so getUserById finds it unless an
      earlier user already has that id. */
  lemma CreatedUserIsFound(s: seq<User>, u: User, id: string)
    requires u.id == Some(id) || u.dbId == Some(id)
    requires forall j :: 0 <= j < |s| ==> s[j].id != Some(id) && s[j].dbId != Some(id)
    ensures Find(s + [u], MatchesId(id)) == Some(u)
  {
    var t := s + [u];
    assert t[|s|] == u;
    assert forall j :: 0 <= j < |s| ==> t[j] == s[j];
    assert FindIndex(t, MatchesId(id)) == |s|;
  }
}
