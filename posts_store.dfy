/**
 * The posts store: the posts last fetched, a loading flag and the last
 * error message, with the getters the dashboards read and the actions
 * that mirror each successful service call in the list.
 */
module Posts {
  import opened Js
  import Http
  import opened ListOps
  import opened PostService
  import Roles

  /** `post.role === role` */
  function HasRole(role: string): Post -> bool {
    (p: Post) => p.role == role
  }

  /** `post.id === id || post._id === id` */
  function MatchesId(id: string): Post -> bool {
    (p: Post) => p.id == Some(id) || p.dbId == Some(id)
  }

  /** `post.id !== id && post._id !== id` */
  function OtherId(id: string): Post -> bool {
    (p: Post) => p.id != Some(id) && p.dbId != Some(id)
  }

  function CreatedAt(p: Post): int { p.createdAt }
  function UpdatedAt(p: Post): int { p.updatedAt }

  /** `post.title.toLowerCase().includes(term) || …content… || …role…` */
  function Mentions(term: string): Post -> bool {
    (p: Post) => Contains(Lower(p.title), term) || Contains(Lower(p.content), term) || Contains(Lower(p.role), term)
  }

  /** The object getStatistics returns. */
  datatype Statistics = Statistics(
    total: nat, designers: nat, developers: nat, testers: nat,
    recentlyCreated: nat, recentlyUpdated: nat)

  /** The messages the actions set when the service call throws. */
  const FetchThrew: string := "Ett oväntat fel uppstod vid hämtning av inlägg"
  const CreateThrew: string := "Ett oväntat fel uppstod vid skapande av inlägg"
  const UpdateThrew: string := "Ett oväntat fel uppstod vid uppdatering av inlägg"
  const DeleteThrew: string := "Ett oväntat fel uppstod vid borttagning av inlägg"

  class PostsStore {
    var posts: seq<Post>
    var loading: bool
    var error: Option<string>

    constructor()
      ensures posts == [] && !loading && error.None?
    {
      posts := [];
      loading := false;
      error := None;
    }

    // -------------------------------------------------------------------
    // Getters

    /** designerPosts, developerPosts, testerPosts and getPostsForRole:
        every copy of each post of one role. */
    function RolePosts(role: string): (r: seq<Post>)
      reads this
      ensures forall p :: p in r <==> p in posts && p.role == role
      ensures forall p :: multiset(r)[p] == if p.role == role then multiset(posts)[p] else 0
      ensures |r| == Count(posts, HasRole(role))
    {
      FilterLength(posts, HasRole(role));
      FilterMultisets(posts, HasRole(role));
      Filter(posts, HasRole(role))
    }

    /** postsByRole: the administrator sees every post, any other role the
        posts of that role. */
    function PostsByRole(role: string): (r: seq<Post>)
      reads this
      ensures role == "admin" ==> r == posts
      ensures role != "admin" ==> forall p :: p in r <==> p in posts && p.role == role
    {
      if role == "admin" then posts else RolePosts(role)
    }

    /** getPostById: the first post whose `id` or `_id` is `id`. */
    function GetPostById(id: string): (r: Option<Post>)
      reads this
      ensures r.None? <==> forall j :: 0 <= j < |posts| ==> posts[j].id != Some(id) && posts[j].dbId != Some(id)
      ensures r.Some? ==> exists i :: 0 <= i < |posts| && posts[i] == r.value &&
                                (posts[i].id == Some(id) || posts[i].dbId == Some(id)) &&
                                forall j :: 0 <= j < i ==> posts[j].id != Some(id) && posts[j].dbId != Some(id)
    {
      Find(posts, MatchesId(id))
    }

    /** getPostByTitle: the first post with exactly that title. */
    function GetPostByTitle(title: string): (r: Option<Post>)
      reads this
      ensures r.None? <==> forall j :: 0 <= j < |posts| ==> posts[j].title != title
      ensures r.Some? ==> exists i :: 0 <= i < |posts| && posts[i] == r.value && posts[i].title == title &&
                                forall j :: 0 <= j < i ==> posts[j].title != title
    {
      Find(posts, (p: Post) => p.title == title)
    }

    /** recentlyCreatedPosts: the ten newest posts, newest first. */
    function RecentlyCreated(): (r: seq<Post>)
      reads this
      ensures |r| == Min(10, |posts|)
      ensures SortedDesc(r, CreatedAt) && multiset(r) <= multiset(posts)
      ensures forall x, y :: x in multiset(posts) - multiset(r) && y in r ==> CreatedAt(x) <= CreatedAt(y)
    {
      Top(posts, CreatedAt, 10)
    }

    /** recentlyUpdatedPosts: the ten most recently updated posts, latest
        first. */
    function RecentlyUpdated(): (r: seq<Post>)
      reads this
      ensures |r| == Min(10, |posts|)
      ensures SortedDesc(r, UpdatedAt) && multiset(r) <= multiset(posts)
      ensures forall x, y :: x in multiset(posts) - multiset(r) && y in r ==> UpdatedAt(x) <= UpdatedAt(y)
    {
      Top(posts, UpdatedAt, 10)
    }

    /** searchPosts: every post when the term is empty or absent, otherwise
        the posts whose title, content or role contains the term, ignoring
        case. */
    function SearchPosts(term: Option<string>): (r: seq<Post>)
      reads this
      ensures !Truthy(term) ==> r == posts
      ensures Truthy(term) ==> forall p :: p in r <==>
        p in posts &&
        (Contains(Lower(p.title), Lower(term.value)) || Contains(Lower(p.content), Lower(term.value)) ||
         Contains(Lower(p.role), Lower(term.value)))
      ensures Truthy(term) ==> forall p :: multiset(r)[p] == if Mentions(Lower(term.value))(p) then multiset(posts)[p] else 0
    {
      if !Truthy(term) then posts else
        FilterMultisets(posts, Mentions(Lower(term.value)));
        Filter(posts, Mentions(Lower(term.value)))
    }

    /** getStatistics */
    function GetStatistics(): (s: Statistics)
      reads this
      ensures s.total == |posts|
      ensures s.designers == Count(posts, HasRole("designer"))
      ensures s.developers == Count(posts, HasRole("developer"))
      ensures s.testers == Count(posts, HasRole("tester"))
      ensures s.recentlyCreated == Min(10, |posts|) && s.recentlyUpdated == Min(10, |posts|)
    {
      Statistics(|posts|, |RolePosts("designer")|, |RolePosts("developer")|, |RolePosts("tester")|,
                 |RecentlyCreated()|, |RecentlyUpdated()|)
    }

    // -------------------------------------------------------------------
    // Actions

    /** fetchPosts, given what getAllPosts gave. */
    method FetchPosts(r: Http.Outcome<Http.Envelope<seq<Post>>>)
      requires r.Returned? ==> r.value.WellFormed()
      modifies this
      ensures !loading
      ensures r.Returned? && r.value.success ==> posts == r.value.item.value && error.None?
      ensures r.Returned? && !r.value.success ==> posts == old(posts) && error == r.value.message
      ensures r.Threw? ==> posts == old(posts) && error == Some(FetchThrew)
    {
      loading := true;
      error := None;
      match r {
        case Threw =>
          error := Some(FetchThrew);
        case Returned(e) =>
          if e.success {
            posts := e.item.value;
          } else {
            error := e.message;
          }
      }
      loading := false;
    }

    /** createPost: a created post goes to the front of the list. */
    method CreatePost(r: Http.Outcome<Http.Envelope<Post>>) returns (result: Http.Envelope<Post>)
      requires r.Returned? ==> r.value.WellFormed()
      modifies this
      ensures !loading
      ensures r.Returned? ==> result == r.value
      ensures r.Returned? && r.value.success ==> posts == [r.value.item.value] + old(posts) && error.None?
      ensures r.Returned? && !r.value.success ==> posts == old(posts) && error == r.value.message
      ensures r.Threw? ==>
        posts == old(posts) && error == Some(CreateThrew) && result == Http.Failed(CreateThrew, None, None)
    {
      loading := true;
      error := None;
      match r {
        case Threw =>
          error := Some(CreateThrew);
          result := Http.Failed(CreateThrew, None, None);
        case Returned(e) =>
          if e.success {
            posts := [e.item.value] + posts;
          } else {
            error := e.message;
          }
          result := e;
      }
      loading := false;
    }

    /** updatePost: the first post with that `id` or `_id` is replaced by
        the updated one; the list is unchanged when none has it. */
    method UpdatePost(id: string, r: Http.Outcome<Http.Envelope<Post>>) returns (result: Http.Envelope<Post>)
      requires r.Returned? ==> r.value.WellFormed()
      modifies this
      ensures !loading
      ensures r.Returned? ==> result == r.value
      ensures r.Returned? && r.value.success ==>
        posts == ReplaceFirst(old(posts), MatchesId(id), r.value.item.value) && error.None?
      ensures r.Returned? && !r.value.success ==> posts == old(posts) && error == r.value.message
      ensures r.Threw? ==>
        posts == old(posts) && error == Some(UpdateThrew) && result == Http.Failed(UpdateThrew, None, None)
    {
      loading := true;
      error := None;
      match r {
        case Threw =>
          error := Some(UpdateThrew);
          result := Http.Failed(UpdateThrew, None, None);
        case Returned(e) =>
          if e.success {
            posts := ReplaceFirst(posts, MatchesId(id), e.item.value);
          } else {
            error := e.message;
          }
          result := e;
      }
      loading := false;
    }

    /** deletePost: every post with that `id` or `_id` leaves the list. */
    method DeletePost(id: string, r: Http.Outcome<Http.Envelope<()>>) returns (result: Http.Envelope<()>)
      modifies this
      ensures !loading
      ensures r.Returned? ==> result == r.value
      ensures r.Returned? && r.value.success ==> posts == Filter(old(posts), OtherId(id)) && error.None?
      ensures r.Returned? && !r.value.success ==> posts == old(posts) && error == r.value.message
      ensures r.Threw? ==>
        posts == old(posts) && error == Some(DeleteThrew) && result == Http.Failed(DeleteThrew, None, None)
    {
      loading := true;
      error := None;
      match r {
        case Threw =>
          error := Some(DeleteThrew);
          result := Http.Failed(DeleteThrew, None, None);
        case Returned(e) =>
          if e.success {
            posts := Filter(posts, OtherId(id));
          } else {
            error := e.message;
          }
          result := e;
      }
      loading := false;
    }

    /** clearError */
    method ClearError()
      modifies this
      ensures error.None? && posts == old(posts) && loading == old(loading)
    {
      error := None;
    }

    /** resetState */
    method ResetState()
      modifies this
      ensures posts == [] && !loading && error.None?
    {
      posts := [];
      loading := false;
      error := None;
    }
  }

  // ---------------------------------------------------------------------
  // Properties of the list operations the actions use

  /** When every post belongs to one of the three roles, the three role
      counts of the statistics add up to the total. */
  lemma {:induction false} RoleCountsAddUp(s: seq<Post>)
    requires forall i :: 0 <= i < |s| ==> s[i].role in Roles.NonAdmin
    ensures Count(s, HasRole("designer")) + Count(s, HasRole("developer")) + Count(s, HasRole("tester")) == |s|
  {
    if s != [] {
      RoleCountsAddUp(s[1..]);
    }
  }

  /** After a successful delete no post with that id is left, and every
      other post is kept. */
  lemma DeletedPostIsGone(s: seq<Post>, id: string)
    ensures Find(Filter(s, OtherId(id)), MatchesId(id)).None?
    ensures forall p :: p in s && p.id != Some(id) && p.dbId != Some(id) ==> p in Filter(s, OtherId(id))
    ensures forall x: Post :: multiset(Filter(s, OtherId(id)))[x] == if OtherId(id)(x) then multiset(s)[x] else 0
    ensures (forall j :: 0 <= j < |s| ==> OtherId(id)(s[j])) ==> Filter(s, OtherId(id)) == s
  {
    forall x: Post
      ensures multiset(Filter(s, OtherId(id)))[x] == if OtherId(id)(x) then multiset(s)[x] else 0
    {
      FilterMultiset(s, OtherId(id), x);
    }
    if forall j :: 0 <= j < |s| ==> OtherId(id)(s[j]) {
      FilterKeepsAll(s, OtherId(id));
    }
    var t := Filter(s, OtherId(id));
    assert forall j :: 0 <= j < |t| ==> !MatchesId(id)(t[j]) by {
      forall j | 0 <= j < |t|
        ensures !MatchesId(id)(t[j])
      {
        assert t[j] in t;
      }
    }
  }

  /** A created post is the one getPostById finds by its own id. */
  lemma CreatedPostIsFound(s: seq<Post>, p: Post, id: string)
    requires p.id == Some(id) || p.dbId == Some(id)
    ensures Find([p] + s, MatchesId(id)) == Some(p)
  {
    assert ([p] + s)[0] == p;
  }

  /** An update replaces the first post with that id and keeps the rest,
      so the count is unchanged and getPostById finds the new version. */
  lemma UpdatedPostIsFound(s: seq<Post>, p: Post, id: string)
    requires p.id == Some(id) || p.dbId == Some(id)
    requires exists j :: 0 <= j < |s| && MatchesId(id)(s[j])
    ensures |ReplaceFirst(s, MatchesId(id), p)| == |s|
    ensures Find(ReplaceFirst(s, MatchesId(id), p), MatchesId(id)) == Some(p)
  {
    var m := MatchesId(id);
    var i := FindIndex(s, m);
    assert i >= 0;
    assert ReplaceFirst(s, m, p) == s[i := p];
    var t := s[i := p];
    assert m(t[i]);
    assert forall j :: 0 <= j < i ==> !m(t[j]) by {
      assert forall j :: 0 <= j < i ==> t[j] == s[j];
    }
    assert FindIndex(t, m) == i;
  }
}
