/**
 * The projects store: the projects last fetched, a loading flag and an
 * error message that is the empty string when there is none.
 */
module Projects {
  import opened Js
  import Http
  import opened ListOps
  import opened ProjectService

  /** `p._id === id || p.id === id` */
  function MatchesId(id: string): Project -> bool {
    (p: Project) => p.dbId == Some(id) || p.id == Some(id)
  }

  /** `p._id !== id && p.id !== id` */
  function OtherId(id: string): Project -> bool {
    (p: Project) => p.dbId != Some(id) && p.id != Some(id)
  }

  const FetchFailed: string := "Kunde inte hämta projekt"
  const FetchThrew: string := "Ett oväntat fel uppstod vid hämtning av projekt"
  const CreateThrew: string := "Ett oväntat fel uppstod vid skapande av projekt"
  const UpdateThrew: string := "Ett oväntat fel uppstod vid uppdatering av projekt"
  const DeleteThrew: string := "Ett oväntat fel uppstod vid borttagning av projekt"

  class ProjectsStore {
    var projects: seq<Project>
    var loading: bool
    var error: string

    constructor()
      ensures projects == [] && !loading && error == ""
    {
      projects := [];
      loading := false;
      error := "";
    }

    /** projectCount */
    function ProjectCount(): (n: nat)
      reads this
      ensures n == |projects|
    {
      |projects|
    }

    /** hasProjects: there is a project exactly when the count is positive. */
    function HasProjects(): (b: bool)
      reads this
      ensures b <==> ProjectCount() > 0
      ensures b <==> projects != []
    {
      |projects| > 0
    }

    method ClearError()
      modifies this
      ensures error == "" && projects == old(projects) && loading == old(loading)
    {
      error := "";
    }

    method SetLoading(isLoading: bool)
      modifies this
      ensures loading == isLoading && projects == old(projects) && error == old(error)
    {
      loading := isLoading;
    }

    method SetError(message: string)
      modifies this
      ensures error == message && projects == old(projects) && loading == old(loading)
    {
      error := message;
    }

    /** fetchProjects, given what getAllProjects gave: a success without a
        list empties the store; a refusal without a message gets the
        fixed one. */
    method FetchProjects(r: Http.Outcome<Http.Envelope<seq<Project>>>)
      modifies this
      ensures !loading
      ensures r.Returned? && r.value.success ==>
        error == "" && (r.value.item.Some? ==> projects == r.value.item.value) && (r.value.item.None? ==> projects == [])
      ensures r.Returned? && !r.value.success ==>
        projects == old(projects) && error == OrElse(r.value.message, FetchFailed) && error != ""
      ensures r.Threw? ==> projects == old(projects) && error == FetchThrew
    {
      SetLoading(true);
      ClearError();
      match r {
        case Threw =>
          SetError(FetchThrew);
        case Returned(e) =>
          if e.success {
            projects := if e.item.Some? then e.item.value else [];
          } else {
            SetError(OrElse(e.message, FetchFailed));
          }
      }
      SetLoading(false);
    }

    /** createProject: a created project goes to the front of the list; a
        refusal is returned and leaves the (cleared) error empty. */
    method CreateProject(r: Http.Outcome<Http.Envelope<Project>>) returns (result: Http.Envelope<Project>)
      requires r.Returned? ==> r.value.WellFormed()
      modifies this
      ensures !loading
      ensures r.Returned? ==> result == r.value && error == ""
      ensures r.Returned? && r.value.success ==> projects == [r.value.item.value] + old(projects)
      ensures r.Returned? && !r.value.success ==> projects == old(projects)
      ensures r.Threw? ==>
        projects == old(projects) && error == CreateThrew && result == Http.Failed(CreateThrew, None, None)
    {
      SetLoading(true);
      ClearError();
      match r {
        case Threw =>
          SetError(CreateThrew);
          result := Http.Failed(CreateThrew, None, None);
        case Returned(e) =>
          if e.success {
            projects := [e.item.value] + projects;
          }
          result := e;
      }
      SetLoading(false);
    }

    /** updateProject: the first project with that `_id` or `id` is
        replaced by the updated one. */
    method UpdateProject(id: string, r: Http.Outcome<Http.Envelope<Project>>) returns (result: Http.Envelope<Project>)
      requires r.Returned? ==> r.value.WellFormed()
      modifies this
      ensures !loading
      ensures r.Returned? ==> result == r.value && error == ""
      ensures r.Returned? && r.value.success ==>
        projects == ReplaceFirst(old(projects), MatchesId(id), r.value.item.value)
      ensures r.Returned? && !r.value.success ==> projects == old(projects)
      ensures r.Threw? ==>
        projects == old(projects) && error == UpdateThrew && result == Http.Failed(UpdateThrew, None, None)
    {
      SetLoading(true);
      ClearError();
      match r {
        case Threw =>
          SetError(UpdateThrew);
          result := Http.Failed(UpdateThrew, None, None);
        case Returned(e) =>
          if e.success {
            projects := ReplaceFirst(projects, MatchesId(id), e.item.value);
          }
          result := e;
      }
      SetLoading(false);
    }

    /** deleteProject: every project with that `_id` or `id` leaves the
        list. */
    method DeleteProject(id: string, r: Http.Outcome<Http.Envelope<()>>) returns (result: Http.Envelope<()>)
      modifies this
      ensures !loading
      ensures r.Returned? ==> result == r.value && error == ""
      ensures r.Returned? && r.value.success ==> projects == Filter(old(projects), OtherId(id))
      ensures r.Returned? && !r.value.success ==> projects == old(projects)
      ensures r.Threw? ==>
        projects == old(projects) && error == DeleteThrew && result == Http.Failed(DeleteThrew, None, None)
    {
      SetLoading(true);
      ClearError();
      match r {
        case Threw =>
          SetError(DeleteThrew);
          result := Http.Failed(DeleteThrew, None, None);
        case Returned(e) =>
          if e.success {
            projects := Filter(projects, OtherId(id));
          }
          result := e;
      }
      SetLoading(false);
    }

    /** getProjectById: the service's answer, or the fixed failure when it
        throws; the store itself is not touched. */
    method GetProjectById(r: Http.Outcome<Http.Envelope<Project>>) returns (result: Http.Envelope<Project>)
      ensures r.Returned? ==> result == r.value
      ensures r.Threw? ==> !result.success && result.message == Some(FetchFailed) && result.item.None?
    {
      match r {
        case Threw =>
          result := Http.Failed(FetchFailed, None, None);
        case Returned(e) =>
          result := e;
      }
    }
  }

  /** After a successful delete no project with that id is left, every
      other project is kept, and the count drops by the number removed. */
  lemma DeletedProjectIsGone(s: seq<Project>, id: string)
    ensures Find(Filter(s, OtherId(id)), MatchesId(id)).None?
    ensures forall p :: p in s && p.id != Some(id) && p.dbId != Some(id) ==> p in Filter(s, OtherId(id))
    ensures |Filter(s, OtherId(id))| == Count(s, OtherId(id))
    ensures forall x: Project :: multiset(Filter(s, OtherId(id)))[x] == if OtherId(id)(x) then multiset(s)[x] else 0
    ensures (forall j :: 0 <= j < |s| ==> OtherId(id)(s[j])) ==> Filter(s, OtherId(id)) == s
  {
    forall x: Project
      ensures multiset(Filter(s, OtherId(id)))[x] == if OtherId(id)(x) then multiset(s)[x] else 0
    {
      FilterMultiset(s, OtherId(id), x);
    }
    if forall j :: 0 <= j < |s| ==> OtherId(id)(s[j]) {
      FilterKeepsAll(s, OtherId(id));
    }
    var t := Filter(s, OtherId(id));
    assert forall j :: 0 <= j < |t| ==> !MatchesId(id)(t[j]) by {
      forall j | 0 <= j < |t|
        ensures !MatchesId(id)(t[j])
      {
        assert t[j] in t;
      }
    }
    FilterLength(s, OtherId(id));
  }

  /** A created project is the first one the list holds. */
  method CreateThenHasProjects(store: ProjectsStore, p: Project)
    modifies store
    ensures store.HasProjects() && store.projects[0] == p
    ensures store.ProjectCount() == old(store.ProjectCount()) + 1
  {
    var result := store.CreateProject(Http.Returned(Http.Succeeded(p, None)));
  }
}
