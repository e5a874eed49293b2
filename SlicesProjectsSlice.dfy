/** The Redux slice of src/store/slices/projectsSlice.ts, the one the dashboard
    dispatches to. It starts empty, loads the stored list on `initializeProjects`,
    and its `saveContentIdea` stores the payload as it is. Reducers mutate the state
    in place (Immer), so the state is a class and each reducer a method.

    `Date.now()` is the parameter `now`; the several reads of it inside one reducer
    are taken to be the same instant. */
module SlicesProjectsSlice {
  import opened Wrappers
  import opened Js
  import opened LocalStorageService

  /** The content idea as this slice stores it: the payload of `saveContentIdea`. */
  datatype ContentIdea = ContentIdea(
    text: string,
    audience: string,
    goal: string,
    analysis: Option<Json>)

  datatype Project = Project(
    id: string,
    title: string,
    contentIdea: Option<ContentIdea>,
    createdAt: int,
    updatedAt: int)

  function ProjectId(p: Project): string
  {
    p.id
  }

  /** `projects.findIndex(p => p.id === id)`. */
  function IndexOfId(projects: seq<Project>, id: string): int
  {
    IndexOfKey(projects, ProjectId, id)
  }

  /** `projects.find(p => p.id === id)`. */
  function FindById(projects: seq<Project>, id: string): Option<Project>
  {
    FindByKey(projects, ProjectId, id)
  }

  /** The project `createProject` builds: id and timestamps from the clock, the
      payload title, no content idea. */
  function NewProject(title: string, now: nat): Project
  {
    Project(DecimalString(now), title, None, now, now)
  }

  /** The project `saveContentIdea` builds: the payload verbatim as its content idea,
      a fresh `updatedAt`, everything else kept. */
  function WithContentIdea(p: Project, payload: ContentIdea, now: nat): (r: Project)
    ensures r.id == p.id && r.title == p.title && r.createdAt == p.createdAt
    ensures r.contentIdea == Some(payload)
    ensures r.updatedAt == now
  {
    p.(contentIdea := Some(payload), updatedAt := now)
  }

  class ProjectsState {
    var projects: seq<Project>
    var currentProject: Option<Project>
    var loading: bool
    var error: Option<string>
    const storage: LocalStorage<Project>

    /** The current project, when there is one, is the first list entry with its id. */
    predicate CurrentAgrees()
      reads this
    {
      currentProject.Some? ==>
        var i := IndexOfId(projects, currentProject.value.id);
        i >= 0 && projects[i] == currentProject.value
    }

    /** What `loadProjects()` would read back equals the in-memory list. */
    predicate Persisted()
      reads this, storage
    {
      storage.hasWindow ==> storage.LoadProjects() == Ok(projects)
    }

    /** `initialState`: an empty list, no current project, not loading, no error. */
    constructor (storage: LocalStorage<Project>)
      ensures this.storage == storage
      ensures projects == [] && currentProject == None && !loading && error == None
      ensures CurrentAgrees()
    {
      this.storage := storage;
      projects := [];
      currentProject := None;
      loading := false;
      error := None;
    }

    /** `initializeProjects()`: replaces the list by the stored one (`[]` without a
        window, for a missing key or when parsing throws) and nothing else. */
    method InitializeProjects()
      modifies this`projects
      ensures projects == storage.LoadProjectsOrEmpty()
      ensures !storage.hasWindow || storage.GetItem(ProjectsKey).None? ==> projects == []
      ensures storage.LoadProjects().Ok? ==> Persisted()
    {
      projects := storage.LoadProjectsOrEmpty();
    }

    /** `createProject({title})`: appends one new project, makes it current and
        saves the list. */
    method CreateProject(title: string, now: nat)
      modifies this, storage
      ensures projects == old(projects) + [NewProject(title, now)]
      ensures projects[|projects| - 1].title == title && projects[|projects| - 1].contentIdea.None?
      ensures currentProject == Some(projects[|projects| - 1])
      ensures loading == old(loading) && error == old(error)
      ensures storage.items == if storage.hasWindow then old(storage.items)[ProjectsKey := Json(projects)]
                               else old(storage.items)
      ensures Persisted()
      ensures IndexOfId(old(projects), DecimalString(now)) == -1 ==> CurrentAgrees()
    {
      var p := NewProject(title, now);
      ghost var before := projects;
      projects := projects + [p];
      currentProject := Some(p);
      storage.SaveProjects(projects);
      if IndexOfId(before, p.id) == -1 {
        IndexOfKeyAfterAppend(before, ProjectId, p);
      }
    }

    /** `setCurrentProject(id)`: the first project with that id becomes current; an
        unknown id changes nothing. The list is never touched. */
    method SetCurrentProject(id: string)
      modifies this
      ensures projects == old(projects) && loading == old(loading) && error == old(error)
      ensures currentProject == if FindById(projects, id).Some? then FindById(projects, id) else old(currentProject)
      ensures FindById(projects, id).Some? ==> currentProject.value.id == id
      ensures old(CurrentAgrees()) ==> CurrentAgrees()
      ensures FindById(projects, id).Some? ==> CurrentAgrees()
    {
      var project := FindById(projects, id);
      if project.Some? {
        currentProject := project;
      }
    }

    /** `saveContentIdea(payload)`: without a current project, or when its id is no
        longer in the list, nothing changes; otherwise the first entry with the
        current id is replaced by the project carrying the payload, that project
        becomes current and the list is saved. */
    method SaveContentIdea(payload: ContentIdea, now: nat)
      modifies this, storage
      ensures loading == old(loading) && error == old(error)
      ensures old(currentProject).None? || IndexOfId(old(projects), old(currentProject).value.id) == -1 ==>
                projects == old(projects) && currentProject == old(currentProject)
                && storage.items == old(storage.items)
      ensures old(currentProject).Some? && IndexOfId(old(projects), old(currentProject).value.id) >= 0 ==>
                var i := IndexOfId(old(projects), old(currentProject).value.id);
                var updated := WithContentIdea(old(currentProject).value, payload, now);
                && projects == old(projects)[i := updated]
                && currentProject == Some(updated)
                && storage.items == (if storage.hasWindow then old(storage.items)[ProjectsKey := Json(projects)]
                                     else old(storage.items))
                && Persisted() && CurrentAgrees()
      ensures old(CurrentAgrees()) ==> CurrentAgrees()
      ensures old(Persisted()) ==> Persisted()
    {
      if currentProject.None? {
        return;
      }
      var current := currentProject.value;
      var updated := WithContentIdea(current, payload, now);
      var index := IndexOfId(projects, current.id);
      if index != -1 {
        IndexOfKeyAfterReplace(projects, ProjectId, index, updated);
        projects := projects[index := updated];
        currentProject := Some(updated);
        storage.SaveProjects(projects);
      }
    }

    /** `setLoading(b)`: changes the flag and nothing else. */
    method SetLoading(b: bool)
      modifies this`loading
      ensures loading == b
    {
      loading := b;
    }

    /** `setError(message)`: changes the message and nothing else. */
    method SetError(message: Option<string>)
      modifies this`error
      ensures error == message
    {
      error := message;
    }
  }
}
