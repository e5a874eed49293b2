/** The Redux slice of src/store/projectsSlice.ts: a list of projects, an optional
    current project, a loading flag and an error message. Every reducer that changes
    the list writes the whole list to localStorage. Reducers mutate the state in
    place (Immer), so the state is a class and each reducer a method.

    `Date.now()` is the parameter `now`; the several reads of it inside one reducer
    are taken to be the same instant. */
module ProjectsSlice {
  import opened Wrappers
  import opened Js
  import opened LocalStorageService

  datatype ContentIdea = ContentIdea(
    id: string,
    title: string,
    contentIdea: string,
    targetAudience: string,
    contentGoal: string,
    analysis: Option<Json>,
    createdAt: int,
    updatedAt: int)

  datatype Hook = Hook(
    id: string,
    contentIdeaId: string,
    hookType: string,
    selectedHook: Option<string>,
    generatedHooks: Option<Json>,
    createdAt: int,
    updatedAt: int)

  datatype Project = Project(
    id: string,
    title: string,
    contentIdea: Option<ContentIdea>,
    hook: Option<Hook>,
    createdAt: int,
    updatedAt: int)

  /** The payload of `saveContentIdea`. */
  datatype ContentIdeaPayload = ContentIdeaPayload(
    contentIdea: string,
    targetAudience: string,
    contentGoal: string,
    analysis: Option<Json>)

  /** The payload of `saveHook`. */
  datatype HookPayload = HookPayload(
    hookType: string,
    selectedHook: Option<string>,
    generatedHooks: Option<Json>)

  function ProjectId(p: Project): string
  {
    p.id
  }

  /** `projects.findIndex(p => p.id === id)`. */
  function IndexOfId(projects: seq<Project>, id: string): int
  {
    IndexOfKey(projects, ProjectId, id)
  }

  /** `projects.find(p => p.id === id)`. */
  function FindById(projects: seq<Project>, id: string): Option<Project>
  {
    FindByKey(projects, ProjectId, id)
  }

  /** The project `createProject` builds: id and timestamps from the clock, the
      payload title, no step records. */
  function NewProject(title: string, now: nat): Project
  {
    Project(DecimalString(now), title, None, None, now, now)
  }

  /** The project `saveContentIdea` builds from the current one. */
  function WithContentIdea(p: Project, payload: ContentIdeaPayload, now: nat): (r: Project)
    ensures r.id == p.id && r.title == p.title && r.createdAt == p.createdAt
    ensures r.hook == p.hook
    ensures r.updatedAt == now
    ensures r.contentIdea.Some?
    ensures r.contentIdea.value.title == p.title
    ensures r.contentIdea.value.contentIdea == payload.contentIdea
    ensures r.contentIdea.value.targetAudience == payload.targetAudience
    ensures r.contentIdea.value.contentGoal == payload.contentGoal
    ensures r.contentIdea.value.analysis == payload.analysis
    ensures r.contentIdea.value.id == DecimalString(now)
    ensures r.contentIdea.value.createdAt == now && r.contentIdea.value.updatedAt == now
  {
    var idea := ContentIdea(DecimalString(now), p.title, payload.contentIdea, payload.targetAudience,
                            payload.contentGoal, payload.analysis, now, now);
    p.(contentIdea := Some(idea), updatedAt := now)
  }

  /** The project `saveHook` builds from the current one. The hook points back at the
      project's content idea through `contentIdeaId`, `""` when it has none. */
  function WithHook(p: Project, payload: HookPayload, now: nat): (r: Project)
    ensures r.id == p.id && r.title == p.title && r.createdAt == p.createdAt
    ensures r.contentIdea == p.contentIdea
    ensures r.updatedAt == now
    ensures r.hook.Some?
    ensures r.hook.value.contentIdeaId == if p.contentIdea.Some? then p.contentIdea.value.id else ""
    ensures r.hook.value.hookType == payload.hookType
    ensures r.hook.value.selectedHook == payload.selectedHook
    ensures r.hook.value.generatedHooks == payload.generatedHooks
    ensures r.hook.value.id == DecimalString(now)
    ensures r.hook.value.createdAt == now && r.hook.value.updatedAt == now
  {
    var ideaId := OrElse(if p.contentIdea.Some? then Some(p.contentIdea.value.id) else None, "");
    var hook := Hook(DecimalString(now), ideaId, payload.hookType, payload.selectedHook,
                     payload.generatedHooks, now, now);
    p.(hook := Some(hook), updatedAt := now)
  }

  class ProjectsState {
    var projects: seq<Project>
    var currentProject: Option<Project>
    var loading: bool
    var error: Option<string>
    const storage: LocalStorage<Project>

    /** The current project, when there is one, is the first list entry with its id. */
    predicate CurrentAgrees()
      reads this
    {
      currentProject.Some? ==>
        var i := IndexOfId(projects, currentProject.value.id);
        i >= 0 && projects[i] == currentProject.value
    }

    /** What `loadProjects()` would read back equals the in-memory list. */
    predicate Persisted()
      reads this, storage
    {
      storage.hasWindow ==> storage.LoadProjects() == Ok(projects)
    }

    /** `initialState`: the list loaded at module load (`loadInitialProjects`, which
        turns a parse failure into `[]`), no current project, not loading, no error. */
    constructor (storage: LocalStorage<Project>)
      ensures this.storage == storage
      ensures projects == storage.LoadProjectsOrEmpty()
      ensures currentProject == None && !loading && error == None
      ensures CurrentAgrees()
      ensures storage.LoadProjects().Ok? ==> Persisted()
    {
      this.storage := storage;
      projects := storage.LoadProjectsOrEmpty();
      currentProject := None;
      loading := false;
      error := None;
    }

    /** `createProject({title})`: appends one new project, makes it current and
        saves the list. */
    method CreateProject(title: string, now: nat)
      modifies this, storage
      ensures projects == old(projects) + [NewProject(title, now)]
      ensures projects[|projects| - 1].title == title
      ensures projects[|projects| - 1].contentIdea.None? && projects[|projects| - 1].hook.None?
      ensures currentProject == Some(projects[|projects| - 1])
      ensures loading == old(loading) && error == old(error)
      ensures storage.items == if storage.hasWindow then old(storage.items)[ProjectsKey := Json(projects)]
                               else old(storage.items)
      ensures Persisted()
      ensures IndexOfId(old(projects), DecimalString(now)) == -1 ==> CurrentAgrees()
    {
      var p := NewProject(title, now);
      ghost var before := projects;
      projects := projects + [p];
      currentProject := Some(p);
      storage.SaveProjects(projects);
      if IndexOfId(before, p.id) == -1 {
        IndexOfKeyAfterAppend(before, ProjectId, p);
      }
    }

    /** `setCurrentProject(id)`: the first project with that id becomes current; an
        unknown id changes nothing. The list is never touched. */
    method SetCurrentProject(id: string)
      modifies this
      ensures projects == old(projects) && loading == old(loading) && error == old(error)
      ensures currentProject == if FindById(projects, id).Some? then FindById(projects, id) else old(currentProject)
      ensures FindById(projects, id).Some? ==> currentProject.value.id == id
      ensures old(CurrentAgrees()) ==> CurrentAgrees()
      ensures FindById(projects, id).Some? ==> CurrentAgrees()
    {
      var project := FindById(projects, id);
      if project.Some? {
        currentProject := project;
      }
    }

    /** `saveContentIdea(payload)`: without a current project, or when its id is no
        longer in the list, nothing changes; otherwise the first entry with the
        current id is replaced by the project with the new content idea, that project
        becomes current and the list is saved. */
    method SaveContentIdea(payload: ContentIdeaPayload, now: nat)
      modifies this, storage
      ensures loading == old(loading) && error == old(error)
      ensures old(currentProject).None? || IndexOfId(old(projects), old(currentProject).value.id) == -1 ==>
                projects == old(projects) && currentProject == old(currentProject)
                && storage.items == old(storage.items)
      ensures old(currentProject).Some? && IndexOfId(old(projects), old(currentProject).value.id) >= 0 ==>
                var i := IndexOfId(old(projects), old(currentProject).value.id);
                var updated := WithContentIdea(old(currentProject).value, payload, now);
                && projects == old(projects)[i := updated]
                && currentProject == Some(updated)
                && storage.items == (if storage.hasWindow then old(storage.items)[ProjectsKey := Json(projects)]
                                     else old(storage.items))
                && Persisted() && CurrentAgrees()
      ensures old(CurrentAgrees()) ==> CurrentAgrees()
      ensures old(Persisted()) ==> Persisted()
    {
      if currentProject.None? {
        return;
      }
      var current := currentProject.value;
      var updated := WithContentIdea(current, payload, now);
      var index := IndexOfId(projects, current.id);
      if index != -1 {
        IndexOfKeyAfterReplace(projects, ProjectId, index, updated);
        projects := projects[index := updated];
        currentProject := Some(updated);
        storage.SaveProjects(projects);
      }
    }

    /** `saveHook(payload)`: as `saveContentIdea`, attaching a hook record instead and
        leaving the content idea as it is. */
    method SaveHook(payload: HookPayload, now: nat)
      modifies this, storage
      ensures loading == old(loading) && error == old(error)
      ensures old(currentProject).None? || IndexOfId(old(projects), old(currentProject).value.id) == -1 ==>
                projects == old(projects) && currentProject == old(currentProject)
                && storage.items == old(storage.items)
      ensures old(currentProject).Some? && IndexOfId(old(projects), old(currentProject).value.id) >= 0 ==>
                var i := IndexOfId(old(projects), old(currentProject).value.id);
                var updated := WithHook(old(currentProject).value, payload, now);
                && projects == old(projects)[i := updated]
                && currentProject == Some(updated)
                && storage.items == (if storage.hasWindow then old(storage.items)[ProjectsKey := Json(projects)]
                                     else old(storage.items))
                && Persisted() && CurrentAgrees()
      ensures old(CurrentAgrees()) ==> CurrentAgrees()
      ensures old(Persisted()) ==> Persisted()
    {
      if currentProject.None? {
        return;
      }
      var current := currentProject.value;
      var updated := WithHook(current, payload, now);
      var index := IndexOfId(projects, current.id);
      if index != -1 {
        IndexOfKeyAfterReplace(projects, ProjectId, index, updated);
        projects := projects[index := updated];
        currentProject := Some(updated);
        storage.SaveProjects(projects);
      }
    }

    /** `setLoading(b)`: changes the flag and nothing else. */
    method SetLoading(b: bool)
      modifies this`loading
      ensures loading == b
    {
      loading := b;
    }

    /** `setError(message)`: changes the message and nothing else. */
    method SetError(message: Option<string>)
      modifies this`error
      ensures error == message
    {
      error := message;
    }
  }
}
