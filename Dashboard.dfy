/** The create form of src/app/dashboard/page.tsx: the title input, the submit gate
    and `handleCreateProject`, which dispatches `createProject` of
    src/store/slices/projectsSlice.ts and then navigates.

    The navigation runs in a 100 ms `setTimeout` whose callback closes over the
    `projects` array of the render that handled the submit, that is, the list as it
    was before the dispatch. The timer is not modelled apart: the callback's whole
    input is that snapshot, so the handler returns the route it will push. */
module Dashboard {
  import opened Wrappers
  import opened Js
  import opened SlicesProjectsSlice
  import opened LocalStorageService

  const DashboardPrefix: string := "/dashboard/"

  /** The route of a project's page. */
  function ProjectPath(id: string): (r: string)
    ensures |r| == |DashboardPrefix| + |id|
    ensures r[..|DashboardPrefix|] == DashboardPrefix && r[|DashboardPrefix|..] == id
  {
    DashboardPrefix + id
  }

  /** Distinct ids have distinct routes. */
  lemma ProjectPathInjective(a: string, b: string)
    ensures ProjectPath(a) == ProjectPath(b) <==> a == b
  {
    if ProjectPath(a) == ProjectPath(b) {
      assert a == ProjectPath(a)[|DashboardPrefix|..];
    }
  }

  /** The timer callback: the route of the last project of `snapshot`, none when it
      is empty. */
  function NavigationTarget(snapshot: seq<Project>): (r: Option<string>)
    ensures r.None? <==> snapshot == []
    ensures r.Some? ==> exists i :: 0 <= i < |snapshot| && r.value == ProjectPath(snapshot[i].id)
    ensures r.Some? ==> r.value == ProjectPath(snapshot[|snapshot| - 1].id)
  {
    if snapshot == [] then None else Some(ProjectPath(snapshot[|snapshot| - 1].id))
  }

  /** The route the callback takes when given the list as it is after the dispatch:
      always the new project's. */
  lemma TargetAfterCreate(before: seq<Project>, title: string, now: nat)
    ensures NavigationTarget(before + [NewProject(title, now)]) == Some(ProjectPath(DecimalString(now)))
  {
  }

  /** The snapshot taken before the dispatch never leads to the new project: with an
      empty list there is no navigation at all, and otherwise the route is the
      previous last project's, which differs whenever that project's id differs from
      the new one. */
  lemma {:induction false} StaleTargetMissesNewProject(snapshot: seq<Project>, now: nat)
    requires snapshot == [] || snapshot[|snapshot| - 1].id != DecimalString(now)
    ensures NavigationTarget(snapshot) != Some(ProjectPath(DecimalString(now)))
  {
    if snapshot != [] {
      ProjectPathInjective(snapshot[|snapshot| - 1].id, DecimalString(now));
    }
  }

  /** A concrete case: one project created at time 1 is in the list; creating "X" at
      time 2 routes to project "1", not to the new project "2". */
  lemma StaleTargetExample()
    ensures NavigationTarget([NewProject("A", 1)]) == Some("/dashboard/1")
    ensures NewProject("X", 2).id == "2"
    ensures NavigationTarget([NewProject("A", 1)]) != Some(ProjectPath(NewProject("X", 2).id))
  {
    assert DecimalString(1) == "1";
    assert DecimalString(2) == "2";
    assert ProjectPath("1") == "/dashboard/1";
    StaleTargetMissesNewProject([NewProject("A", 1)], 2);
  }

  class DashboardPage {
    var newProjectTitle: string
    const store: ProjectsState

    constructor (store: ProjectsState)
      ensures this.store == store && newProjectTitle == ""
    {
      this.store := store;
      newProjectTitle := "";
    }

    method SetNewProjectTitle(s: string)
      modifies this`newProjectTitle
      ensures newProjectTitle == s
    {
      newProjectTitle := s;
    }

    /** `disabled={!newProjectTitle.trim()}`: the title is empty or all white space. */
    predicate SubmitDisabled()
      reads this
    {
      Trim(newProjectTitle) == ""
    }

    /** `handleCreateProject` as written: a blank title changes nothing; otherwise the
        untrimmed title is dispatched, the input is cleared and the route comes from
        the list as it was before the dispatch. */
    method HandleCreateProject(now: nat) returns (navigateTo: Option<string>)
      modifies this`newProjectTitle, store, store.storage
      ensures Trim(old(newProjectTitle)) == "" ==>
                && newProjectTitle == old(newProjectTitle)
                && store.projects == old(store.projects) && store.currentProject == old(store.currentProject)
                && store.storage.items == old(store.storage.items)
                && navigateTo == None
      ensures Trim(old(newProjectTitle)) != "" ==>
                && store.projects == old(store.projects) + [NewProject(old(newProjectTitle), now)]
                && store.currentProject == Some(NewProject(old(newProjectTitle), now))
                && store.Persisted()
                && store.storage.items == (if store.storage.hasWindow
                                           then old(store.storage.items)[ProjectsKey := Json(store.projects)]
                                           else old(store.storage.items))
                && newProjectTitle == ""
                && navigateTo == NavigationTarget(old(store.projects))
      ensures store.loading == old(store.loading) && store.error == old(store.error)
    {
      if Trim(newProjectTitle) == "" {
        return None;
      }
      var snapshot := store.projects;
      store.CreateProject(newProjectTitle, now);
      newProjectTitle := "";
      navigateTo := NavigationTarget(snapshot);
    }

    /** `handleCreateProject` as intended: the route is taken from the list after the
        dispatch, so it is always the new project's page. */
    method HandleCreateProjectFixed(now: nat) returns (navigateTo: Option<string>)
      modifies this`newProjectTitle, store, store.storage
      ensures Trim(old(newProjectTitle)) == "" ==>
                && newProjectTitle == old(newProjectTitle)
                && store.projects == old(store.projects) && store.currentProject == old(store.currentProject)
                && store.storage.items == old(store.storage.items)
                && navigateTo == None
      ensures Trim(old(newProjectTitle)) != "" ==>
                && store.projects == old(store.projects) + [NewProject(old(newProjectTitle), now)]
                && store.currentProject == Some(NewProject(old(newProjectTitle), now))
                && store.Persisted()
                && store.storage.items == (if store.storage.hasWindow
                                           then old(store.storage.items)[ProjectsKey := Json(store.projects)]
                                           else old(store.storage.items))
                && newProjectTitle == ""
                && navigateTo == Some(ProjectPath(store.currentProject.value.id))
      ensures store.loading == old(store.loading) && store.error == old(store.error)
    {
      if Trim(newProjectTitle) == "" {
        return None;
      }
      ghost var before := store.projects;
      store.CreateProject(newProjectTitle, now);
      newProjectTitle := "";
      TargetAfterCreate(before, old(newProjectTitle), now);
      navigateTo := NavigationTarget(store.projects);
    }
  }
}
