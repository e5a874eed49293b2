/** The browser's `localStorage` and the service in src/lib/localStorageService.ts
    that saves and loads the project list and the current project id under two keys.

    localStorage holds strings. A string written by `JSON.stringify(list)` is
    represented by the list itself (`Json(list)`), so `JSON.parse` of it gives the
    list back; any other string is `Text(s)`. */
module LocalStorageService {
  import opened Wrappers

  const ProjectsKey: string := "vcw_projects"
  const CurrentProjectKey: string := "vcw_current_project"

  /** A value held under one key. */
  datatype Item<P> = Text(text: string) | Json(list: seq<P>)

  /** What `JSON.parse` throws on a stored string that is not a serialised list. */
  datatype LoadError = ParseError

  class LocalStorage<P> {
    /** `typeof window !== "undefined"`: false while rendering on the server. */
    const hasWindow: bool
    var items: map<string, Item<P>>

    constructor (hasWindow: bool, items: map<string, Item<P>>)
      ensures this.hasWindow == hasWindow && this.items == items
    {
      this.hasWindow := hasWindow;
      this.items := items;
    }

    /** `localStorage.getItem(key)`: `null` for a key never written. */
    function GetItem(key: string): (r: Option<Item<P>>)
      reads this
      ensures r.None? <==> key !in items
      ensures r.Some? ==> r.value == items[key]
    {
      if key in items then Some(items[key]) else None
    }

    /** `localStorage.setItem(key, value)`: writes one key and no other. */
    method SetItem(key: string, item: Item<P>)
      modifies this
      ensures items == old(items)[key := item]
      ensures forall k :: k != key ==> GetItem(k) == old(GetItem(k))
      ensures GetItem(key) == Some(item)
    {
      items := items[key := item];
    }

    /** `saveProjects(projects)`: without a window, nothing is written. */
    method SaveProjects(projects: seq<P>)
      modifies this
      ensures items == if hasWindow then old(items)[ProjectsKey := Json(projects)] else old(items)
      ensures hasWindow ==> LoadProjects() == Ok(projects)
      ensures LoadCurrentProject() == old(LoadCurrentProject())
    {
      if hasWindow {
        SetItem(ProjectsKey, Json(projects));
      }
    }

    /** `loadProjects()`: `[]` without a window, for a key never written and for the
        empty string; the stored list for a serialised list; `JSON.parse` throws on
        any other text, and nothing here catches it. */
    function LoadProjects(): (r: Result<seq<P>, LoadError>)
      reads this
      ensures !hasWindow ==> r == Ok([])
      ensures hasWindow && ProjectsKey !in items ==> r == Ok([])
      ensures hasWindow && ProjectsKey in items && items[ProjectsKey].Json? ==> r == Ok(items[ProjectsKey].list)
      ensures hasWindow && GetItem(ProjectsKey) == Some(Text("")) ==> r == Ok([])
      ensures r.Err? <==> hasWindow && GetItem(ProjectsKey).Some? && GetItem(ProjectsKey).value.Text?
                          && GetItem(ProjectsKey).value.text != ""
    {
      if !hasWindow then Ok([])
      else
        match GetItem(ProjectsKey)
        case None => Ok([])
        case Some(Text(s)) => if s == "" then Ok([]) else Err(ParseError)
        case Some(Json(list)) => Ok(list)
    }

    /** `loadProjects()` wrapped in `try { … } catch { return []; }`, as both store
        slices do: a parse failure reads as an empty list. */
    function LoadProjectsOrEmpty(): (r: seq<P>)
      reads this
      ensures LoadProjects().Ok? ==> r == LoadProjects().value
      ensures LoadProjects().Err? ==> r == []
    {
      match LoadProjects()
      case Ok(ps) => ps
      case Err(_) => []
    }

    /** `saveCurrentProject(projectId)`: stores the id as it is (no JSON encoding). */
    method SaveCurrentProject(projectId: string)
      modifies this
      ensures items == if hasWindow then old(items)[CurrentProjectKey := Text(projectId)] else old(items)
      ensures hasWindow ==> LoadCurrentProject() == Some(Text(projectId))
      ensures LoadProjects() == old(LoadProjects())
    {
      if hasWindow {
        SetItem(CurrentProjectKey, Text(projectId));
      }
    }

    /** `loadCurrentProject()`: whatever `getItem` returns for the current-project key,
        `null` without a window or when the key was never written. */
    function LoadCurrentProject(): (r: Option<Item<P>>)
      reads this
      ensures !hasWindow ==> r == None
      ensures hasWindow ==> r == GetItem(CurrentProjectKey)
      ensures r.None? <==> !hasWindow || CurrentProjectKey !in items
    {
      if hasWindow then GetItem(CurrentProjectKey) else None
    }
  }

  /** The two keys are distinct, so each save leaves the other key's value alone. */
  lemma KeysDistinct()
    ensures ProjectsKey != CurrentProjectKey
  {
    assert ProjectsKey[4] != CurrentProjectKey[4];
  }
}
