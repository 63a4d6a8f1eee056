/** The state machine of `PromptStashApp`: the two record lists, the view
    filter, the colour picked for the next project and the staged delete.
    Form fields and the identifiers and timestamps it would generate are
    parameters; rendering and persistence are not modelled. */
module App {
  import opened Wrappers
  import opened Seqs
  import opened Text
  import opened Store

  /** The colour a new project gets until another one is picked. */
  const DefaultColor: string := "#3B82F6"

  class PromptStashApp {
    var savedPrompts: seq<Prompt>
    var savedProjects: seq<Project>
    var currentProject: string
    var selectedColor: string
    var deleteTarget: Option<DeleteTarget>

    /** Ids are unique and every assigned prompt names an existing project. */
    ghost predicate Consistent()
      reads this
    {
      WellFormed(savedPrompts, savedProjects)
    }

    /** Starts from the lists persistence loaded (empty when nothing was stored). */
    constructor (storedPrompts: seq<Prompt>, storedProjects: seq<Project>)
      ensures savedPrompts == storedPrompts && savedProjects == storedProjects
      ensures currentProject == AllView && selectedColor == DefaultColor && deleteTarget == None
    {
      savedPrompts := storedPrompts;
      savedProjects := storedProjects;
      currentProject := AllView;
      selectedColor := DefaultColor;
      deleteTarget := None;
    }

    /** `addPrompt`: an empty trimmed title or content is refused and nothing
        changes; otherwise one prompt is appended at the end. */
    method AddPrompt(titleInput: string, contentInput: string, tagsInput: string,
                     projectInput: string, id: string, createdAt: string) returns (ok: bool)
      modifies this`savedPrompts
      ensures ok <==> Trim(titleInput) != "" && Trim(contentInput) != ""
      ensures !ok ==> savedPrompts == old(savedPrompts)
      ensures ok ==>
                savedPrompts == old(savedPrompts) +
                  [Prompt(id, Trim(titleInput), Trim(contentInput), ParseTags(tagsInput),
                          ProjectRef(projectInput), createdAt)]
      ensures ok && FreshPromptId(old(savedPrompts), id) ==> FindIndex(savedPrompts, id) == |old(savedPrompts)|
      ensures old(Consistent()) && FreshPromptId(old(savedPrompts), id) && Offered(savedProjects, projectInput) ==>
                Consistent()
    {
      var title := Trim(titleInput);
      var content := Trim(contentInput);
      var tags := ParseTags(tagsInput);
      var projectId := ProjectRef(projectInput);
      if title == "" || content == "" {
        return false;
      }
      var p := Prompt(id, title, content, tags, projectId, createdAt);
      if FreshPromptId(savedPrompts, id) {
        NewPromptIsFound(savedPrompts, p);
        if Consistent() && Offered(savedProjects, projectInput) {
          AppendPromptKeepsInvariants(savedPrompts, savedProjects, p, projectInput);
        }
      }
      savedPrompts := savedPrompts + [p];
      ok := true;
    }

    /** `createProject`: an empty trimmed name is refused and nothing changes;
        otherwise one project with the picked colour is appended and the
        colour goes back to the default. */
    method CreateProject(nameInput: string, id: string, createdAt: string) returns (ok: bool)
      modifies this`savedProjects, this`selectedColor
      ensures ok <==> Trim(nameInput) != ""
      ensures !ok ==> savedProjects == old(savedProjects) && selectedColor == old(selectedColor)
      ensures ok ==> savedProjects == old(savedProjects) +
                       [Project(id, Trim(nameInput), old(selectedColor), createdAt)]
      ensures ok ==> selectedColor == DefaultColor
      ensures old(Consistent()) && FreshProjectId(old(savedProjects), id) ==> Consistent()
    {
      var name := Trim(nameInput);
      if name == "" {
        return false;
      }
      var project := Project(id, name, selectedColor, createdAt);
      if Consistent() && FreshProjectId(savedProjects, id) {
        AppendProjectKeepsInvariants(savedPrompts, savedProjects, project);
      }
      savedProjects := savedProjects + [project];
      selectedColor := DefaultColor;
      ok := true;
    }

    /** A click on a colour option in the new-project dialog picks that colour
        for the next project. */
    method PickColor(color: string)
      modifies this`selectedColor
      ensures selectedColor == color
    {
      selectedColor := color;
    }

    /** Cancelling the new-project dialog, by its button or by a click outside
        it, resets the form: the picked colour goes back to the default.
        Nothing else in the model's state changes. */
    method CancelNewProject()
      modifies this`selectedColor
      ensures selectedColor == DefaultColor
    {
      selectedColor := DefaultColor;
    }

    /** A click on a card's delete button stages the prompt at the position
        that button carries. */
    method StagePromptDelete(index: int)
      modifies this`deleteTarget
      ensures deleteTarget == Some(PromptTarget(index))
    {
      deleteTarget := Some(PromptTarget(index));
    }

    /** `deleteProject`: stages the project, and reports the project found
        under that id and the number of its prompts the cascade will unassign. */
    method DeleteProject(projectId: string) returns (project: Option<Project>, promptCount: nat)
      modifies this`deleteTarget
      ensures deleteTarget == Some(ProjectTarget(projectId))
      ensures project == FindProject(savedProjects, projectId)
      ensures promptCount == ProjectPromptCount(savedPrompts, projectId)
      ensures promptCount == |FilteredPrompts(savedPrompts, projectId)| ||
              projectId == AllView || projectId == UnassignedView
    {
      deleteTarget := Some(ProjectTarget(projectId));
      project := FindProject(savedProjects, projectId);
      promptCount := |Filter(savedPrompts, BelongsTo(projectId))|;
    }

    /** `selectProject`, state part: sets the view filter and reports the
        count the header shows, which is the number of cards in that view. */
    method SelectProject(projectId: string) returns (count: nat)
      modifies this`currentProject
      ensures currentProject == projectId
      ensures count == |FilteredPrompts(savedPrompts, projectId)|
    {
      currentProject := projectId;
      if projectId == AllView {
        count := |savedPrompts|;
      } else if projectId == UnassignedView {
        count := |Filter(savedPrompts, IsUnassigned)|;
      } else {
        count := |Filter(savedPrompts, BelongsTo(projectId))|;
      }
    }

    /** `confirmDelete`: removes the staged prompt by position, or removes the
        staged project, unassigns its prompts and, when it was being viewed,
        switches the view to "all". The staged target stays staged. */
    method ConfirmDelete()
      requires deleteTarget.Some?
      modifies this`savedPrompts, this`savedProjects, this`currentProject
      ensures deleteTarget.value.PromptTarget? ==>
                savedPrompts == SpliceOne(old(savedPrompts), deleteTarget.value.index) &&
                savedProjects == old(savedProjects) && currentProject == old(currentProject)
      ensures deleteTarget.value.ProjectTarget? ==>
                savedProjects == RemoveProject(old(savedProjects), deleteTarget.value.id) &&
                savedPrompts == Unassign(old(savedPrompts), deleteTarget.value.id) &&
                currentProject == (if old(currentProject) == deleteTarget.value.id then AllView
                                   else old(currentProject))
      ensures old(Consistent()) ==> Consistent()
    {
      match deleteTarget.value {
        case PromptTarget(i) =>
          var n := |savedPrompts|;
          var k := if i >= 0 then i else if n + i < 0 then 0 else n + i;
          if k < n {
            if Consistent() {
              RemovePromptKeepsInvariants(savedPrompts, savedProjects, k);
            }
            savedPrompts := savedPrompts[..k] + savedPrompts[k + 1..];
          }
        case ProjectTarget(pid) =>
          ghost var wasConsistent := Consistent();
          if wasConsistent {
            CascadeKeepsReferences(savedPrompts, savedProjects, pid);
            RemoveProjectKeepsUnique(savedProjects, pid);
          }
          savedProjects := RemoveProject(savedProjects, pid);
          UnassignPrompts(pid);
          if currentProject == pid {
            var _ := SelectProject(AllView);
          }
      }
    }

    /** The `forEach` of `confirmDelete` that sets `projectId` to null on
        every prompt of the deleted project, one prompt at a time. */
    method UnassignPrompts(pid: string)
      modifies this`savedPrompts
      ensures savedPrompts == Unassign(old(savedPrompts), pid)
    {
      var i := 0;
      while i < |savedPrompts|
        invariant 0 <= i <= |savedPrompts| == |old(savedPrompts)|
        invariant forall k :: 0 <= k < i ==>
                    savedPrompts[k] == (if old(savedPrompts)[k].projectId == Some(pid)
                                        then old(savedPrompts)[k].(projectId := None)
                                        else old(savedPrompts)[k])
        invariant forall k :: i <= k < |savedPrompts| ==> savedPrompts[k] == old(savedPrompts)[k]
      {
        if savedPrompts[i].projectId == Some(pid) {
          savedPrompts := savedPrompts[i := savedPrompts[i].(projectId := None)];
        }
        i := i + 1;
      }
    }

    /** `getFilteredPrompts`: the cards of the current view are stored
        prompts, and a stored prompt is a card exactly when the view shows it. */
    function GetFilteredPrompts(): (shown: seq<Prompt>)
      reads this
      ensures |shown| <= |savedPrompts|
      ensures forall p :: p in shown <==> p in savedPrompts && Shows(currentProject, p)
    {
      var r := FilteredPrompts(savedPrompts, currentProject);
      assert forall p :: p in r <==> p in savedPrompts && Shows(currentProject, p) by {
        forall p ensures p in r <==> p in savedPrompts && Shows(currentProject, p) {
          ViewMembership(savedPrompts, currentProject, p);
        }
      }
      r
    }

    /** The badges `updateCounts` sets: all prompts, and the unassigned ones,
        which are the cards of the "unassigned" view. */
    method UpdateCounts() returns (allCount: nat, unassignedCount: nat)
      ensures allCount == |FilteredPrompts(savedPrompts, AllView)|
      ensures unassignedCount == |FilteredPrompts(savedPrompts, UnassignedView)|
    {
      allCount := |savedPrompts|;
      unassignedCount := |Filter(savedPrompts, IsUnassigned)|;
    }

    /** The per-project counts `renderProjects` shows, one per project in
        sidebar order; in a consistent store they add up, with the unassigned
        badge, to the number of prompts. */
    method SidebarCounts() returns (counts: seq<nat>)
      ensures counts == ProjectCounts(savedPrompts, savedProjects)
      ensures Consistent() && NoEmptyProjectId(savedProjects) ==>
                UnassignedCount(savedPrompts) + Sum(counts) == |savedPrompts|
    {
      counts := [];
      var j := 0;
      while j < |savedProjects|
        invariant 0 <= j <= |savedProjects| && |counts| == j
        invariant forall i :: 0 <= i < j ==> counts[i] == ProjectPromptCount(savedPrompts, savedProjects[i].id)
      {
        counts := counts + [|Filter(savedPrompts, BelongsTo(savedProjects[j].id))|];
        j := j + 1;
      }
      if Consistent() && NoEmptyProjectId(savedProjects) {
        CountsAddUp(savedPrompts, savedProjects);
      }
    }
  }
}
