/** The records `PromptStashApp` keeps, the views and counts it derives from
    them, and the changes a confirmed delete makes to them. */
module Store {
  import opened Wrappers
  import opened Seqs

  /** The two reserved values of the view filter `currentProject`. */
  const AllView: string := "all"
  const UnassignedView: string := "unassigned"

  datatype Prompt = Prompt(
    id: string,
    title: string,
    content: string,
    tags: seq<string>,
    projectId: Option<string>,
    createdAt: string)

  datatype Project = Project(id: string, name: string, color: string, createdAt: string)

  /** What the delete-confirmation dialog will delete: a prompt by its
      position in `savedPrompts`, or a project by its id. */
  datatype DeleteTarget = PromptTarget(index: int) | ProjectTarget(id: string)

  /** `!prompt.projectId`: no project, or the empty string. */
  predicate IsUnassigned(p: Prompt) {
    p.projectId == None || p.projectId == Some("")
  }

  /** `prompt => prompt.projectId === pid` */
  function BelongsTo(pid: string): Prompt -> bool {
    (p: Prompt) => p.projectId == Some(pid)
  }

  /** `p => p.id !== pid` */
  function NotId(pid: string): Project -> bool {
    (p: Project) => p.id != pid
  }

  // ---------------------------------------------------------------- views

  /** `getFilteredPrompts` for the filter value `view`. */
  function FilteredPrompts(prompts: seq<Prompt>, view: string): (r: seq<Prompt>)
    ensures |r| <= |prompts|
  {
    if view == AllView then prompts
    else if view == UnassignedView then Filter(prompts, IsUnassigned)
    else Filter(prompts, BelongsTo(view))
  }

  /** Whether the view `view` shows the prompt `p`. */
  predicate Shows(view: string, p: Prompt) {
    if view == AllView then true
    else if view == UnassignedView then IsUnassigned(p)
    else p.projectId == Some(view)
  }

  /** A view is exactly the prompts it shows, in the order of `prompts`:
      `idx` lists their positions, ascending, and misses none of them.
      For "all" that is every prompt; for "unassigned" the prompts without a
      project; otherwise the prompts of that project. */
  lemma {:induction false} ViewSelects(prompts: seq<Prompt>, view: string) returns (idx: seq<nat>)
    ensures |idx| == |FilteredPrompts(prompts, view)|
    ensures StrictlyIncreasing(idx)
    ensures forall k :: 0 <= k < |idx| ==>
              idx[k] < |prompts| && Shows(view, prompts[idx[k]]) &&
              FilteredPrompts(prompts, view)[k] == prompts[idx[k]]
    ensures forall j :: 0 <= j < |prompts| && Shows(view, prompts[j]) ==> j in idx
  {
    if view == AllView {
      idx := seq(|prompts|, k requires 0 <= k < |prompts| => k);
      forall j | 0 <= j < |prompts| ensures j in idx {
        assert idx[j] == j;
      }
    } else if view == UnassignedView {
      idx := FilterSelects(prompts, IsUnassigned);
    } else {
      idx := FilterSelects(prompts, BelongsTo(view));
    }
  }

  /** A prompt is in a view exactly when it is stored and the view shows it. */
  lemma {:induction false} ViewMembership(prompts: seq<Prompt>, view: string, p: Prompt)
    ensures p in FilteredPrompts(prompts, view) <==> p in prompts && Shows(view, p)
  {
    if view == UnassignedView {
      FilterKeeps(prompts, IsUnassigned, p);
    } else if view != AllView {
      FilterKeeps(prompts, BelongsTo(view), p);
    }
  }

  // --------------------------------------------------------------- counts

  /** The unassigned badge: `savedPrompts.filter(p => !p.projectId).length`. */
  function UnassignedCount(prompts: seq<Prompt>): (n: nat)
    ensures n <= |prompts|
  {
    |Filter(prompts, IsUnassigned)|
  }

  /** The per-project count: `savedPrompts.filter(p => p.projectId === pid).length`. */
  function ProjectPromptCount(prompts: seq<Prompt>, pid: string): (n: nat)
    ensures n <= |prompts|
  {
    |Filter(prompts, BelongsTo(pid))|
  }

  /** The sidebar counts of `projects`, in sidebar order. */
  function ProjectCounts(prompts: seq<Prompt>, projects: seq<Project>): (counts: seq<nat>)
    ensures |counts| == |projects|
    ensures forall j :: 0 <= j < |projects| ==>
              counts[j] == ProjectPromptCount(prompts, projects[j].id)
  {
    if projects == [] then []
    else [ProjectPromptCount(prompts, projects[0].id)] + ProjectCounts(prompts, projects[1..])
  }

  function Sum(xs: seq<nat>): nat {
    if xs == [] then 0 else xs[0] + Sum(xs[1..])
  }

  // ------------------------------------------------------------ invariants

  ghost predicate HasProject(projects: seq<Project>, pid: string) {
    exists j :: 0 <= j < |projects| && projects[j].id == pid
  }

  /** Every assigned prompt names a project that exists. */
  ghost predicate NoDangling(prompts: seq<Prompt>, projects: seq<Project>) {
    forall k :: 0 <= k < |prompts| && !IsUnassigned(prompts[k]) ==>
      HasProject(projects, prompts[k].projectId.value)
  }

  ghost predicate UniquePromptIds(prompts: seq<Prompt>) {
    forall a, b :: 0 <= a < b < |prompts| ==> prompts[a].id != prompts[b].id
  }

  ghost predicate UniqueProjectIds(projects: seq<Project>) {
    forall a, b :: 0 <= a < b < |projects| ==> projects[a].id != projects[b].id
  }

  /** No stored prompt has the id `id` yet. */
  ghost predicate FreshPromptId(prompts: seq<Prompt>, id: string) {
    forall k :: 0 <= k < |prompts| ==> prompts[k].id != id
  }

  /** No stored project has the id `id` yet. */
  ghost predicate FreshProjectId(projects: seq<Project>, id: string) {
    forall j :: 0 <= j < |projects| ==> projects[j].id != id
  }

  /** The project selector offers "Unassigned" (the empty value) and every project. */
  ghost predicate Offered(projects: seq<Project>, selected: string) {
    selected == "" || HasProject(projects, selected)
  }

  /** No project has the empty id (which `!prompt.projectId` reads as none). */
  ghost predicate NoEmptyProjectId(projects: seq<Project>) {
    forall j :: 0 <= j < |projects| ==> projects[j].id != ""
  }

  /** The store's invariant: unique ids and no dangling project reference. */
  ghost predicate WellFormed(prompts: seq<Prompt>, projects: seq<Project>) {
    UniquePromptIds(prompts) && UniqueProjectIds(projects) && NoDangling(prompts, projects)
  }

  /** The number of sidebar counts a prompt contributes to. */
  function Hits(p: Prompt, projects: seq<Project>): nat {
    if projects == [] then 0
    else (if p.projectId == Some(projects[0].id) then 1 else 0) + Hits(p, projects[1..])
  }

  lemma {:induction false} HitsNone(p: Prompt, projects: seq<Project>)
    requires forall j :: 0 <= j < |projects| ==> p.projectId != Some(projects[j].id)
    ensures Hits(p, projects) == 0
  {
    if projects != [] {
      HitsNone(p, projects[1..]);
    }
  }

  lemma {:induction false} HitsOne(p: Prompt, projects: seq<Project>)
    requires UniqueProjectIds(projects)
    requires p.projectId.Some? && HasProject(projects, p.projectId.value)
    ensures Hits(p, projects) == 1
  {
    if p.projectId == Some(projects[0].id) {
      HitsNone(p, projects[1..]);
    } else {
      var j :| 0 <= j < |projects| && projects[j].id == p.projectId.value;
      assert projects[1..][j - 1] == projects[j];
      HitsOne(p, projects[1..]);
    }
  }

  lemma {:induction false} CountsCons(p: Prompt, rest: seq<Prompt>, projects: seq<Project>)
    ensures Sum(ProjectCounts([p] + rest, projects)) == Hits(p, projects) + Sum(ProjectCounts(rest, projects))
  {
    if projects != [] {
      CountsCons(p, rest, projects[1..]);
      var s := [p] + rest;
      assert s[0] == p && s[1..] == rest;
      assert ProjectPromptCount(s, projects[0].id) ==
        (if p.projectId == Some(projects[0].id) then 1 else 0) + ProjectPromptCount(rest, projects[0].id);
    }
  }

  /** The counts add up: when every assigned prompt names an existing project,
      project ids are unique and none is empty, the unassigned badge plus the
      sidebar counts equal the "all" badge. */
  lemma {:induction false} CountsAddUp(prompts: seq<Prompt>, projects: seq<Project>)
    requires NoDangling(prompts, projects)
    requires UniqueProjectIds(projects) && NoEmptyProjectId(projects)
    ensures UnassignedCount(prompts) + Sum(ProjectCounts(prompts, projects)) == |prompts|
  {
    if prompts == [] {
      CountsOfNoPrompts(projects);
    } else {
      var p, rest := prompts[0], prompts[1..];
      assert prompts == [p] + rest;
      assert NoDangling(rest, projects) by {
        forall k | 0 <= k < |rest| && !IsUnassigned(rest[k])
          ensures HasProject(projects, rest[k].projectId.value)
        {
          assert rest[k] == prompts[k + 1];
        }
      }
      CountsAddUp(rest, projects);
      CountsCons(p, rest, projects);
      if IsUnassigned(p) {
        forall j | 0 <= j < |projects| ensures p.projectId != Some(projects[j].id) {
        }
        HitsNone(p, projects);
      } else {
        assert !IsUnassigned(prompts[0]);
        HitsOne(p, projects);
      }
    }
  }

  lemma {:induction false} CountsOfNoPrompts(projects: seq<Project>)
    ensures Sum(ProjectCounts([], projects)) == 0
  {
    if projects != [] {
      CountsOfNoPrompts(projects[1..]);
    }
  }

  // ------------------------------------------------------- confirmed delete

  /** Removing project `pid` from the project list (`savedProjects.filter`). */
  function RemoveProject(projects: seq<Project>, pid: string): (r: seq<Project>)
    ensures |r| <= |projects|
  {
    Filter(projects, NotId(pid))
  }

  /** The removal keeps every other project, in order, and no project with id
      `pid`: `idx` lists the positions of the projects kept. */
  lemma {:induction false} RemoveProjectKeepsOthers(projects: seq<Project>, pid: string) returns (idx: seq<nat>)
    ensures forall x :: x in RemoveProject(projects, pid) <==> x in projects && x.id != pid
    ensures |idx| == |RemoveProject(projects, pid)| && StrictlyIncreasing(idx)
    ensures forall k :: 0 <= k < |idx| ==>
              idx[k] < |projects| && RemoveProject(projects, pid)[k] == projects[idx[k]]
    ensures forall j :: 0 <= j < |projects| && projects[j].id != pid ==> j in idx
  {
    forall x ensures x in RemoveProject(projects, pid) <==> x in projects && x.id != pid {
      FilterKeeps(projects, NotId(pid), x);
    }
    idx := FilterSelects(projects, NotId(pid));
  }

  /** The `forEach` that unassigns the prompts of the deleted project `pid`:
      no prompt refers to `pid` any more, a prompt that did loses only its
      project, and every other prompt is untouched. */
  function Unassign(prompts: seq<Prompt>, pid: string): (r: seq<Prompt>)
    ensures |r| == |prompts|
    ensures forall k :: 0 <= k < |r| ==> r[k].projectId != Some(pid)
    ensures forall k :: 0 <= k < |r| && prompts[k].projectId != Some(pid) ==> r[k] == prompts[k]
    ensures forall k :: 0 <= k < |r| && prompts[k].projectId == Some(pid) ==>
              r[k] == prompts[k].(projectId := None)
  {
    if prompts == [] then []
    else
      var p := prompts[0];
      [if p.projectId == Some(pid) then p.(projectId := None) else p] + Unassign(prompts[1..], pid)
  }

  /** The number of positions at which two equally long lists differ. */
  function Changed(before: seq<Prompt>, after: seq<Prompt>): nat
    requires |before| == |after|
  {
    if before == [] then 0
    else (if before[0] != after[0] then 1 else 0) + Changed(before[1..], after[1..])
  }

  /** The count in the delete-confirmation message (and in the sidebar) is the
      number of prompts the cascade changes. */
  lemma {:induction false} CascadeChangesAnnouncedCount(prompts: seq<Prompt>, pid: string)
    ensures Changed(prompts, Unassign(prompts, pid)) == ProjectPromptCount(prompts, pid)
  {
    if prompts != [] {
      CascadeChangesAnnouncedCount(prompts[1..], pid);
      var r := Unassign(prompts, pid);
      assert r[1..] == Unassign(prompts[1..], pid);
    }
  }

  /** After the cascade the deleted project's view is empty. */
  lemma {:induction false} CascadeEmptiesView(prompts: seq<Prompt>, pid: string)
    ensures Filter(Unassign(prompts, pid), BelongsTo(pid)) == []
    ensures ProjectPromptCount(Unassign(prompts, pid), pid) == 0
  {
    if prompts != [] {
      CascadeEmptiesView(prompts[1..], pid);
      var r := Unassign(prompts, pid);
      assert r[1..] == Unassign(prompts[1..], pid);
    }
  }

  /** After the cascade the view of any other project is what it was. */
  lemma {:induction false} CascadeKeepsOtherViews(prompts: seq<Prompt>, pid: string, q: string)
    requires q != pid
    ensures Filter(Unassign(prompts, pid), BelongsTo(q)) == Filter(prompts, BelongsTo(q))
    ensures ProjectPromptCount(Unassign(prompts, pid), q) == ProjectPromptCount(prompts, q)
  {
    if prompts != [] {
      CascadeKeepsOtherViews(prompts[1..], pid, q);
      var r := Unassign(prompts, pid);
      assert r[1..] == Unassign(prompts[1..], pid);
    }
  }

  /** The cascade adds the deleted project's prompts to the unassigned badge
      (for the empty id they were counted as unassigned already). */
  lemma {:induction false} CascadeGrowsUnassigned(prompts: seq<Prompt>, pid: string)
    ensures UnassignedCount(Unassign(prompts, pid)) ==
            UnassignedCount(prompts) + (if pid == "" then 0 else ProjectPromptCount(prompts, pid))
  {
    if prompts != [] {
      CascadeGrowsUnassigned(prompts[1..], pid);
      var r := Unassign(prompts, pid);
      assert r[1..] == Unassign(prompts[1..], pid);
    }
  }

  /** Deleting project `pid` with its cascade leaves no dangling reference. */
  lemma {:induction false} CascadeKeepsReferences(prompts: seq<Prompt>, projects: seq<Project>, pid: string)
    requires NoDangling(prompts, projects)
    ensures NoDangling(Unassign(prompts, pid), RemoveProject(projects, pid))
  {
    var r := Unassign(prompts, pid);
    var kept := RemoveProject(projects, pid);
    forall k | 0 <= k < |r| && !IsUnassigned(r[k]) ensures HasProject(kept, r[k].projectId.value) {
      assert r[k] == prompts[k];
      var v := r[k].projectId.value;
      var j :| 0 <= j < |projects| && projects[j].id == v;
      FilterKeeps(projects, NotId(pid), projects[j]);
      var i :| 0 <= i < |kept| && kept[i] == projects[j];
    }
  }

  lemma {:induction false} RemoveProjectKeepsUnique(projects: seq<Project>, pid: string)
    requires UniqueProjectIds(projects)
    ensures UniqueProjectIds(RemoveProject(projects, pid))
  {
    var idx := RemoveProjectKeepsOthers(projects, pid);
  }

  lemma {:induction false} RemovePromptKeepsInvariants(prompts: seq<Prompt>, projects: seq<Project>, i: nat)
    requires i < |prompts|
    requires NoDangling(prompts, projects) && UniquePromptIds(prompts)
    ensures NoDangling(RemoveAt(prompts, i), projects) && UniquePromptIds(RemoveAt(prompts, i))
  {
    var r := RemoveAt(prompts, i);
    forall a, b | 0 <= a < b < |r| ensures r[a].id != r[b].id {
      var a' := if a < i then a else a + 1;
      var b' := if b < i then b else b + 1;
      assert r[a] == prompts[a'] && r[b] == prompts[b'];
    }
    forall k | 0 <= k < |r| && !IsUnassigned(r[k]) ensures HasProject(projects, r[k].projectId.value) {
      var k' := if k < i then k else k + 1;
      assert r[k] == prompts[k'];
    }
  }

  // ------------------------------------------------------------- creation

  /** `value || null` on the project selector: the empty choice is no project. */
  function ProjectRef(selected: string): (r: Option<string>)
    ensures r == None <==> selected == ""
    ensures r.Some? ==> r.value == selected
  {
    if selected == "" then None else Some(selected)
  }

  /** A new prompt keeps the invariant when its id is fresh and its project
      is one the selector offers: none, or an existing project. */
  lemma {:induction false} AppendPromptKeepsInvariants(prompts: seq<Prompt>, projects: seq<Project>, p: Prompt, selected: string)
    requires WellFormed(prompts, projects)
    requires FreshPromptId(prompts, p.id)
    requires p.projectId == ProjectRef(selected) && Offered(projects, selected)
    ensures WellFormed(prompts + [p], projects)
  {
    var s := prompts + [p];
    forall k | 0 <= k < |s| && !IsUnassigned(s[k]) ensures HasProject(projects, s[k].projectId.value) {
      if k < |prompts| {
        assert s[k] == prompts[k];
      }
    }
  }

  /** A new project keeps the invariant when its id is fresh. */
  lemma {:induction false} AppendProjectKeepsInvariants(prompts: seq<Prompt>, projects: seq<Project>, q: Project)
    requires WellFormed(prompts, projects)
    requires FreshProjectId(projects, q.id)
    ensures WellFormed(prompts, projects + [q])
  {
    var s := projects + [q];
    forall k | 0 <= k < |prompts| && !IsUnassigned(prompts[k])
      ensures HasProject(s, prompts[k].projectId.value)
    {
      var j :| 0 <= j < |projects| && projects[j].id == prompts[k].projectId.value;
      assert s[j] == projects[j];
    }
  }

  // ------------------------------------------------------ finding by id

  /** `prompts.findIndex(p => p.id === id)`: the first position holding that
      id, or -1 when there is none. */
  function FindIndex(prompts: seq<Prompt>, id: string): (r: int)
    ensures -1 <= r < |prompts|
    ensures r == -1 <==> forall k :: 0 <= k < |prompts| ==> prompts[k].id != id
    ensures r >= 0 ==> prompts[r].id == id && forall k :: 0 <= k < r ==> prompts[k].id != id
  {
    if prompts == [] then -1
    else if prompts[0].id == id then 0
    else
      var t := FindIndex(prompts[1..], id);
      assert forall k :: 1 <= k < |prompts| ==> prompts[k] == prompts[1..][k - 1];
      if t == -1 then -1 else t + 1
  }

  /** `savedProjects.find(p => p.id === id)`: the first project with that id. */
  function FindProject(projects: seq<Project>, id: string): (r: Option<Project>)
    ensures r == None <==> forall j :: 0 <= j < |projects| ==> projects[j].id != id
    ensures r != None ==> r.value.id == id
    ensures r != None ==> exists j :: 0 <= j < |projects| && projects[j] == r.value &&
                                      (forall i :: 0 <= i < j ==> projects[i].id != id)
  {
    if projects == [] then None
    else if projects[0].id == id then Some(projects[0])
    else
      var t := FindProject(projects[1..], id);
      assert forall k :: 1 <= k < |projects| ==> projects[k] == projects[1..][k - 1];
      t
  }

  /** The `data-id` of the delete button on each card of a view: the card's
      position in the full list, found by its id. */
  function CardIndices(prompts: seq<Prompt>, view: string): (r: seq<int>)
    ensures |r| == |FilteredPrompts(prompts, view)|
    ensures forall k :: 0 <= k < |r| ==> -1 <= r[k] < |prompts|
  {
    var shown := FilteredPrompts(prompts, view);
    seq(|shown|, k requires 0 <= k < |shown| => FindIndex(prompts, shown[k].id))
  }

  /** With unique ids, the delete button of the k-th card of any view holds
      the position of exactly that prompt in the full list, so splicing at it
      removes that prompt and no other. */
  lemma {:induction false} CardDeletesItsPrompt(prompts: seq<Prompt>, view: string, k: nat)
    requires UniquePromptIds(prompts)
    requires k < |FilteredPrompts(prompts, view)|
    ensures 0 <= CardIndices(prompts, view)[k] < |prompts|
    ensures prompts[CardIndices(prompts, view)[k]] == FilteredPrompts(prompts, view)[k]
    ensures multiset(SpliceOne(prompts, CardIndices(prompts, view)[k])) ==
            multiset(prompts) - multiset{FilteredPrompts(prompts, view)[k]}
  {
    var p := FilteredPrompts(prompts, view)[k];
    ViewMembership(prompts, view, p);
    var j :| 0 <= j < |prompts| && prompts[j] == p;
    var i := FindIndex(prompts, p.id);
    assert CardIndices(prompts, view)[k] == i;
    assert i == j;
    var r := SpliceOne(prompts, i);
    assert r == RemoveAt(prompts, i);
    assert multiset(r) + multiset{p} == multiset(prompts);
  }

  /** A prompt with a fresh id is found, after it is appended, at the end. */
  lemma {:induction false} NewPromptIsFound(prompts: seq<Prompt>, p: Prompt)
    requires FreshPromptId(prompts, p.id)
    ensures FindIndex(prompts + [p], p.id) == |prompts|
  {
    var s := prompts + [p];
    var r := FindIndex(s, p.id);
    assert s[|prompts|] == p;
    assert forall k :: 0 <= k < |prompts| ==> s[k].id != p.id by {
      forall k | 0 <= k < |prompts| ensures s[k].id != p.id {
        assert s[k] == prompts[k];
      }
    }
  }
}
