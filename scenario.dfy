/** Clients of `PromptStashApp` that rely on its contracts and on the
    functions of `Store` and `Seqs`. */
module Scenario {
  import opened Wrappers
  import opened Seqs
  import opened Text
  import opened Store
  import opened App

  /** Projects are kept in creation order, each with the colour picked for it. */
  method CreateTwoProjects(first: string, second: string, color: string)
    requires first != "" && Trim(first) == first
    requires second != "" && Trim(second) == second
  {
    var app := new PromptStashApp([], []);
    var ok := app.CreateProject(first, "w1", "t0");
    var work := Project("w1", first, DefaultColor, "t0");
    assert ok && app.savedProjects == [work];
    app.PickColor(color);
    ok := app.CreateProject(second, "h1", "t1");
    var home := Project("h1", second, color, "t1");
    assert ok && app.savedProjects == [work] + [home];
    assert app.selectedColor == DefaultColor;
  }

  /** An empty content is refused. */
  method RefuseEmptyContent(title: string, tags: string, project: string) {
    var app := new PromptStashApp([], []);
    var ok := app.AddPrompt(title, "", tags, project, "p0", "t2");
    assert !ok && app.savedPrompts == [];
  }

  /** A prompt with a title and content is appended as entered, filed under
      the chosen project. */
  method AddFiledPrompt(title: string, content: string, tags: string, project: string)
    requires title != "" && Trim(title) == title
    requires content != "" && Trim(content) == content
    requires project != ""
  {
    var app := new PromptStashApp([], []);
    var ok := app.AddPrompt(title, content, tags, project, "p1", "t3");
    var p := Prompt("p1", title, content, ParseTags(tags), Some(project), "t3");
    assert ok && app.savedPrompts == [] + [p];
    assert FindIndex(app.savedPrompts, "p1") == 0;
  }

  /** A prompt filed under a project shows in that project's view and not in
      the unassigned one. */
  method FilterByProject() {
    var todo := Prompt("p1", "Todo", "milk", ["errand"], Some("w1"), "t3");
    var app := new PromptStashApp([todo], [Project("w1", "Work", DefaultColor, "t0")]);
    assert [todo][1..] == [];
    var n := app.SelectProject("w1");
    assert app.GetFilteredPrompts() == [todo] && n == 1;
    n := app.SelectProject(UnassignedView);
    assert app.GetFilteredPrompts() == [] && n == 0;
  }

  /** Deleting the project being viewed unassigns its prompt, removes it from
      the sidebar and switches the view to "all". */
  method DeleteViewedProject() {
    var work := Project("w1", "Work", DefaultColor, "t0");
    var home := Project("h1", "Home", "#22C55E", "t1");
    var todo := Prompt("p1", "Todo", "milk", ["errand"], Some("w1"), "t3");
    var app := new PromptStashApp([todo], [work, home]);
    var n := app.SelectProject("w1");
    var project, count := app.DeleteProject("w1");
    assert project == Some(work) && count == 1;
    app.ConfirmDelete();
    assert app.currentProject == AllView;
    assert app.savedPrompts == [todo.(projectId := None)];
    assert [work, home][1..] == [home] && [home][1..] == [];
    assert Filter([home], NotId("w1")) == [home];
    assert RemoveProject([work, home], "w1") == [home];
    assert app.savedProjects == [home];
    assert app.GetFilteredPrompts() == app.savedPrompts;
  }
}
