/**
 * The `list_templates` management command: it lists the template files of every
 * app template directory, then those found from the project's `DIRS` setting,
 * which it passes on as a single argument (the whole list).
 */
module ListTemplates {
  import opened Builtins
  import opened Templates

  /**
   * What `handle()` collects: the app directories' templates in order, then those of
   * a walk from `str(DIRS)`, the text of the whole list rather than any one of its paths.
   */
  function HandleTemplates(tree: Tree, appTemplateDirs: seq<string>, dirs: seq<string>): seq<string> {
    RootsTemplates(tree, appTemplateDirs) + WalkTemplates(WalkFrom(tree, ListStr(dirs)))
  }

  /** `handle()`: accumulate with `+=` over the app template directories, then once for `DIRS`. */
  method Handle(tree: Tree, appTemplateDirs: seq<string>, dirs: seq<string>) returns (templateFiles: seq<string>)
    ensures templateFiles == HandleTemplates(tree, appTemplateDirs, dirs)
  {
    templateFiles := [];
    for k := 0 to |appTemplateDirs|
      invariant templateFiles == RootsTemplates(tree, appTemplateDirs[..k])
    {
      var files := ListTemplateFiles(tree, appTemplateDirs[k]);
      templateFiles := templateFiles + files;
      assert appTemplateDirs[..k + 1][..k] == appTemplateDirs[..k];
    }
    assert appTemplateDirs[..|appTemplateDirs|] == appTemplateDirs;
    var files := ListTemplateFiles(tree, ListStr(dirs));
    templateFiles := templateFiles + files;
  }

  /** The app directories' templates come first, in directory order, and every template file under any of them is listed. */
  lemma AppTemplatesFirst(tree: Tree, appTemplateDirs: seq<string>, dirs: seq<string>, k: int, i: int, j: int)
    requires 0 <= k < |appTemplateDirs|
    requires var walk := WalkFrom(tree, appTemplateDirs[k]);
             0 <= i < |walk| && 0 <= j < |walk[i].filenames| && IsTemplateName(walk[i].filenames[j])
    ensures RootsTemplates(tree, appTemplateDirs) <= HandleTemplates(tree, appTemplateDirs, dirs)
    ensures var walk := WalkFrom(tree, appTemplateDirs[k]);
            Join(walk[i].dirpath, walk[i].filenames[j]) in HandleTemplates(tree, appTemplateDirs, dirs)
  {
    RootsTemplatesComplete(tree, appTemplateDirs, k, i, j);
  }

  /**
   * No directory path starts with `[`, while `str(DIRS)` always does: when no walked
   * root starts with `[`, the project's own template directories contribute nothing.
   */
  lemma ProjectDirsNeverWalked(tree: Tree, appTemplateDirs: seq<string>, dirs: seq<string>)
    requires forall root :: root in tree ==> !StartsWith(root, "[")
    ensures HandleTemplates(tree, appTemplateDirs, dirs) == RootsTemplates(tree, appTemplateDirs)
  {
    assert ListStr(dirs) !in tree;
  }

  /**
   * The concrete case: one project directory `/srv/templates` holding `base.html`
   * and no app directories. `handle()` lists nothing, while walking each entry of
   * `DIRS` (what the `tailwind list_templates` subcommand does) lists the file.
   */
  lemma ProjectTemplateMissed()
    ensures var tree := map["/srv/templates" := [WalkEntry("/srv/templates", ["base.html"])]];
            && HandleTemplates(tree, [], ["/srv/templates"]) == []
            && Join("/srv/templates", "base.html") in RootsTemplates(tree, []) + RootsTemplates(tree, ["/srv/templates"])
  {
    var tree := map["/srv/templates" := [WalkEntry("/srv/templates", ["base.html"])]];
    assert tree.Keys == {"/srv/templates"};
    assert "/srv/templates"[0] == '/';
    ProjectDirsNeverWalked(tree, [], ["/srv/templates"]);
    assert IsTemplateName("base.html");
    RootsTemplatesComplete(tree, ["/srv/templates"], 0, 0, 0);
  }
}
