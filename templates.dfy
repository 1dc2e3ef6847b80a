/**
 * The template-file filter both management commands share: walk a directory
 * tree and keep `dirpath/filename` for every file named `*.html` or `*.txt`,
 * in walk order and then in file-name order within a directory.
 */
module Templates {
  import opened Builtins

  /** One `(dirpath, dirnames, filenames)` triple of `os.walk`; the sub-directory names are not used. */
  datatype WalkEntry = WalkEntry(dirpath: string, filenames: seq<string>)

  /**
   * What `os.walk(root)` yields, by root. A root without an entry yields nothing,
   * which is what `os.walk` does for a path that does not exist.
   */
  type Tree = map<string, seq<WalkEntry>>

  function WalkFrom(tree: Tree, root: string): seq<WalkEntry> {
    if root in tree then tree[root] else []
  }

  predicate IsTemplateName(filename: string) {
    EndsWith(filename, ".html") || EndsWith(filename, ".txt")
  }

  /** The filter matches the suffix exactly and case-sensitively, as `str.endswith` does. */
  lemma TemplateNameCases()
    ensures IsTemplateName("base.html") && IsTemplateName("robots.txt") && IsTemplateName(".html")
    ensures !IsTemplateName("style.css") && !IsTemplateName("base.HTML") && !IsTemplateName("html")
    ensures !IsTemplateName("notes.txt.bak")
  {
    assert "base.html"[4..] == ".html";
    assert "robots.txt"[6..] == ".txt";
    assert "base.HTML"[4..] != ".html";
    assert "style.css"[5..] != ".txt";
    assert "notes.txt.bak"[8..] != ".html";
    assert "notes.txt.bak"[9..] != ".txt";
  }

  /** The template paths of one directory of the walk. */
  function DirTemplates(dirpath: string, filenames: seq<string>): seq<string>
    decreases |filenames|
  {
    if |filenames| == 0 then []
    else
      var last := filenames[|filenames| - 1];
      DirTemplates(dirpath, filenames[..|filenames| - 1]) + (if IsTemplateName(last) then [Join(dirpath, last)] else [])
  }

  /** The template paths of a whole walk. */
  function WalkTemplates(walk: seq<WalkEntry>): seq<string>
    decreases |walk|
  {
    if |walk| == 0 then []
    else
      var last := walk[|walk| - 1];
      WalkTemplates(walk[..|walk| - 1]) + DirTemplates(last.dirpath, last.filenames)
  }

  /** The template paths under each root in turn. */
  function RootsTemplates(tree: Tree, roots: seq<string>): seq<string>
    decreases |roots|
  {
    if |roots| == 0 then []
    else RootsTemplates(tree, roots[..|roots| - 1]) + WalkTemplates(WalkFrom(tree, roots[|roots| - 1]))
  }

  /** `_list_template_files(template_dir)`: the nested loops over `os.walk(str(template_dir))`. */
  method ListTemplateFiles(tree: Tree, templateDir: string) returns (templateFiles: seq<string>)
    ensures templateFiles == WalkTemplates(WalkFrom(tree, templateDir))
  {
    var walk := WalkFrom(tree, templateDir);
    templateFiles := [];
    var i := 0;
    while i < |walk|
      invariant 0 <= i <= |walk|
      invariant templateFiles == WalkTemplates(walk[..i])
    {
      var d, filenames := walk[i].dirpath, walk[i].filenames;
      var dirFiles := [];
      var j := 0;
      while j < |filenames|
        invariant 0 <= j <= |filenames|
        invariant dirFiles == DirTemplates(d, filenames[..j])
      {
        var filename := filenames[j];
        if EndsWith(filename, ".html") || EndsWith(filename, ".txt") {
          dirFiles := dirFiles + [Join(d, filename)];
        }
        assert filenames[..j + 1][..j] == filenames[..j];
        j := j + 1;
      }
      assert filenames[..j] == filenames;
      templateFiles := templateFiles + dirFiles;
      assert walk[..i + 1][..i] == walk[..i];
      i := i + 1;
    }
    assert walk[..i] == walk;
  }

  /** Filtering a directory's files keeps their order: the files of a split list come out in the order of its parts. */
  lemma {:induction false} DirTemplatesAppend(dirpath: string, a: seq<string>, b: seq<string>)
    ensures DirTemplates(dirpath, a + b) == DirTemplates(dirpath, a) + DirTemplates(dirpath, b)
    decreases |b|
  {
    if |b| > 0 {
      var b' := b[..|b| - 1];
      assert (a + b)[..|a + b| - 1] == a + b';
      DirTemplatesAppend(dirpath, a, b');
    } else {
      assert a + b == a;
    }
  }

  /** The files of a split walk come out in the order of its parts: walk order is kept. */
  lemma {:induction false} WalkTemplatesAppend(w1: seq<WalkEntry>, w2: seq<WalkEntry>)
    ensures WalkTemplates(w1 + w2) == WalkTemplates(w1) + WalkTemplates(w2)
    decreases |w2|
  {
    if |w2| > 0 {
      var w2' := w2[..|w2| - 1];
      assert (w1 + w2)[..|w1 + w2| - 1] == w1 + w2';
      WalkTemplatesAppend(w1, w2');
    } else {
      assert w1 + w2 == w1;
    }
  }

  /** Every template file of a directory is listed, as the directory joined with its name. */
  lemma {:induction false} DirTemplatesComplete(dirpath: string, filenames: seq<string>, j: int)
    requires 0 <= j < |filenames| && IsTemplateName(filenames[j])
    ensures Join(dirpath, filenames[j]) in DirTemplates(dirpath, filenames)
    decreases |filenames|
  {
    if j < |filenames| - 1 {
      DirTemplatesComplete(dirpath, filenames[..|filenames| - 1], j);
    }
  }

  /** Everything listed for a directory is the directory joined with one of its template file names. */
  lemma {:induction false} DirTemplatesSound(dirpath: string, filenames: seq<string>, path: string)
    requires path in DirTemplates(dirpath, filenames)
    ensures exists j :: 0 <= j < |filenames| && IsTemplateName(filenames[j]) && path == Join(dirpath, filenames[j])
    decreases |filenames|
  {
    var n := |filenames|;
    if path in DirTemplates(dirpath, filenames[..n - 1]) {
      DirTemplatesSound(dirpath, filenames[..n - 1], path);
      var j :| 0 <= j < n - 1 && IsTemplateName(filenames[..n - 1][j]) && path == Join(dirpath, filenames[..n - 1][j]);
      assert filenames[..n - 1][j] == filenames[j];
    } else {
      assert IsTemplateName(filenames[n - 1]) && path == Join(dirpath, filenames[n - 1]);
    }
  }

  /** Every template file anywhere in the walk is listed. */
  lemma {:induction false} WalkTemplatesComplete(walk: seq<WalkEntry>, i: int, j: int)
    requires 0 <= i < |walk| && 0 <= j < |walk[i].filenames| && IsTemplateName(walk[i].filenames[j])
    ensures Join(walk[i].dirpath, walk[i].filenames[j]) in WalkTemplates(walk)
    decreases |walk|
  {
    if i < |walk| - 1 {
      WalkTemplatesComplete(walk[..|walk| - 1], i, j);
    } else {
      DirTemplatesComplete(walk[i].dirpath, walk[i].filenames, j);
    }
  }

  /** Everything listed for a walk is a directory of the walk joined with one of its template file names. */
  lemma {:induction false} WalkTemplatesSound(walk: seq<WalkEntry>, path: string)
    requires path in WalkTemplates(walk)
    ensures exists i, j :: 0 <= i < |walk| && 0 <= j < |walk[i].filenames| &&
              IsTemplateName(walk[i].filenames[j]) && path == Join(walk[i].dirpath, walk[i].filenames[j])
    decreases |walk|
  {
    var n := |walk|;
    if path in WalkTemplates(walk[..n - 1]) {
      WalkTemplatesSound(walk[..n - 1], path);
      var i, j :| 0 <= i < n - 1 && 0 <= j < |walk[..n - 1][i].filenames| &&
                  IsTemplateName(walk[..n - 1][i].filenames[j]) && path == Join(walk[..n - 1][i].dirpath, walk[..n - 1][i].filenames[j]);
      assert walk[..n - 1][i] == walk[i];
    } else {
      DirTemplatesSound(walk[n - 1].dirpath, walk[n - 1].filenames, path);
    }
  }

  /** Every listed path itself ends in `.html` or `.txt`. */
  lemma ListedPathsAreTemplates(walk: seq<WalkEntry>, path: string)
    requires path in WalkTemplates(walk)
    ensures IsTemplateName(path)
  {
    WalkTemplatesSound(walk, path);
    var i, j :| 0 <= i < |walk| && 0 <= j < |walk[i].filenames| &&
                IsTemplateName(walk[i].filenames[j]) && path == Join(walk[i].dirpath, walk[i].filenames[j]);
    var name := walk[i].filenames[j];
    if EndsWith(name, ".html") {
      EndsWithTransitive(path, name, ".html");
    } else {
      EndsWithTransitive(path, name, ".txt");
    }
  }

  /** The roots' results come out in the order of the roots. */
  lemma {:induction false} RootsTemplatesAppend(tree: Tree, r1: seq<string>, r2: seq<string>)
    ensures RootsTemplates(tree, r1 + r2) == RootsTemplates(tree, r1) + RootsTemplates(tree, r2)
    decreases |r2|
  {
    if |r2| > 0 {
      var r2' := r2[..|r2| - 1];
      assert (r1 + r2)[..|r1 + r2| - 1] == r1 + r2';
      RootsTemplatesAppend(tree, r1, r2');
    } else {
      assert r1 + r2 == r1;
    }
  }

  /** Every template file walked from any of the roots is listed. */
  lemma {:induction false} RootsTemplatesComplete(tree: Tree, roots: seq<string>, k: int, i: int, j: int)
    requires 0 <= k < |roots|
    requires var walk := WalkFrom(tree, roots[k]);
             0 <= i < |walk| && 0 <= j < |walk[i].filenames| && IsTemplateName(walk[i].filenames[j])
    ensures var walk := WalkFrom(tree, roots[k]);
            Join(walk[i].dirpath, walk[i].filenames[j]) in RootsTemplates(tree, roots)
    decreases |roots|
  {
    if k < |roots| - 1 {
      RootsTemplatesComplete(tree, roots[..|roots| - 1], k, i, j);
    } else {
      WalkTemplatesComplete(WalkFrom(tree, roots[k]), i, j);
    }
  }
}
