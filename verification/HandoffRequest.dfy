/** Which handoff requests are accepted (ide-agent/src/handoff.rs), and where their two files can land. */
module HandoffRequest {
  import opened Wrappers
  import opened Text
  import opened CommitGraph
  import opened Workspace

  const CONTENT_LIMIT: nat := 512 * 1024

  predicate Plain(c: char) { 'a' <= c <= 'z' || 'A' <= c <= 'Z' || '0' <= c <= '9' }

  predicate HandoffId(s: string) {
    0 < |s| <= 128 && forall k :: 0 <= k < |s| ==> Plain(s[k]) || s[k] == '_' || s[k] == '-'
  }

  function Folder(slug: string): string { "docs/design/" + slug + "/" }

  predicate MarkdownName(name: string) {
    && 3 <= |name| <= 100 && name[|name| - 3..] == ".md" && name[0] != '.'
    && forall k :: 0 <= k < |name| ==> Plain(name[k]) || name[k] == '.' || name[k] == '_' || name[k] == '-'
  }

  predicate FileFits(slug: string, f: File) {
    Folder(slug) <= f.path && MarkdownName(f.path[|Folder(slug)|..]) && |f.content| <= CONTENT_LIMIT
  }

  predicate Canonical(s: string) { ParseU64(s).Some? && Decimal(ParseU64(s).value) == s }

  function Refusal(r: Request): Option<string> {
    if !HandoffId(r.operation) || !HandoffId(r.run) || !HandoffId(r.slug) || |r.files| != 2
       || r.files[0].path == r.files[1].path || !Canonical(r.generation)
    then Some("invalid_handoff_bundle")
    else if !FileFits(r.slug, r.files[0]) || !FileFits(r.slug, r.files[1]) then Some("invalid_handoff_path")
    else None
  }

  /** `rsplit('/').next()`: the part after the last slash. */
  function LastSegment(path: string): string {
    if path == "" then ""
    else if path[|path| - 1] == '/' then ""
    else LastSegment(path[..|path| - 1]) + [path[|path| - 1]]
  }

  lemma {:induction false} SegmentAfter(folder: string, name: string)
    requires folder != "" && folder[|folder| - 1] == '/' && forall k :: 0 <= k < |name| ==> name[k] != '/'
    ensures LastSegment(folder + name) == name
  {
    var path := folder + name;
    if name == "" {
      assert path == folder;
    } else {
      assert path[..|path| - 1] == folder + name[..|name| - 1];
      SegmentAfter(folder, name[..|name| - 1]);
      assert name == name[..|name| - 1] + [name[|name| - 1]];
    }
  }

  /** Walking to the folder and creating the last segment there creates exactly the requested path, and neither the
      slug nor the file name can climb out of the folder. */
  lemma LandsInFolder(r: Request, k: nat)
    requires Refusal(r) == None && k < 2
    ensures var f := r.files[k];
            && f.path == Folder(r.slug) + LastSegment(f.path)
            && LastSegment(f.path) != "" && LastSegment(f.path)[0] != '.'
            && '/' !in LastSegment(f.path) && '/' !in r.slug && '.' !in r.slug
            && r.files[0].path != r.files[1].path
  {
    var f := r.files[k];
    var folder := Folder(r.slug);
    var name := f.path[|folder|..];
    assert folder[|folder| - 1] == '/';
    assert f.path == folder + name;
    SegmentAfter(folder, name);
  }

  /** The file is a small Markdown file directly in the folder. */
  ghost predicate Wanted(slug: string, f: File) {
    |f.content| <= 524288 && exists name :: MarkdownName(name) && f.path == "docs/design/" + slug + "/" + name
  }

  /** Exactly those requests are accepted that have three identifiers, a generation written as a machine number, and two
      differently named small Markdown files directly in the folder of the slug. */
  lemma AcceptedExactly(r: Request)
    ensures Refusal(r).None?
            <==> && HandoffId(r.operation) && HandoffId(r.run) && HandoffId(r.slug)
                 && (exists n: nat :: n < 0x1_0000_0000_0000_0000 && Decimal(n) == r.generation)
                 && |r.files| == 2 && r.files[0].path != r.files[1].path
                 && Wanted(r.slug, r.files[0]) && Wanted(r.slug, r.files[1])
  {
    hide HandoffId, MarkdownName;
    CanonicalMeans(r.generation);
    if |r.files| == 2 {
      FitsMeans(r.slug, r.files[0]);
      FitsMeans(r.slug, r.files[1]);
    }
  }

  lemma CanonicalMeans(s: string)
    ensures Canonical(s) <==> exists n: nat :: n < 0x1_0000_0000_0000_0000 && Decimal(n) == s
  {
    if n: nat :| n < 0x1_0000_0000_0000_0000 && Decimal(n) == s { ParseDecimal(n); }
  }

  lemma FitsMeans(slug: string, f: File)
    ensures FileFits(slug, f) <==> Wanted(slug, f)
  {
    hide MarkdownName;
    var folder := Folder(slug);
    if FileFits(slug, f) { assert f.path == folder + f.path[|folder|..]; }
    if Wanted(slug, f) {
      var name :| MarkdownName(name) && f.path == "docs/design/" + slug + "/" + name;
      assert f.path == folder + name && f.path[|folder|..] == name;
    }
  }

  /** The tree with the files put into it. */
  function WithFiles(tree: Tree, files: seq<File>): Tree {
    if files == [] then tree
    else WithFiles(tree, files[..|files| - 1])[files[|files| - 1].path := files[|files| - 1].content]
  }

  /** Exactly the two requested files change, to exactly the requested bytes. */
  lemma ExactlyTwo(tree: Tree, r: Request)
    requires Refusal(r) == None
    ensures var t := WithFiles(tree, r.files);
            && t.Keys == tree.Keys + {r.files[0].path, r.files[1].path}
            && t[r.files[0].path] == r.files[0].content && t[r.files[1].path] == r.files[1].content
            && forall p :: p in tree && p != r.files[0].path && p != r.files[1].path ==> t[p] == tree[p]
  {
    hide HandoffId, FileFits, Canonical;
    var one := r.files[..1];
    assert r.files[..|r.files| - 1] == one && one[..|one| - 1] == [];
    assert WithFiles(tree, one) == tree[r.files[0].path := r.files[0].content];
  }
}
