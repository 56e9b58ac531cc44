/**
 The backend review's view of a workspace: which paths belong to its canonical
 manifest, which paths its edit tool may touch, and the manifest itself.
 A SHA-256 digest is modelled as the content it digests, so two digests are
 equal exactly when the contents are.
 */
module ReviewWorkspace {
  import opened Prelude

  datatype Section = Requirements | Schema | Api | Backend | Tests | Configuration

  datatype Entry = Entry(section: Section, path: string, content: string)

  type Manifest = seq<Entry>

  /** Regular files by workspace-relative path, and the directories that exist. */
  datatype Workspace = Workspace(files: map<string, string>, directories: set<string>)

  const CONFIGURATION_COUNT: nat := 15

  function ConfigurationPath(i: nat): string {
    match i
    case 0 => ".node-version"
    case 1 => "config/lint.config.ts"
    case 2 => "config/package.json"
    case 3 => "config/tsconfig.json"
    case 4 => "package.json"
    case 5 => "packages/api/lint.config.ts"
    case 6 => "packages/api/package.json"
    case 7 => "packages/api/tsconfig.json"
    case 8 => "packages/backend/.env.example"
    case 9 => "packages/backend/lint.config.ts"
    case 10 => "packages/backend/nestia.config.ts"
    case 11 => "packages/backend/package.json"
    case 12 => "packages/backend/prisma.config.ts"
    case 13 => "packages/backend/tsconfig.json"
    case _ => "pnpm-workspace.yaml"
  }

  predicate IsConfiguration(path: string) {
    exists i | 0 <= i < CONFIGURATION_COUNT :: ConfigurationPath(i) == path
  }

  /** The directory a section lists; the configuration section lists fixed files instead. */
  function DirectoryOf(section: Section): string {
    match section
    case Requirements => "docs/analysis"
    case Schema => "packages/backend/prisma/schema"
    case Api => "packages/api/src/structures"
    case Backend => "packages/backend/src/controllers"
    case Tests => "packages/backend/test"
    case Configuration => ""
  }

  predicate InSection(section: Section, path: string) {
    if section == Configuration then IsConfiguration(path)
    else StartsWith(path, DirectoryOf(section) + "/")
  }

  /** The manifest scope: every path some section covers. */
  predicate Scoped(path: string) {
    exists section: Section :: InSection(section, path)
  }

  function Lookup(ws: Workspace, path: string): Option<string> {
    if path in ws.files then Some(ws.files[path]) else None
  }

  // ----- the order the manifest lists paths in -----

  predicate PathLeq(a: string, b: string) {
    a == [] || (b != [] && (a[0] < b[0] || (a[0] == b[0] && PathLeq(a[1..], b[1..]))))
  }

  lemma {:induction false} PathLeqTotal(a: string, b: string)
    ensures PathLeq(a, b) || PathLeq(b, a)
    ensures PathLeq(a, b) && PathLeq(b, a) ==> a == b
  {
    if a != [] && b != [] && a[0] == b[0] {
      PathLeqTotal(a[1..], b[1..]);
      assert a == [a[0]] + a[1..] && b == [b[0]] + b[1..];
    }
  }

  lemma {:induction false} PathLeqTransitive(a: string, b: string, c: string)
    requires PathLeq(a, b) && PathLeq(b, c)
    ensures PathLeq(a, c)
  {
    if a != [] && a[0] == b[0] && b[0] == c[0] {
      PathLeqTransitive(a[1..], b[1..], c[1..]);
    }
  }

  predicate IsLeastPath(least: string, paths: set<string>) {
    least in paths && forall p | p in paths :: PathLeq(least, p)
  }

  lemma {:induction false} LeastPathExists(paths: set<string>)
    requires paths != {}
    ensures exists least :: IsLeastPath(least, paths)
    decreases |paths|
  {
    var p :| p in paths;
    if paths == {p} {
      PathLeqTotal(p, p);
      assert IsLeastPath(p, paths);
    } else {
      LeastPathExists(paths - {p});
      var q :| IsLeastPath(q, paths - {p});
      PathLeqTotal(p, q);
      PathLeqTotal(p, p);
      var least := if PathLeq(p, q) then p else q;
      forall x | x in paths ensures PathLeq(least, x) {
        if x != p && PathLeq(p, q) { PathLeqTransitive(p, q, x); }
      }
      assert IsLeastPath(least, paths);
    }
  }

  /** A set of paths in listing order. */
  function SortedPaths(paths: set<string>): seq<string>
  {
    if paths == {} then []
    else
      LeastPathExists(paths);
      assert forall a, b | IsLeastPath(a, paths) && IsLeastPath(b, paths) :: a == b by {
        forall a, b | IsLeastPath(a, paths) && IsLeastPath(b, paths) ensures a == b { PathLeqTotal(a, b); }
      }
      var least :| IsLeastPath(least, paths);
      [least] + SortedPaths(paths - {least})
  }

  lemma {:induction false} SortedPathsMember(paths: set<string>)
    ensures forall p :: p in SortedPaths(paths) <==> p in paths
    decreases |paths|
  {
    if paths != {} {
      var least := SortedPaths(paths)[0];
      SortedPathsMember(paths - {least});
      assert SortedPaths(paths) == [least] + SortedPaths(paths - {least});
    }
  }

  lemma SortedPathsHead(paths: set<string>)
    requires paths != {}
    ensures SortedPaths(paths) != [] && IsLeastPath(SortedPaths(paths)[0], paths)
    ensures SortedPaths(paths)[1..] == SortedPaths(paths - {SortedPaths(paths)[0]})
  {
  }

  /** The listing is strictly ascending, so it is canonical. */
  lemma {:induction false} SortedPathsSorted(paths: set<string>)
    ensures var s := SortedPaths(paths); forall i, j | 0 <= i < j < |s| :: PathLeq(s[i], s[j]) && s[i] != s[j]
    decreases |paths|
  {
    if paths != {} {
      SortedPathsHead(paths);
      var s := SortedPaths(paths);
      var rest := paths - {s[0]};
      SortedPathsSorted(rest);
      SortedPathsMember(rest);
      forall i, j | 0 <= i < j < |s| ensures PathLeq(s[i], s[j]) && s[i] != s[j] {
        assert s[j] == s[1..][j - 1] && s[j] in rest;
        if i > 0 { assert s[i] == s[1..][i - 1]; }
      }
    }
  }

  // ----- the manifest -----

  function SectionPaths(ws: Workspace, section: Section): set<string> {
    set p | p in ws.files && InSection(section, p)
  }

  function EntriesAt(ws: Workspace, section: Section, paths: seq<string>): seq<Entry>
    requires forall p | p in paths :: p in ws.files
  {
    if paths == [] then []
    else [Entry(section, paths[0], ws.files[paths[0]])] + EntriesAt(ws, section, paths[1..])
  }

  function SectionEntries(ws: Workspace, section: Section): seq<Entry> {
    SortedPathsMember(SectionPaths(ws, section));
    EntriesAt(ws, section, SortedPaths(SectionPaths(ws, section)))
  }

  /** Whether the manifest can be taken: a missing directory or configuration file throws. */
  predicate Listable(ws: Workspace) {
    && (forall i | 0 <= i < CONFIGURATION_COUNT :: ConfigurationPath(i) in ws.files)
    && (forall section: Section | section != Configuration :: DirectoryOf(section) in ws.directories)
  }

  /** The sections in the order the manifest lists them. */
  function SectionAt(position: nat): Section {
    match position
    case 0 => Requirements
    case 1 => Schema
    case 2 => Api
    case 3 => Backend
    case 4 => Tests
    case _ => Configuration
  }

  function EntriesBelow(ws: Workspace, position: nat): Manifest {
    if position == 0 then []
    else EntriesBelow(ws, position - 1) + SectionEntries(ws, SectionAt(position - 1))
  }

  function Entries(ws: Workspace): Manifest {
    EntriesBelow(ws, 6)
  }

  /** The canonical manifest, or None when taking it throws. */
  function ManifestOf(ws: Workspace): Option<Manifest> {
    if Listable(ws) then Some(Entries(ws)) else None
  }

  lemma {:induction false} EntriesAtMember(ws: Workspace, section: Section, paths: seq<string>, e: Entry)
    requires forall p | p in paths :: p in ws.files
    ensures e in EntriesAt(ws, section, paths) <==>
      e.section == section && e.path in paths && ws.files[e.path] == e.content
  {
    if paths != [] {
      EntriesAtMember(ws, section, paths[1..], e);
      assert paths == [paths[0]] + paths[1..];
    }
  }

  lemma SectionEntriesMember(ws: Workspace, section: Section, e: Entry)
    ensures e in SectionEntries(ws, section) <==>
      e.section == section && InSection(section, e.path) && Lookup(ws, e.path) == Some(e.content)
  {
    SortedPathsMember(SectionPaths(ws, section));
    EntriesAtMember(ws, section, SortedPaths(SectionPaths(ws, section)), e);
  }

  lemma {:induction false} EntriesBelowMember(ws: Workspace, position: nat, e: Entry)
    ensures e in EntriesBelow(ws, position) <==>
      && InSection(e.section, e.path) && Lookup(ws, e.path) == Some(e.content)
      && exists k | 0 <= k < position :: SectionAt(k) == e.section
  {
    if position > 0 {
      EntriesBelowMember(ws, position - 1, e);
      SectionEntriesMember(ws, SectionAt(position - 1), e);
    }
  }

  lemma ManifestMembership(ws: Workspace, e: Entry)
    ensures e in Entries(ws) <==> InSection(e.section, e.path) && Lookup(ws, e.path) == Some(e.content)
  {
    EntriesBelowMember(ws, 6, e);
    assert SectionAt(0) == Requirements && SectionAt(1) == Schema && SectionAt(2) == Api;
    assert SectionAt(3) == Backend && SectionAt(4) == Tests && SectionAt(5) == Configuration;
  }

  /** The content a manifest records for a path. */
  function Recorded(m: Manifest, path: string): Option<string> {
    if m == [] then None
    else if m[0].path == path then Some(m[0].content)
    else Recorded(m[1..], path)
  }

  lemma {:induction false} RecordedIsMember(m: Manifest, path: string)
    ensures Recorded(m, path).None? ==> forall e | e in m :: e.path != path
    ensures Recorded(m, path).Some? ==> exists e :: e in m && e.path == path && e.content == Recorded(m, path).value
  {
    if m != [] {
      RecordedIsMember(m[1..], path);
      assert m == [m[0]] + m[1..];
      if m[0].path == path { assert m[0] in m; }
    }
  }

  /** A manifest is a faithful record of every scoped path. */
  lemma ManifestRecords(ws: Workspace, path: string)
    requires Scoped(path)
    ensures Recorded(Entries(ws), path) == Lookup(ws, path)
  {
    var m := Entries(ws);
    RecordedIsMember(m, path);
    if Recorded(m, path).Some? {
      var e :| e in m && e.path == path && e.content == Recorded(m, path).value;
      ManifestMembership(ws, e);
    } else if path in ws.files {
      var section :| InSection(section, path);
      ManifestMembership(ws, Entry(section, path, ws.files[path]));
    }
  }

  ghost predicate IsManifest(m: Manifest) {
    exists ws :: Listable(ws) && m == Entries(ws)
  }

  lemma {:induction false} EntriesAtExtensional(a: Workspace, b: Workspace, section: Section, paths: seq<string>)
    requires forall p | p in paths :: p in a.files && p in b.files && a.files[p] == b.files[p]
    ensures EntriesAt(a, section, paths) == EntriesAt(b, section, paths)
  {
    if paths != [] { EntriesAtExtensional(a, b, section, paths[1..]); }
  }

  lemma SectionExtensional(a: Workspace, b: Workspace, section: Section)
    requires forall p | InSection(section, p) :: Lookup(a, p) == Lookup(b, p)
    ensures SectionEntries(a, section) == SectionEntries(b, section)
  {
    forall p ensures p in SectionPaths(a, section) <==> p in SectionPaths(b, section) {
      if InSection(section, p) { assert Lookup(a, p) == Lookup(b, p); }
    }
    assert SectionPaths(a, section) == SectionPaths(b, section);
    var paths := SortedPaths(SectionPaths(a, section));
    SortedPathsMember(SectionPaths(a, section));
    forall p | p in paths ensures p in a.files && p in b.files && a.files[p] == b.files[p] {
      assert Lookup(a, p) == Lookup(b, p);
    }
    EntriesAtExtensional(a, b, section, paths);
  }

  lemma {:induction false} EntriesBelowExtensional(a: Workspace, b: Workspace, position: nat)
    requires forall p | Scoped(p) :: Lookup(a, p) == Lookup(b, p)
    ensures EntriesBelow(a, position) == EntriesBelow(b, position)
  {
    if position > 0 {
      EntriesBelowExtensional(a, b, position - 1);
      SectionExtensional(a, b, SectionAt(position - 1));
    }
  }

  /** Two workspaces that agree on every scoped path have the same manifest. */
  lemma ManifestExtensional(a: Workspace, b: Workspace)
    requires forall p | Scoped(p) :: Lookup(a, p) == Lookup(b, p)
    ensures Entries(a) == Entries(b)
  {
    EntriesBelowExtensional(a, b, 6);
  }

  /** Equal manifests mean equal content at every scoped path, and conversely. */
  lemma ManifestDecidesScope(a: Workspace, b: Workspace)
    ensures Entries(a) == Entries(b) <==> forall p | Scoped(p) :: Lookup(a, p) == Lookup(b, p)
  {
    if Entries(a) == Entries(b) {
      forall p | Scoped(p) ensures Lookup(a, p) == Lookup(b, p) {
        ManifestRecords(a, p);
        ManifestRecords(b, p);
      }
    }
    if forall p | Scoped(p) :: Lookup(a, p) == Lookup(b, p) {
      ManifestExtensional(a, b);
    }
  }

  lemma RecordedDecidesManifest(ws: Workspace, m: Manifest)
    requires IsManifest(m)
    ensures Entries(ws) == m <==> forall p | Scoped(p) :: Lookup(ws, p) == Recorded(m, p)
  {
    var origin :| Listable(origin) && m == Entries(origin);
    forall p | Scoped(p) ensures Recorded(m, p) == Lookup(origin, p) { ManifestRecords(origin, p); }
    ManifestDecidesScope(ws, origin);
  }

  // ----- the edit tool's scope -----

  predicate ValidRelative(path: string) {
    && path != ""
    && path[0] != '/'
    && '\\' !in path
    && path != ".."
    && !StartsWith(path, "../")
    && !EndsWith(path, "/..")
    && !Contains(path, "/../")
  }

  predicate AllowedEdit(path: string) {
    || StartsWith(path, "packages/backend/prisma/schema/")
    || StartsWith(path, "packages/api/src/structures/")
    || StartsWith(path, "packages/api/src/typings/")
    || (&& StartsWith(path, "packages/backend/src/")
        && !StartsWith(path, "packages/backend/src/prisma/")
        && !Contains(path, "/prisma/generated/"))
    || StartsWith(path, "packages/backend/test/")
    || IsConfiguration(path)
  }

  /** Everything before the last slash; the workspace root for a bare name. */
  function Parent(path: string): string {
    if path == "" then ""
    else if path[|path| - 1] == '/' then path[..|path| - 1]
    else Parent(path[..|path| - 1])
  }

  /** Whether the edit tool resolves this path to a regular file or a free name. */
  predicate Editable(ws: Workspace, path: string) {
    && AllowedEdit(path)
    && ValidRelative(path)
    && (Parent(path) == "" || Parent(path) in ws.directories)
    && path !in ws.directories
  }

  /** Writes or removes one file; removing an absent file throws. */
  function WriteEdit(ws: Workspace, path: string, content: Option<string>): Option<Workspace> {
    match content
    case Some(bytes) => Some(ws.(files := ws.files[path := bytes]))
    case None => if path in ws.files then Some(ws.(files := ws.files - {path})) else None
  }

  lemma WriteEditEffect(ws: Workspace, path: string, content: Option<string>)
    requires WriteEdit(ws, path, content).Some?
    ensures var after := WriteEdit(ws, path, content).value;
      && Lookup(after, path) == content
      && (forall p | p != path :: Lookup(after, p) == Lookup(ws, p))
      && after.directories == ws.directories
  {
  }

  // ----- a write that is cut off -----

  /** What follows the last slash. */
  function FileName(path: string): string {
    if path == "" || path[|path| - 1] == '/' then ""
    else FileName(path[..|path| - 1]) + [path[|path| - 1]]
  }

  /** The name an edit gives the file it prepares the new content in. */
  predicate IsTemporary(path: string) {
    StartsWith(FileName(path), ".benchmark-edit-") && EndsWith(FileName(path), ".tmp")
  }

  /** A free temporary name in the directory of a path. */
  predicate FreshBeside(ws: Workspace, temporary: string, path: string) {
    && IsTemporary(temporary) && Parent(temporary) == Parent(path)
    && temporary !in ws.files && temporary !in ws.directories && temporary != path
  }

  /**
   Where a write stands: an absent file is created and then filled, an existing
   one is replaced by a temporary file that is created, filled and renamed, and a
   removal is one operation. `bytes` is what of the content has arrived.
   */
  datatype WriteStage = Untouched | Partial(temporary: string, bytes: string) | Complete

  /** Whether the write is inside its temporary file. */
  predicate InTemporary(ws: Workspace, path: string, content: Option<string>, stage: WriteStage) {
    content.Some? && path in ws.files && stage.Partial? && FreshBeside(ws, stage.temporary, path)
  }

  /** The workspace as a write stands at a stage. */
  function WriteAt(ws: Workspace, path: string, content: Option<string>, stage: WriteStage): Workspace {
    match stage
    case Untouched => ws
    case Complete => (match WriteEdit(ws, path, content) case None => ws case Some(written) => written)
    case Partial(temporary, bytes) =>
      if content.None? then ws
      else if path !in ws.files then ws.(files := ws.files[path := bytes])
      else if FreshBeside(ws, temporary, path) then ws.(files := ws.files[temporary := bytes])
      else ws
  }

  /** At any stage a write has changed its own file or added one temporary file beside it, and nothing else. */
  lemma WriteAtEffect(ws: Workspace, path: string, content: Option<string>, stage: WriteStage)
    ensures var left := WriteAt(ws, path, content, stage);
      && left.directories == ws.directories
      && if InTemporary(ws, path, content, stage)
         then Lookup(left, stage.temporary) == Some(stage.bytes)
           && forall p | p != stage.temporary :: Lookup(left, p) == Lookup(ws, p)
         else forall p | p != path :: Lookup(left, p) == Lookup(ws, p)
    ensures WriteEdit(ws, path, content).Some? ==> Lookup(WriteAt(ws, path, content, Complete), path) == content
  {
  }

  lemma {:induction false} ParentPrefix(path: string, directory: string)
    requires directory != "" && directory[|directory| - 1] != '/'
    ensures StartsWith(path, directory + "/") <==> Parent(path) == directory || StartsWith(Parent(path), directory + "/")
  {
    if path != "" && path[|path| - 1] != '/' {
      var front := path[..|path| - 1];
      ParentPrefix(front, directory);
      if StartsWith(path, directory + "/") {
        assert (directory + "/")[|directory|] == '/';
        assert front[..|directory| + 1] == path[..|directory| + 1];
      }
      if StartsWith(front, directory + "/") {
        assert path[..|directory| + 1] == front[..|directory| + 1];
      }
    } else if path != "" {
      var front := path[..|path| - 1];
      if StartsWith(path, directory + "/") {
        if |path| == |directory| + 1 {
          assert front == directory;
        } else {
          assert front[..|directory| + 1] == path[..|directory| + 1];
        }
      }
      if front == directory {
        assert path == directory + "/";
      } else if StartsWith(front, directory + "/") {
        assert path[..|directory| + 1] == front[..|directory| + 1];
      }
    }
  }

  lemma {:induction false} FileNameEnds(path: string)
    ensures FileName(path) != "" ==> path != "" && path[|path| - 1] == FileName(path)[|FileName(path)| - 1]
  {
  }

  lemma ConfigurationEnds(i: nat)
    ensures ConfigurationPath(i)[|ConfigurationPath(i)| - 1] != 'p'
  {
  }

  lemma TemporaryIsNoConfiguration(path: string)
    requires IsTemporary(path)
    ensures !IsConfiguration(path)
  {
    FileNameEnds(path);
    var name := FileName(path);
    assert name[|name| - 4..][3] == ".tmp"[3];
    forall i: nat ensures ConfigurationPath(i) != path {
      ConfigurationEnds(i);
    }
  }

  lemma BesideIn(temporary: string, path: string, section: Section)
    requires Parent(temporary) == Parent(path) && section != Configuration
    ensures InSection(section, temporary) <==> InSection(section, path)
  {
    ParentPrefix(temporary, DirectoryOf(section));
    ParentPrefix(path, DirectoryOf(section));
  }

  /** The path lies in a directory the manifest lists. */
  predicate Listed(path: string) {
    exists section: Section :: section != Configuration && InSection(section, path)
  }

  /** The manifest covers a temporary file exactly where it lists the directory of the file being written. */
  lemma TemporaryScoped(temporary: string, path: string)
    requires IsTemporary(temporary) && Parent(temporary) == Parent(path)
    ensures Scoped(temporary) <==> Listed(path)
  {
    TemporaryIsNoConfiguration(temporary);
    forall section: Section | section != Configuration
      ensures InSection(section, temporary) <==> InSection(section, path)
    {
      BesideIn(temporary, path, section);
    }
  }

  /** The two scopes differ: requirements are reviewed but never edited, typings the reverse. */
  lemma DocumentationDiffers()
    ensures Scoped("docs/analysis/a") && !AllowedEdit("docs/analysis/a")
  {
    var a := "docs/analysis/a";
    assert a[0] == 'd';
    assert a[..14] == "docs/analysis/";
    assert InSection(Requirements, a);
  }

  lemma TypingsDiffer()
    ensures AllowedEdit("packages/api/src/typings/a") && !Scoped("packages/api/src/typings/a")
  {
    var t := "packages/api/src/typings/a";
    assert t[..25] == "packages/api/src/typings/";
    assert t[0] == 'p' && t[9] == 'a' && t[17] == 't';
    assert !StartsWith(t, "packages/api/src/structures/");
  }

  lemma ScopesDiffer()
    ensures Scoped("docs/analysis/a") && !AllowedEdit("docs/analysis/a")
    ensures AllowedEdit("packages/api/src/typings/a") && !Scoped("packages/api/src/typings/a")
  {
    DocumentationDiffers();
    TypingsDiffer();
  }
}
