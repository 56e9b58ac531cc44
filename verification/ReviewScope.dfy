/** What the edit tool can reach: no path leaves the workspace, and nothing generated or documented is touched. */
module ReviewScope {
  import opened Prelude
  import opened ReviewWorkspace
  import opened ReviewText

  /** The text stands somewhere between two separators, or the ends. */
  predicate SegmentAt(path: string, segment: string, i: nat)
    requires i + |segment| <= |path|
  {
    && path[i..i + |segment|] == segment
    && (i == 0 || path[i - 1] == '/')
    && (i + |segment| == |path| || path[i + |segment|] == '/')
  }

  predicate HasSegment(path: string, segment: string) {
    exists i: nat | i <= |path| && i + |segment| <= |path| :: SegmentAt(path, segment, i)
  }

  lemma UpwardsFound(path: string, i: nat)
    requires i + 2 <= |path| && SegmentAt(path, "..", i)
    ensures path == ".." || StartsWith(path, "../") || EndsWith(path, "/..") || Contains(path, "/../")
  {
    if i == 0 {
      if |path| == 2 {
        assert path == path[0..2];
      } else {
        assert path[..3] == path[0..2] + [path[2]] == "../";
      }
    } else if i + 2 == |path| {
      assert path[|path| - 3..] == [path[i - 1]] + path[i..i + 2] == "/..";
    } else {
      assert path[i - 1..i + 3] == [path[i - 1]] + path[i..i + 2] + [path[i + 2]] == "/../";
      assert OccursAt(path, "/../", i - 1);
    }
  }

  lemma UpwardsStands(path: string)
    requires path == ".." || StartsWith(path, "../") || EndsWith(path, "/..") || Contains(path, "/../")
    ensures HasSegment(path, "..")
  {
    if path == ".." {
      assert SegmentAt(path, "..", 0);
    } else if StartsWith(path, "../") {
      assert path[..3] == "../" && path[0..2] == path[..3][..2] == ".." && path[2] == path[..3][2];
      assert SegmentAt(path, "..", 0);
    } else if EndsWith(path, "/..") {
      var n := |path|;
      assert path[n - 3..] == "/.." && path[n - 2..n] == path[n - 3..][1..] == ".." && path[n - 3] == path[n - 3..][0];
      assert SegmentAt(path, "..", n - 2);
    } else {
      var i :| 0 <= i <= |path| - |"/../"| && OccursAt(path, "/../", i);
      var found := path[i..i + 4];
      assert found == "/../";
      assert path[i] == found[0] && path[i + 1] == found[1] && path[i + 2] == found[2] && path[i + 3] == found[3];
      assert path[i + 1..i + 3] == [path[i + 1], path[i + 2]] == "..";
      assert SegmentAt(path, "..", i + 1);
    }
  }

  /** A path is valid exactly when it is relative and no part of it leads upwards. */
  lemma ValidStaysInside(path: string)
    ensures ValidRelative(path) <==> path != "" && path[0] != '/' && '\\' !in path && !HasSegment(path, "..")
  {
    if HasSegment(path, "..") {
      var i: nat :| i <= |path| && i + |".."| <= |path| && SegmentAt(path, "..", i);
      UpwardsFound(path, i);
    }
    if path == ".." || StartsWith(path, "../") || EndsWith(path, "/..") || Contains(path, "/../") {
      UpwardsStands(path);
    }
  }

  /** An editable path is a regular file's, or a free name in a directory that exists, inside the workspace and outside what is generated. */
  lemma EditableExactly(ws: Workspace, path: string)
    ensures Editable(ws, path) <==>
      && AllowedEdit(path)
      && path != "" && path[0] != '/' && '\\' !in path && !HasSegment(path, "..")
      && path !in ws.directories && (Parent(path) != "" ==> Parent(path) in ws.directories)
  {
    ValidStaysInside(path);
  }

  lemma LongerPrefix(path: string, long: string, short: string)
    requires StartsWith(path, long) && StartsWith(long, short)
    ensures StartsWith(path, short)
  {
    assert path[..|short|] == path[..|long|][..|short|] == long[..|short|];
  }

  lemma OtherPrefix(path: string, a: string, b: string, k: nat)
    requires StartsWith(path, a) && k < |a| && k < |b| && a[k] != b[k]
    ensures !StartsWith(path, b)
  {
    PrefixAt(path, a, k);
    if StartsWith(path, b) {
      PrefixAt(path, b, k);
      assert false;
    }
  }

  lemma PrefixAt(path: string, prefix: string, k: nat)
    requires StartsWith(path, prefix) && k < |prefix|
    ensures path[k] == prefix[k]
  {
    assert path[..|prefix|][k] == path[k];
  }

  /** Generated database code is closed to edits, whatever it is called. */
  lemma GeneratedIsClosed(path: string)
    requires StartsWith(path, "packages/backend/src/prisma/")
      || (StartsWith(path, "packages/backend/src/") && Contains(path, "/prisma/generated/") )
    ensures !AllowedEdit(path)
  {
    var source := "packages/backend/src/";
    if StartsWith(path, "packages/backend/src/prisma/") {
      assert "packages/backend/src/prisma/"[..21] == source;
      LongerPrefix(path, "packages/backend/src/prisma/", source);
    }
    OtherPrefix(path, source, "packages/backend/prisma/schema/", 17);
    OtherPrefix(path, source, "packages/api/src/structures/", 9);
    OtherPrefix(path, source, "packages/api/src/typings/", 9);
    OtherPrefix(path, source, "packages/backend/test/", 17);
    forall i: nat ensures ConfigurationPath(i) != path {
      NoConfigurationInSource(i, path);
    }
  }

  lemma NoConfigurationInSource(i: nat, path: string)
    requires StartsWith(path, "packages/backend/src/")
    ensures ConfigurationPath(i) != path
  {
    assert path[..21] == "packages/backend/src/" && path[17] == path[..21][17] == 's';
    assert path[18] == path[..21][18] == 'r' && path[0] == path[..21][0] == 'p' && path[9] == path[..21][9] == 'b';
  }

  /** Every reviewed file but a requirement can be edited, generated code apart. */
  lemma ReviewedIsEditable(path: string, section: Section)
    requires InSection(section, path) && section != Requirements && !Contains(path, "/prisma/generated/")
    ensures AllowedEdit(path)
  {
    if section == Backend {
      var controllers := "packages/backend/src/controllers/";
      assert controllers[..21] == "packages/backend/src/";
      LongerPrefix(path, controllers, "packages/backend/src/");
      OtherPrefix(path, controllers, "packages/backend/src/prisma/", 21);
    }
  }
}
