/** The managed directory: exclusive create and hash-guarded delete. */
module NoteStore {
  import opened Domain
  import opened NoteText

  /** A directory path, as the names on the way from the file system root. */
  type Path = seq<string>

  /** What the directory holds: the text of each file, by file name. */
  type Files = map<string, string>

  datatype CreatedNote = CreatedNote(filename: string, byteCount: nat, sha256: string)

  /* Lexical path resolution. */

  /** The names between slashes. */
  function Split(s: string): (parts: seq<string>)
    ensures parts != []
  {
    if s == "" then [""]
    else
      var rest := Split(s[1..]);
      if s[0] == '/' then [""] + rest else [[s[0]] + rest[0]] + rest[1..]
  }

  function Walk(from: Path, names: seq<string>): Path
    decreases |names|
  {
    if names == [] then from
    else
      var name := names[0];
      var next :=
        if name == "" || name == "." then from
        else if name == ".." then (if from == [] then [] else from[..|from| - 1])
        else from + [name];
      Walk(next, names[1..])
  }

  /** `(root / filename).resolve()`; an absolute file name replaces the root. */
  function Resolve(root: Path, filename: string): Path {
    Walk(if filename != "" && filename[0] == '/' then [] else root, Split(filename))
  }

  /** The file a name leads to, if it lies directly in the managed directory. */
  function TargetName(root: Path, filename: string): Option<string> {
    var target := Resolve(root, filename);
    if target != [] && target[..|target| - 1] == root then Some(target[|target| - 1]) else None
  }

  lemma {:induction false} NoSlashDoesNotSplit(s: string)
    requires '/' !in s
    ensures Split(s) == [s]
  {
    if s != "" {
      NoSlashDoesNotSplit(s[1..]);
      assert [s[0]] + s[1..] == s;
    }
  }

  ghost predicate PlainName(name: string) {
    '/' !in name && name != "" && name != "." && name != ".."
  }

  /** A name without a slash that is not a directory reference stays in the managed directory. */
  lemma PlainNameIsInside(root: Path, filename: string)
    requires PlainName(filename)
    ensures TargetName(root, filename) == Some(filename)
  {
    NoSlashDoesNotSplit(filename);
    assert Walk(root, [filename]) == Walk(root + [filename], []);
  }

  lemma {:induction false} SplitAtSlash(a: string, b: string)
    requires '/' !in a
    ensures Split(a + "/" + b) == [a] + Split(b)
  {
    var s := a + "/" + b;
    if a == "" {
      assert s[1..] == b;
    } else {
      assert s[1..] == a[1..] + "/" + b;
      SplitAtSlash(a[1..], b);
      assert [a[0]] + a[1..] == a;
    }
  }

  lemma WalkTwo(from: Path, a: string, b: string)
    ensures Walk(from, [a, b]) == Walk(Walk(from, [a]), [b])
  {
    assert [a, b][1..] == [b] && [a][1..] == [] && [b][1..] == [];
  }

  /** A name that leads into a directory below, into the one above, or from the root of the file system is refused. */
  lemma OutsideIsRefused(root: Path, a: string, b: string)
    requires PlainName(b)
    ensures PlainName(a) ==> TargetName(root, a + "/" + b) == None
    ensures root != [] ==> TargetName(root, "../" + b) == None && TargetName(root, "/" + b) == None
  {
    NoSlashDoesNotSplit(b);
    assert Walk(root, [b]) == root + [b];
    if PlainName(a) {
      SplitAtSlash(a, b);
      WalkTwo(root, a, b);
      assert Resolve(root, a + "/" + b) == root + [a] + [b];
    }
    if root != [] {
      SplitAtSlash("..", b);
      assert ".." + "/" + b == "../" + b;
      WalkTwo(root, "..", b);
      assert Resolve(root, "../" + b) == root[..|root| - 1] + [b];
      SplitAtSlash("", b);
      assert "" + "/" + b == "/" + b;
      WalkTwo([], "", b);
      assert Resolve(root, "/" + b) == [b];
    }
  }

  /** The file name of every note with a normal title passes the check. */
  lemma NoteFilenameIsInside(root: Path, title: string)
    requires NormalTitle(title)
    ensures TargetName(root, title + ".md") == Some(title + ".md")
  {
    assert '/' !in title;
    assert '/' !in title + ".md";
    PlainNameIsInside(root, title + ".md");
  }

  /* What the two operations do to the directory. */

  /**
   * `openFails` says that opening raises an error other than that the file exists. The other file
   * operations do not fail.
   */
  function CreateFile(root: Path, files: Files, note: PreparedNote, openFails: bool)
    : (Result<CreatedNote, NoteError>, Files)
  {
    match TargetName(root, note.filename)
    case None => (Failure(PathOutsideManagedWorkspace), files)
    case Some(target) =>
      if openFails then (Failure(NoteCreateFailed), files)
      else if target in files then (Failure(NoteAlreadyExists), files)
      else if note.contentSha256 != Sha256(note.content) then (Failure(PostWriteVerificationFailed), files)
      else
        (Success(CreatedNote(note.filename, |note.content|, note.contentSha256)), files[target := note.content])
  }

  function RemoveFile(root: Path, files: Files, filename: string, expectedSha256: string)
    : (Result<string, NoteError>, Files)
  {
    match TargetName(root, filename)
    case None => (Failure(PathOutsideManagedWorkspace), files)
    case Some(target) =>
      if target !in files then (Failure(RollbackTargetMissing), files)
      else if Sha256(files[target]) != expectedSha256 then (Failure(RollbackHashMismatch), files)
      else (Success(target), files - {target})
  }

  /**
   * A create goes through exactly when the name is inside, nothing is there, opening works and the hash is that of the
   * text. It then adds the file with that text and answers its name, length and hash; otherwise nothing changes, and
   * the first of these that does not hold is the error.
   */
  lemma CreateOnlyAdds(root: Path, files: Files, note: PreparedNote, openFails: bool)
    ensures var (r, after) := CreateFile(root, files, note, openFails);
            var target := TargetName(root, note.filename);
            && (r.Success? <==>
                  && target.Some? && target.value !in files
                  && !openFails
                  && note.contentSha256 == Sha256(note.content))
            && (r.Success? ==>
                  && r.value == CreatedNote(note.filename, |note.content|, Sha256(note.content))
                  && after == files[target.value := note.content])
            && (r.Failure? ==>
                  && after == files
                  && r.error == (if target.None? then PathOutsideManagedWorkspace
                                 else if openFails then NoteCreateFailed
                                 else if target.value in files then NoteAlreadyExists
                                 else PostWriteVerificationFailed))
  {
  }

  /** Removing with the evidence of a create gives back the directory as it was before. */
  lemma RemoveUndoesCreate(root: Path, files: Files, note: PreparedNote, openFails: bool)
    requires CreateFile(root, files, note, openFails).0.Success?
    ensures var (created, after) := CreateFile(root, files, note, openFails);
            RemoveFile(root, after, created.value.filename, created.value.sha256).1 == files
    ensures var (created, after) := CreateFile(root, files, note, openFails);
            RemoveFile(root, after, created.value.filename, created.value.sha256).0.Success?
  {
    var target := TargetName(root, note.filename).value;
    assert files[target := note.content] - {target} == files;
  }

  /**
   * A removal goes through exactly on an existing file inside whose text has the expected hash, and deletes just that
   * one.
   */
  lemma RemoveIsGuarded(root: Path, files: Files, filename: string, expectedSha256: string, text: string)
    requires expectedSha256 == Sha256(text)
    ensures var (r, after) := RemoveFile(root, files, filename, expectedSha256);
            var target := TargetName(root, filename);
            && (r.Success? <==> target.Some? && target.value in files && files[target.value] == text)
            && (r.Success? ==> r.value == target.value && after == files - {target.value})
            && (r.Failure? ==>
                  && after == files
                  && r.error == (if target.None? then PathOutsideManagedWorkspace
                                 else if target.value !in files then RollbackTargetMissing
                                 else RollbackHashMismatch))
  {
    var target := TargetName(root, filename);
    if target.Some? && target.value in files && Sha256(files[target.value]) == Sha256(text) {
      Sha256IsInjective(files[target.value], text);
    }
  }

  class ManagedNoteStore {
    const root: Path
    var files: Files

    constructor (root: Path, files: Files)
      ensures this.root == root && this.files == files
    {
      this.root := root;
      this.files := files;
    }

    method Create(note: PreparedNote, openFails: bool) returns (r: Result<CreatedNote, NoteError>)
      modifies this
      ensures (r, files) == CreateFile(root, old(files), note, openFails)
    {
      var target := TargetName(root, note.filename);
      if target.None? {
        return Failure(PathOutsideManagedWorkspace);
      }
      if openFails {
        return Failure(NoteCreateFailed);
      }
      if target.value in files {
        return Failure(NoteAlreadyExists);
      }
      ghost var before := files;
      files := files[target.value := ""];
      files := files[target.value := note.content];
      var actual := files[target.value];
      var actualSha256 := Sha256(actual);
      if actual != note.content || actualSha256 != note.contentSha256 {
        files := files - {target.value};
        assert files == before;
        return Failure(PostWriteVerificationFailed);
      }
      r := Success(CreatedNote(note.filename, |actual|, actualSha256));
      assert files == before[target.value := note.content];
    }

    method Rollback(filename: string, expectedSha256: string) returns (r: Result<string, NoteError>)
      modifies this
      ensures (r, files) == RemoveFile(root, old(files), filename, expectedSha256)
    {
      var target := TargetName(root, filename);
      if target.None? {
        return Failure(PathOutsideManagedWorkspace);
      }
      if target.value !in files {
        return Failure(RollbackTargetMissing);
      }
      if Sha256(files[target.value]) != expectedSha256 {
        return Failure(RollbackHashMismatch);
      }
      files := files - {target.value};
      if target.value in files {
        return Failure(RollbackDeleteVerificationFailed);
      }
      r := Success(target.value);
    }
  }
}
