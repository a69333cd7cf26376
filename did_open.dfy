/** What the server tells the user when a document is opened: whether no
    root module, or more than one, claims the document's directory, and how
    the candidates' paths are shown. */
module DidOpen {
  import opened Wrappers
  import opened Strings
  import opened RootModules

  /** os.PathSeparator on the POSIX systems this model assumes. */
  const PathSeparator: char := '/'

  /** A candidate's path relative to the workspace root, or "." for the root
      itself. */
  function RenderCandidatePath(rootDir: string, candidate: RootModule): (rendered: string)
    ensures rendered != ""
  {
    var trimmed := TrimPrefix(TrimPrefix(candidate.Path(), rootDir), [PathSeparator]);
    if trimmed == "" then "." else trimmed
  }

  /** What is shown is "." or a tail of the candidate's own path: the
      rendering only ever removes a leading part. */
  lemma {:induction false} RenderedIsSuffix(rootDir: string, candidate: RootModule)
    ensures var rendered := RenderCandidatePath(rootDir, candidate);
      rendered == "." || rendered == candidate.Path()[|candidate.Path()| - |rendered|..]
  {
    var path := candidate.Path();
    var relative := TrimPrefix(path, rootDir);
    TrimPrefixRejoins(path, rootDir);
    TrimPrefixRejoins(relative, [PathSeparator]);
    SuffixOfSuffix(path, relative, TrimPrefix(relative, [PathSeparator]));
  }

  /** The root directory itself, with or without a trailing separator, is
      shown as ".". */
  lemma RenderRootDirectory(rootDir: string, candidate: RootModule)
    requires candidate.Path() == rootDir || candidate.Path() == rootDir + [PathSeparator]
    ensures RenderCandidatePath(rootDir, candidate) == "."
  {
    if candidate.Path() == rootDir {
      TrimPrefixOfConcat(rootDir, "");
      assert rootDir + "" == rootDir;
    } else {
      TrimPrefixOfConcat(rootDir, [PathSeparator]);
      TrimPrefixOfConcat([PathSeparator], "");
      assert [PathSeparator] + "" == [PathSeparator];
    }
  }

  /** A module below the root is shown by its path relative to the root. */
  lemma RenderChildOfRoot(rootDir: string, relative: string, candidate: RootModule)
    requires relative != ""
    requires candidate.Path() == rootDir + [PathSeparator] + relative
    ensures RenderCandidatePath(rootDir, candidate) == relative
  {
    assert rootDir + [PathSeparator] + relative == rootDir + ([PathSeparator] + relative);
    TrimPrefixOfConcat(rootDir, [PathSeparator] + relative);
    TrimPrefixOfConcat([PathSeparator], relative);
  }

  /** A relative path outside the root is shown unchanged. */
  lemma RenderOutsideRoot(rootDir: string, candidate: RootModule)
    requires candidate.Path() != "" && !(rootDir <= candidate.Path())
    requires candidate.Path()[0] != PathSeparator
    ensures RenderCandidatePath(rootDir, candidate) == candidate.Path()
  {
  }

  /** An absolute path outside the root loses only its leading separator:
      under the root `/work/app`, `/srv/mod` is shown as `srv/mod`. */
  lemma RenderAbsoluteOutsideRoot(rootDir: string, rest: string, candidate: RootModule)
    requires rest != ""
    requires candidate.Path() == [PathSeparator] + rest && !(rootDir <= candidate.Path())
    ensures RenderCandidatePath(rootDir, candidate) == rest
  {
    TrimPrefixOfConcat([PathSeparator], rest);
  }

  /** A path that extends the root without a separator keeps only the
      extension, whatever the root (the empty root included). */
  lemma RenderExtensionOfRoot(rootDir: string, rest: string, candidate: RootModule)
    requires rest != "" && rest[0] != PathSeparator
    requires candidate.Path() == rootDir + rest
    ensures RenderCandidatePath(rootDir, candidate) == rest
  {
    TrimPrefixOfConcat(rootDir, rest);
  }

  /** An empty path is shown as ".". */
  lemma RenderEmptyPath(rootDir: string, candidate: RootModule)
    requires candidate.Path() == ""
    ensures RenderCandidatePath(rootDir, candidate) == "."
  {
  }

  /** The trimming does not look for a separator after the root: a sibling
      directory whose name extends the root's is shown by the extra letters. */
  lemma RenderSiblingOfRoot(candidate: RootModule)
    requires candidate.Path() == "/work/app-old"
    ensures RenderCandidatePath("/work/app", candidate) == "-old"
  {
    assert candidate.Path() == "/work/app" + "-old";
    TrimPrefixOfConcat("/work/app", "-old");
    assert "-old"[0] != PathSeparator;
  }

  /** The rendered path of every candidate, in order. */
  function RenderedPaths(rootDir: string, candidates: seq<RootModule>): (paths: seq<string>)
    ensures |paths| == |candidates|
    ensures forall i :: 0 <= i < |candidates| ==> paths[i] == RenderCandidatePath(rootDir, candidates[i])
  {
    seq(|candidates|, i requires 0 <= i < |candidates| => RenderCandidatePath(rootDir, candidates[i]))
  }

  /** The candidates' rendered paths separated by ", ". */
  method CandidatePaths(rootDir: string, candidates: seq<RootModule>) returns (joined: string)
    ensures joined == Join(RenderedPaths(rootDir, candidates), ", ")
  {
    var paths := new string[|candidates|];
    for i := 0 to |candidates|
      modifies paths
      invariant forall j :: 0 <= j < i ==> paths[j] == RenderCandidatePath(rootDir, candidates[j])
    {
      paths[i] := RenderCandidatePath(rootDir, candidates[i]);
    }
    assert paths[..] == RenderedPaths(rootDir, candidates);
    joined := Join(paths[..], ", ");
  }

  /** Every candidate's rendered path can be found in the joined list. */
  lemma CandidatePathsNameEachCandidate(rootDir: string, candidates: seq<RootModule>, i: int) returns (at: nat)
    requires 0 <= i < |candidates|
    ensures var paths := RenderedPaths(rootDir, candidates);
      at + |paths[i]| <= |Join(paths, ", ")| && Join(paths, ", ")[at..at + |paths[i]|] == paths[i]
  {
    at := JoinHoldsElement(RenderedPaths(rootDir, candidates), ", ", i);
  }

  /** The joined list is exactly the rendered paths and the separators
      between them. */
  lemma CandidatePathsLength(rootDir: string, candidates: seq<RootModule>)
    requires candidates != []
    ensures |Join(RenderedPaths(rootDir, candidates), ", ")| ==
            TotalLength(RenderedPaths(rootDir, candidates)) + 2 * (|candidates| - 1)
  {
    JoinLength(RenderedPaths(rootDir, candidates), ", ");
  }

  /** The fixed text around the file name in the "no root module" warning. */
  const NoRootHead: string := "No root module found for "
  const NoRootTail: string := ". Functionality may be limited. You may need to run terraform init"

  /** The warnings pushed to the client as window/showMessage. */
  datatype Notice =
    | NoRootModuleFound(fileName: string)
    | AlternativeRootModules(fileName: string, alternatives: string, picked: string)
  {
    /** The text shown: it names the file at the start, and a warning about
        alternatives ends with the path that was picked. */
    function Message(): (msg: string)
      ensures NoRootModuleFound? ==> NoRootHead + fileName <= msg
      ensures AlternativeRootModules? ==>
        && "Alternative root modules found for " + fileName + " (" + alternatives + ")" <= msg
        && |picked| <= |msg| && msg[|msg| - |picked|..] == picked
    {
      match this
      case NoRootModuleFound(fileName) =>
        NoRootHead + fileName + NoRootTail
      case AlternativeRootModules(fileName, alternatives, picked) =>
        "Alternative root modules found for " + fileName + " (" + alternatives + "), picked: " + picked
    }
  }

  /** Two "no root module" warnings read the same only when they are about
      the same file. */
  lemma NoRootMessageNamesFile(a: Notice, b: Notice)
    requires a.NoRootModuleFound? && b.NoRootModuleFound?
    requires a.Message() == b.Message()
    ensures a == b
  {
    MiddleDetermined(NoRootHead, a.fileName, b.fileName, NoRootTail);
  }

  /** Equal strings with the same head and tail have the same middle. */
  lemma MiddleDetermined(head: string, x: string, y: string, tail: string)
    requires head + x + tail == head + y + tail
    ensures x == y
  {
    var whole := head + x + tail;
    assert |x| == |y|;
    assert x == whole[|head|..|head| + |x|];
    assert y == (head + y + tail)[|head|..|head| + |y|];
  }

  /** The decision of TextDocumentDidOpen once the document is open: no
      root module is reported only once the walker has finished; more than
      one is reported whatever the walker is doing, naming the first
      candidate as the one picked. */
  method DidOpenNotice(isWalking: bool, fileName: string, rootDir: string, candidates: seq<RootModule>)
    returns (notice: Option<Notice>)
    ensures notice == Some(NoRootModuleFound(fileName)) <==> !isWalking && |candidates| == 0
    ensures (notice.Some? && notice.value.AlternativeRootModules?) <==> |candidates| > 1
    ensures notice.None? <==> |candidates| == 1 || (isWalking && |candidates| == 0)
    ensures notice.Some? && notice.value.AlternativeRootModules? ==>
      && notice.value.fileName == fileName
      && notice.value.alternatives == Join(RenderedPaths(rootDir, candidates[1..]), ", ")
      && notice.value.picked == RenderCandidatePath(rootDir, candidates[0])
  {
    if !isWalking && |candidates| == 0 {
      return Some(NoRootModuleFound(fileName));
    }
    if |candidates| > 1 {
      var alternatives := CandidatePaths(rootDir, candidates[1..]);
      return Some(AlternativeRootModules(fileName, alternatives, RenderCandidatePath(rootDir, candidates[0])));
    }
    return None;
  }
}
