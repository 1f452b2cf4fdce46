/** The influx of one focal note (InfluxFile): its backlinks, the
    InlinkingFiles built from them and the rendered components. */
module InfluxFiles {

  import opened Seqs
  import opened Vault
  import opened InfluxLists

  /** The `validPaths` loop of makeInfluxList: walks the backlink entries in
      enumeration order and keeps the includable sources other than `focal`. */
  method CollectValidPaths(data: BacklinkData, focal: Path, includable: Path -> bool) returns (validPaths: seq<Path>)
    ensures validPaths == KeptPaths(Keys(data), focal, includable)
  {
    validPaths := [];
    var keys := Keys(data);
    for i := 0 to |data|
      invariant validPaths == KeptPaths(keys[..i], focal, includable)
    {
      var pathAsKey := data[i].source;
      assert keys[..i + 1][..i] == keys[..i] && keys[..i + 1][i] == pathAsKey;
      if pathAsKey != focal && includable(pathAsKey) {
        validPaths := validPaths + [pathAsKey];
      }
    }
    assert keys[..|data|] == keys;
  }

  /** The `Promise.all` fan-out of makeInfluxList: one makeSummary per note,
      each InlinkingFile pushed when its summary resolves. Units complete in an
      order the model leaves open, so the collected list is a permutation of the
      enumeration-order list; `allResolved` is false when some summary rejects. */
  method SummarizeAll(api: Api, focal: File, files: seq<File>) returns (inlinkingFilesNew: seq<InlinkingFile>, allResolved: bool)
    ensures allResolved == AllBuilt(api, focal, files)
    ensures allResolved ==> multiset(inlinkingFilesNew) == multiset(Built(api, focal, files))
  {
    inlinkingFilesNew := [];
    var failed := false;
    var pending := files;
    ghost var completed: seq<File> := [];
    while pending != []
      invariant multiset(completed) + multiset(pending) == multiset(files)
      invariant failed <==> !AllBuilt(api, focal, completed)
      invariant !failed ==> inlinkingFilesNew == Built(api, focal, completed)
      decreases |pending|
    {
      var k :| 0 <= k < |pending|;
      var linking := pending[k];
      RemoveAtMultiset(pending, k);
      pending := pending[..k] + pending[k + 1..];
      var summary := api.makeSummary(linking, focal);
      BuiltAppend(api, focal, completed, linking);
      if summary.Some? {
        inlinkingFilesNew := inlinkingFilesNew + [InlinkingFile(linking, summary.value)];
      } else {
        failed := true;
      }
      completed := completed + [linking];
    }
    assert multiset(completed) == multiset(files);
    AllBuiltPermutation(api, focal, completed, files);
    if !failed {
      BuiltPermutation(api, focal, completed, files);
    }
    allResolved := !failed;
  }

  /** Whether `p` is one of the keys of a backlink Map. */
  predicate IsSource(b: Backlinks, p: Path)
  {
    exists i :: 0 <= i < |b.data| && b.data[i].source == p
  }

  class InfluxFile {
    const uuid: Uuid
    const file: File
    const meta: Metadata
    var backlinks: Backlinks
    var inlinkingFiles: seq<InlinkingFile>
    var components: seq<Component>
    const show: bool
    const collapsed: bool

    /** The view of the note at `path`, queried from the vault as it is now;
        `id` is the freshly minted uuid. */
    constructor (path: Path, api: Api, id: Uuid)
      ensures uuid == id
      ensures file == api.getFileByPath(path)
      ensures meta == api.getMetadata(file)
      ensures backlinks == api.getBacklinks(file)
      ensures inlinkingFiles == [] && components == []
      ensures show == api.getShowStatus(file)
      ensures collapsed == api.getCollapsedStatus(file)
    {
      uuid := id;
      file := api.getFileByPath(path);
      meta := api.getMetadata(api.getFileByPath(path));
      backlinks := api.getBacklinks(api.getFileByPath(path));
      inlinkingFiles := [];
      components := [];
      show := api.getShowStatus(api.getFileByPath(path));
      collapsed := api.getCollapsedStatus(api.getFileByPath(path));
    }

    /** Re-queries the backlinks and tells whether `f` is one of their sources. */
    method ShouldUpdate(f: File, api: Api) returns (r: bool)
      modifies this`backlinks
      ensures backlinks == api.getBacklinks(file)
      ensures r <==> IsSource(backlinks, f.path)
    {
      backlinks := api.getBacklinks(file);
      var paths := Keys(backlinks.data);
      r := f.path in paths;
    }

    /** Re-queries the backlinks, builds one InlinkingFile per kept source and,
        once every summary has resolved, replaces inlinkingFiles with them in
        completion order. `ok` is false when some summary rejects: the method
        then fails before the assignment and inlinkingFiles keeps its old value. */
    method MakeInfluxList(api: Api) returns (ok: bool)
      modifies this`backlinks, this`inlinkingFiles
      ensures backlinks == api.getBacklinks(file)
      ensures ok == InfluxList(api, file).Some?
      ensures ok ==> multiset(inlinkingFiles) == multiset(InfluxList(api, file).value)
      ensures !ok ==> inlinkingFiles == old(inlinkingFiles)
    {
      backlinks := api.getBacklinks(file);
      var validPaths := CollectValidPaths(backlinks.data, file.path, api.isIncludableSource);
      var backlinksAsFiles := seq(|validPaths|, i requires 0 <= i < |validPaths| => api.getFileByPath(validPaths[i]));
      assert backlinksAsFiles == Resolve(api, validPaths);

      var inlinkingFilesNew, allResolved := SummarizeAll(api, file, backlinksAsFiles);
      if allResolved {
        inlinkingFiles := inlinkingFilesNew;
      }
      ok := allResolved;
    }

    /** Renders the InlinkingFiles when the note is shown; otherwise does nothing
        and returns None. */
    method RenderAllMarkdownBlocks(api: Api) returns (r: Option<seq<Component>>)
      modifies this`components
      ensures !show ==> r.None? && components == old(components)
      ensures show ==> components == api.renderAllMarkdownBlocks(inlinkingFiles) && r == Some(components)
    {
      if !show {
        return None;
      }
      components := api.renderAllMarkdownBlocks(inlinkingFiles);
      r := Some(components);
    }
  }

  /** Two rebuilds against the same vault agree: both succeed or both fail,
      and on success they publish the same InlinkingFiles, each in its own
      completion order; on failure the list is the one from before either. */
  method RebuildTwice(f: InfluxFile, api: Api) returns (first: seq<InlinkingFile>, ok1: bool, ok2: bool)
    modifies f
    ensures ok1 == ok2
    ensures ok1 ==> multiset(first) == multiset(f.inlinkingFiles)
    ensures !ok1 ==> first == old(f.inlinkingFiles) && f.inlinkingFiles == old(f.inlinkingFiles)
  {
    ok1 := f.MakeInfluxList(api);
    first := f.inlinkingFiles;
    ok2 := f.MakeInfluxList(api);
  }

  /** A backlink Map lists each linking note once, whatever the number of
      references it holds, so each kept source occurs exactly once. */
  lemma OneEntryPerSource(b: Backlinks, focal: Path, includable: Path -> bool, p: Path)
    ensures multiset(KeptPaths(Keys(b.data), focal, includable))[p] ==
            if IsSource(b, p) && Kept(p, focal, includable) then 1 else 0
  {
    KeptPathsOncePerKey(Keys(b.data), focal, includable, p);
  }

  /** Every note in the influx list reacts to its own modification: a kept
      source is a backlink key, so shouldUpdate answers true for it. */
  lemma KeptSourceTriggersUpdate(b: Backlinks, focal: Path, includable: Path -> bool, p: Path)
    requires p in KeptPaths(Keys(b.data), focal, includable)
    ensures IsSource(b, p)
  {
    KeptPathsMembers(Keys(b.data), focal, includable);
  }
}
