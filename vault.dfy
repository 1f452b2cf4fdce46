/** The host application as the plugin sees it: notes, backlink queries, the
    display policy and rendering, all given as values. The Api datatype stands
    for the ApiAdapter at one moment: a method that queries it is handed the
    current state of the vault, so a later call may see different backlinks. */
module Vault {

  import opened Seqs

  datatype Option<T> = None | Some(value: T)

  type Path = string

  /** A note of the vault (Obsidian's TFile). */
  datatype File = File(path: Path)

  /** What a vault event carries: a note or a folder (TFile or TFolder). */
  datatype AbstractFile = TFile(file: File) | TFolder(path: Path)

  /** A place inside a linking note that references the focal note. */
  datatype Location = Location(offset: nat)

  /** One entry of the backlink Map: the linking note's path and its references. */
  datatype BacklinkEntry = BacklinkEntry(source: Path, locations: seq<Location>)

  /** The entries of a Map: no key occurs twice. */
  type BacklinkData = entries: seq<BacklinkEntry> | forall i, j :: 0 <= i < j < |entries| ==> entries[i].source != entries[j].source
    witness []

  /** The keys of the backlink Map, in enumeration order: one per entry, none
      twice, and exactly the sources of the entries. */
  function Keys(entries: BacklinkData): (keys: seq<Path>)
    ensures |keys| == |entries|
    ensures Distinct(keys)
    ensures forall p :: p in keys <==> exists i :: 0 <= i < |entries| && entries[i].source == p
  {
    var keys := seq(|entries|, i requires 0 <= i < |entries| => entries[i].source);
    assert forall i :: 0 <= i < |entries| ==> keys[i] == entries[i].source;
    keys
  }

  /** The BacklinksObject returned by getBacklinks. */
  datatype Backlinks = Backlinks(data: BacklinkData)

  /** Opaque results of the host: metadata cache, summaries, rendered blocks,
      the stylesheet and a workspace leaf. */
  datatype Metadata = Metadata(handle: nat)
  datatype Summary = Summary(blocks: seq<string>)
  datatype Component = Component(handle: nat)
  datatype StyleSheet = StyleSheet(handle: nat)
  datatype Uuid = Uuid(text: string)

  /** A root leaf of the workspace: `modeType` is `leaf.view?.currentMode?.type`,
      `hasPreviewSection` whether its container holds a `.markdown-preview-section`
      element, and `filePath` is `leaf.view?.file.path`. */
  datatype Leaf = Leaf(handle: nat, modeType: Option<string>, hasPreviewSection: bool, filePath: Option<Path>)

  /** One linking note with its summary (an InlinkingFile after makeSummary). */
  datatype InlinkingFile = InlinkingFile(file: File, summary: Summary)

  /** The ApiAdapter and InlinkingFile.makeSummary as uninterpreted functions.
      `makeSummary(linking, focal)` is None when the summary promise rejects. */
  datatype Api = Api(
    getFileByPath: Path -> File,
    getMetadata: File -> Metadata,
    getBacklinks: File -> Backlinks,
    isIncludableSource: Path -> bool,
    getShowStatus: File -> bool,
    getCollapsedStatus: File -> bool,
    makeSummary: (File, File) -> Option<Summary>,
    renderAllMarkdownBlocks: seq<InlinkingFile> -> seq<Component>)
}
