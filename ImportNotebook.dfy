/** The "Import Markdown notebook" button: a file chosen in its hidden file
    input is checked (exactly one file, at most 1 MB), read as text, turned
    into notebook blocks and handed to the notebook-creation callback. The
    import state it reports to its owner is idle, loading, or an error. */
module ImportNotebook {

  import opened Wrappers
  import opened Strings

  const InvalidImportFileMessage := "Cannot read the imported file. Check that the imported file is a Markdown-formatted text file."
  const FileTooLargeMessage := "File too large. Maximum allowed file size is 1MB."
  const MaxFileSizeInBytes := 1000 * 1000
  const NotebookSuffix := ".snb.md"
  const ImportingLabel := "Importing..."
  const ImportLabel := "Import Markdown notebook"

  /** `undefined`, the `'loading'` marker, or an error with its message. */
  datatype ImportState = Idle | Loading | Failed(message: string)

  /** A selected file: its name and its size in bytes. */
  datatype File = File(name: string, size: nat)

  /** What the reader's load event carries: no target, a string result, or a
      result that is not a string (`null`, an `ArrayBuffer`). */
  datatype LoadResult = NoTarget | TextResult(text: string) | OtherResult

  /** A block produced by the Markdown converter: its kind and its input. */
  datatype Block = Block(kind: string, input: string)

  /** A block in the shape of the notebook-creation input, as produced by the
      block serializer from a generated id and a converted block. */
  datatype BlockInput = BlockInput(id: string, kind: string, input: string)

  /** The argument of the notebook-creation callback. */
  datatype NotebookInput = NotebookInput(title: string, blocks: seq<BlockInput>, isPublic: bool, namespace: string)

  /** The outcome of checking a file selection. */
  datatype Selection = Rejected(message: string) | Accepted(file: File)

  /** The checks `onFileInputChange` makes before reading: exactly one file
      (a missing file list counts as none), then at most `MaxFileSizeInBytes`. */
  function Select(files: Option<seq<File>>): (r: Selection)
    ensures r.Accepted? <==> files.Some? && |files.value| == 1 && files.value[0].size <= MaxFileSizeInBytes
    ensures r.Accepted? ==> r.file == files.value[0]
    ensures !(files.Some? && |files.value| == 1) ==> r == Rejected(InvalidImportFileMessage)
    ensures files.Some? && |files.value| == 1 && files.value[0].size > MaxFileSizeInBytes ==> r == Rejected(FileTooLargeMessage)
  {
    if files.None? || |files.value| != 1 then Rejected(InvalidImportFileMessage)
    else if files.value[0].size > MaxFileSizeInBytes then Rejected(FileTooLargeMessage)
    else Accepted(files.value[0])
  }

  /** The size limit is inclusive: one file is accepted exactly when its
      size is at most 1,000,000 bytes and is otherwise too large, whatever its
      name; any other number of files is invalid. */
  lemma SizeBoundary(name: string, size: nat, files: seq<File>)
    ensures Select(Some([File(name, size)])).Accepted? <==> size <= MaxFileSizeInBytes
    ensures size <= MaxFileSizeInBytes ==> Select(Some([File(name, size)])) == Accepted(File(name, size))
    ensures size > MaxFileSizeInBytes ==> Select(Some([File(name, size)])) == Rejected(FileTooLargeMessage)
    ensures |files| != 1 ==> Select(Some(files)) == Rejected(InvalidImportFileMessage)
  {
  }

  /** `fileName.split('.snb.md')[0]`: the file name up to the first
      occurrence of `.snb.md`, or the whole name when it has none. */
  function Title(fileName: string): (t: string)
    ensures |t| <= |fileName| && fileName[..|t|] == t
    ensures t == fileName || OccursAt(fileName, NotebookSuffix, |t|)
    ensures forall j :: 0 <= j < |t| ==> !OccursAt(fileName, NotebookSuffix, j)
  {
    match IndexOf(fileName, NotebookSuffix)
    case Some(i) => fileName[..i]
    case None => fileName
  }

  /** A name in which the suffix does not start before its end gets the
      suffix stripped exactly. */
  lemma TitleStripsSuffix(name: string)
    requires forall j :: 0 <= j < |name| ==> !OccursAt(name + NotebookSuffix, NotebookSuffix, j)
    ensures Title(name + NotebookSuffix) == name
  {
    var f := name + NotebookSuffix;
    var t := Title(f);
    assert OccursAt(f, NotebookSuffix, |name|) by {
      assert f[|name|..|name| + |NotebookSuffix|] == NotebookSuffix;
    }
    assert |t| < |name| ==> !OccursAt(f, NotebookSuffix, |t|);
    assert |t| >= |name|;
    assert f[..|name|] == name;
  }

  /** A name without a dot gets the suffix stripped: `notes.snb.md` becomes
      `notes`. */
  lemma TitleOfDotFreeName(name: string)
    requires '.' !in name
    ensures Title(name + NotebookSuffix) == name
  {
    var f := name + NotebookSuffix;
    forall j | 0 <= j < |name| ensures !OccursAt(f, NotebookSuffix, j) {
      assert f[j] == name[j];
    }
    TitleStripsSuffix(name);
  }

  /** A name that does not contain the suffix is the title unchanged. */
  lemma TitleWithoutSuffix(name: string)
    requires forall j :: !OccursAt(name, NotebookSuffix, j)
    ensures Title(name) == name
  {
  }

  /** The notebook created from the text of file `fileName`: its title from
      the file name, one block per converted block in document order with the
      i-th generated id, not public, in the user's namespace. */
  function NotebookFor(fileName: string, text: string, userId: string, convert: string -> seq<Block>,
                       serialize: (string, Block) -> BlockInput, ids: nat -> string): (n: NotebookInput)
    ensures n.title == Title(fileName) && !n.isPublic && n.namespace == userId
    ensures |n.blocks| == |convert(text)|
    ensures forall k :: 0 <= k < |n.blocks| ==> n.blocks[k] == serialize(ids(k), convert(text)[k])
  {
    var blocks := convert(text);
    NotebookInput(Title(fileName), seq(|blocks|, k requires 0 <= k < |blocks| => serialize(ids(k), blocks[k])), false, userId)
  }

  /** Whether a load event carries text to convert (an empty string is
      falsy and rejected like no result). */
  predicate Usable(result: LoadResult)
  {
    result.TextResult? && result.text != ""
  }

  /** The button and its owner's view of one import: the import state it
      sets, the files it has started to read as text, and the notebooks it
      has handed to the creation callback. */
  class ImportButton {
    var importState: ImportState
    var readsStarted: seq<File>
    var imported: seq<NotebookInput>

    /** Every file the button started to read passed the selection checks. */
    ghost predicate Valid()
      reads this
    {
      forall k :: 0 <= k < |readsStarted| ==> readsStarted[k].size <= MaxFileSizeInBytes
    }

    constructor(initial: ImportState)
      ensures Valid()
      ensures importState == initial && readsStarted == [] && imported == []
    {
      importState := initial;
      readsStarted := [];
      imported := [];
    }

    /** The button is disabled while an import is loading. */
    predicate ButtonDisabled()
      reads this
    {
      importState == Loading
    }

    /** The button's label. */
    function ButtonLabel(): (caption: string)
      reads this
      ensures caption == ImportingLabel <==> ButtonDisabled()
      ensures caption == ImportLabel <==> !ButtonDisabled()
    {
      if importState == Loading then ImportingLabel else ImportLabel
    }

    /** `onFileInputChange`: a rejected selection sets the error and reads
        nothing; an accepted one sets the loading state and starts reading
        the file. */
    method OnFileInputChange(files: Option<seq<File>>)
      requires Valid()
      modifies this
      ensures Valid()
      ensures Select(files).Rejected? ==>
        importState == Failed(Select(files).message) && readsStarted == old(readsStarted)
      ensures Select(files).Accepted? ==>
        importState == Loading && readsStarted == old(readsStarted) + [Select(files).file]
      ensures imported == old(imported)
    {
      var selection := Select(files);
      if selection.Rejected? {
        importState := Failed(selection.message);
        return;
      }
      importState := Loading;
      readsStarted := readsStarted + [selection.file];
    }

    /** The load listener of the `read`-th started read: an unusable result
        sets the invalid-file error; usable text becomes a notebook handed to
        the creation callback, and the state is left to the owner. */
    method OnLoad(read: nat, result: LoadResult, userId: string, convert: string -> seq<Block>,
                  serialize: (string, Block) -> BlockInput, ids: nat -> string)
      requires Valid()
      requires read < |readsStarted|
      modifies this
      ensures Valid()
      ensures readsStarted == old(readsStarted)
      ensures !Usable(result) ==> importState == Failed(InvalidImportFileMessage) && imported == old(imported)
      ensures Usable(result) ==> importState == old(importState)
      ensures Usable(result) ==>
        imported == old(imported) + [NotebookFor(readsStarted[read].name, result.text, userId, convert, serialize, ids)]
    {
      if !Usable(result) {
        importState := Failed(InvalidImportFileMessage);
        return;
      }
      var notebook := NotebookFor(readsStarted[read].name, result.text, userId, convert, serialize, ids);
      imported := imported + [notebook];
    }
  }
}
