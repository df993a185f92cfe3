/**
 * The data operations of the settings dialog: importing a document, exporting the store as
 * Markdown, and wiping the store behind the "DELETE" prompt.
 */
module Settings {
  import opened Wrappers
  import opened Types
  import opened Text
  import opened Seqs
  import opened Storage

  // ----- import -----

  /**
   * A parsed import file, by the tests `handleFileChange` and `saveData` make of it: whether its
   * `version` property is truthy, whether its `messages` property is an array, and `metaError`,
   * the message of the `TypeError` that stamping `meta.updatedAt` throws when `meta` is missing or
   * not an object (`None` when it is an object); `contents` is the document as the store would
   * hold it.
   */
  datatype ImportDocument = ImportDocument(versionTruthy: bool, messagesIsArray: bool, metaError: Option<string>, contents: Data)

  const InvalidFormat := "Invalid ThoughtFork data format"

  /** The validation of `handleFileChange`: a truthy `version` and an array of messages, or the error thrown. */
  function Validate(doc: ImportDocument): (r: Result<Data, string>)
    ensures r.Success? <==> doc.versionTruthy && doc.messagesIsArray
    ensures r.Success? ==> r.value == doc.contents
    ensures r.Failure? ==> r.error == InvalidFormat
  {
    if !doc.versionTruthy || !doc.messagesIsArray then Failure(InvalidFormat)
    else Success(doc.contents)
  }

  /** How `handleFileChange` ends: no file, cancelled, rejected with the alert shown, or imported. */
  datatype ImportOutcome = NoFile | Cancelled | Rejected(alert: string) | Imported

  const ImportFailed := "Failed to import data: "

  /**
   * `handleFileChange` with the chosen file already read and parsed (`Failure` carries the parse
   * error's message) and `confirmed` the answer to the overwrite prompt: a document that passes
   * validation and has a `meta` object replaces the store wholesale; in every other case nothing
   * is saved and the error's message is alerted.
   */
  method ImportFile(storage: StorageManager, file: Option<Result<ImportDocument, string>>, confirmed: bool, now: Iso)
    returns (outcome: ImportOutcome)
    modifies storage
    ensures file.None? ==> outcome == NoFile && storage.blob == old(storage.blob)
    ensures file.Some? && !confirmed ==> outcome == Cancelled && storage.blob == old(storage.blob)
    ensures file.Some? && confirmed && file.value.Failure? ==>
      outcome == Rejected(ImportFailed + file.value.error) && storage.blob == old(storage.blob)
    ensures file.Some? && confirmed && file.value.Success? ==>
      match Validate(file.value.value)
      case Failure(e) => outcome == Rejected(ImportFailed + e) && storage.blob == old(storage.blob)
      case Success(data) =>
        if file.value.value.metaError.Some? then
          outcome == Rejected(ImportFailed + file.value.value.metaError.value) && storage.blob == old(storage.blob)
        else
          outcome == Imported && storage.blob == Some(Saved(data, now))
  {
    if file.None? {
      return NoFile;
    }
    if !confirmed {
      return Cancelled;
    }
    if file.value.Failure? {
      return Rejected(ImportFailed + file.value.error);
    }
    var doc := file.value.value;
    var checked := Validate(doc);
    if checked.Failure? {
      return Rejected(ImportFailed + checked.error);
    }
    if doc.metaError.Some? {
      // `saveData` throws before it writes anything.
      return Rejected(ImportFailed + doc.metaError.value);
    }
    storage.SaveData(checked.value, now);
    return Imported;
  }

  // ----- Markdown export -----

  function ExportHeader(createdAt: Iso): string {
    "# ThoughtFork Export - " + createdAt + "\n\n"
  }

  function RoleHeading(role: Role): string {
    if role == Human then "### \U{1F464} User" else "### \U{1F916} Claude"
  }

  /** The block of one message: its role heading, its content and the rule that ends it. */
  function MessageBlock(m: Message): (r: string)
    ensures RoleHeading(m.role) <= r
    ensures |r| == |RoleHeading(m.role)| + 2 + |m.content| + 7
    ensures r[|RoleHeading(m.role)| + 2..|RoleHeading(m.role)| + 2 + |m.content|] == m.content
    ensures r[|r| - 7..] == "\n\n---\n\n"
  {
    RoleHeading(m.role) + "\n\n" + m.content + "\n\n---\n\n"
  }

  /** The block for one id of a branch: that of the first message with the id, nothing when none has it. */
  function BlockFor(messages: seq<Message>, id: string): string {
    var i := FindIndex(messages, MessageWithId(id));
    if i < 0 then "" else MessageBlock(messages[i])
  }

  /** An id without a message is skipped; otherwise the first message with the id is written. */
  lemma {:induction false} BlockForFirstMatch(messages: seq<Message>, id: string, j: int)
    ensures (forall k :: 0 <= k < |messages| ==> messages[k].id != id) ==> BlockFor(messages, id) == ""
    ensures FirstAt(messages, j, MessageWithId(id)) ==> BlockFor(messages, id) == MessageBlock(messages[j])
  {
  }

  /** The blocks of the ids, in order. */
  function Blocks(ids: seq<string>, messages: seq<Message>): string
    decreases |ids|
  {
    if ids == [] then "" else Blocks(ids[..|ids| - 1], messages) + BlockFor(messages, ids[|ids| - 1])
  }

  /** The section of one branch: its heading, then the blocks of its message ids in order. */
  function Section(branch: Branch, messages: seq<Message>): string {
    "## Branch: " + branch.name + "\n\n" + Blocks(branch.messageIds, messages)
  }

  /** One section per branch, in branch order. */
  function Sections(branches: seq<Branch>, messages: seq<Message>): string
    decreases |branches|
  {
    if branches == [] then "" else Sections(branches[..|branches| - 1], messages) + Section(branches[|branches| - 1], messages)
  }

  /** The Markdown `handleExportMarkdown` writes for a document. */
  function Markdown(data: Data): string {
    ExportHeader(data.meta.createdAt) + Sections(data.branches, data.messages)
  }

  lemma {:induction false} BlocksSnoc(ids: seq<string>, messages: seq<Message>, k: nat)
    requires k < |ids|
    ensures Blocks(ids[..k + 1], messages) == Blocks(ids[..k], messages) + BlockFor(messages, ids[k])
  {
    assert ids[..k + 1][..k] == ids[..k];
  }

  lemma {:induction false} SectionsSnoc(branches: seq<Branch>, messages: seq<Message>, b: nat)
    requires b < |branches|
    ensures Sections(branches[..b + 1], messages) == Sections(branches[..b], messages) + Section(branches[b], messages)
  {
    assert branches[..b + 1][..b] == branches[..b];
  }

  /**
   * The export starts with its header, and a document with one more branch exports to the same
   * text followed by that branch's section.
   */
  lemma {:induction false} MarkdownAddBranch(data: Data, more: Data, branch: Branch)
    requires more.meta.createdAt == data.meta.createdAt && more.messages == data.messages
    requires more.branches == data.branches + [branch]
    ensures ExportHeader(data.meta.createdAt) <= Markdown(data)
    ensures Markdown(more) == Markdown(data) + Section(branch, data.messages)
  {
    var n := |data.branches|;
    SectionsSnoc(more.branches, data.messages, n);
    assert more.branches[..n + 1] == more.branches;
    assert more.branches[..n] == data.branches;
  }

  /** The inner `forEach`: the blocks of a branch's message ids, appended one by one. */
  method WriteBlocks(ids: seq<string>, messages: seq<Message>) returns (out: string)
    ensures out == Blocks(ids, messages)
  {
    out := "";
    for k := 0 to |ids|
      invariant out == Blocks(ids[..k], messages)
    {
      BlocksSnoc(ids, messages, k);
      var i := FindIndex(messages, MessageWithId(ids[k]));
      if i >= 0 {
        out := out + MessageBlock(messages[i]);
      }
    }
    assert ids[..|ids|] == ids;
  }

  /** The outer `forEach`: a heading per branch followed by its blocks. */
  method WriteMarkdown(data: Data) returns (md: string)
    ensures md == Markdown(data)
  {
    var header := ExportHeader(data.meta.createdAt);
    var body := "";
    for b := 0 to |data.branches|
      invariant body == Sections(data.branches[..b], data.messages)
    {
      var branch := data.branches[b];
      var blocks := WriteBlocks(branch.messageIds, data.messages);
      SectionsSnoc(data.branches, data.messages, b);
      body := body + ("## Branch: " + branch.name + "\n\n" + blocks);
    }
    assert data.branches[..|data.branches|] == data.branches;
    md := header + body;
  }

  /** `handleExportMarkdown`: the Markdown of the document `getData()` returns. */
  method ExportMarkdown(storage: StorageManager, now: Iso) returns (md: string)
    ensures md == Markdown(storage.GetData("", now))
  {
    var data := storage.GetData("", now);
    md := WriteMarkdown(data);
  }

  // ----- clearing -----

  /** `handleClearData` with `confirmText` the prompt's answer (`None` when dismissed). */
  method ClearData(storage: StorageManager, confirmText: Option<string>)
    modifies storage
    ensures confirmText == Some("DELETE") ==> storage.blob == None
    ensures confirmText != Some("DELETE") ==> storage.blob == old(storage.blob)
  {
    if confirmText == Some("DELETE") {
      storage.blob := None;
    }
  }
}
