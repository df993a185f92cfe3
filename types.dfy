/**
 * The persisted document of the extension and its records, with the constants they use.
 *
 * Message timestamps are integers (milliseconds since the epoch, what `new Date(ts).getTime()`
 * yields) because the views sort and bin by them; every other timestamp is only stored and
 * printed, so it stays opaque ISO 8601 text.
 */
module Types {
  import opened Wrappers

  /** ISO 8601 text as produced by `new Date().toISOString()`. */
  type Iso = string

  datatype Role = Human | Assistant

  /** One human or assistant turn. */
  datatype Message = Message(
    id: string,
    conversationId: string,
    branchId: string,
    parentId: Option<string>,
    childIds: seq<string>,
    role: Role,
    content: string,
    contentPreview: string,
    timestamp: int,
    tagIds: seq<string>,
    color: Option<string>,
    note: Option<string>,
    isBranchPoint: bool)

  /** A named, coloured fork of a conversation; `parentBranchId == None` marks the root. */
  datatype Branch = Branch(
    id: string,
    conversationId: string,
    parentBranchId: Option<string>,
    name: string,
    color: string,
    createdAt: Iso,
    forkMessageId: string,
    messageIds: seq<string>)

  /** One chat thread. */
  datatype Conversation = Conversation(
    id: string,
    title: string,
    url: string,
    rootBranchId: string,
    createdAt: Iso,
    updatedAt: Iso,
    isArchived: bool)

  datatype Tag = Tag(id: string, name: string, color: string, isPreset: bool, createdAt: Iso)

  datatype ViewKind = KanbanView | NetworkView | ThreeDView

  datatype Theme = Light | Dark | Auto

  datatype Settings = Settings(
    defaultView: ViewKind,
    theme: Theme,
    presetTags: seq<Tag>,
    colorPalette: seq<string>)

  datatype Meta = Meta(createdAt: Iso, updatedAt: Iso, source: string)

  /** The whole store, read and written as one blob. */
  datatype Data = Data(
    version: string,
    meta: Meta,
    conversations: seq<Conversation>,
    messages: seq<Message>,
    branches: seq<Branch>,
    tags: seq<Tag>,
    settings: Settings)

  /** A `Partial<Message>`: each field present in the patch overrides the record's. */
  datatype MessagePatch = MessagePatch(
    id: Option<string>,
    conversationId: Option<string>,
    branchId: Option<string>,
    parentId: Option<Option<string>>,
    childIds: Option<seq<string>>,
    role: Option<Role>,
    content: Option<string>,
    contentPreview: Option<string>,
    timestamp: Option<int>,
    tagIds: Option<seq<string>>,
    color: Option<Option<string>>,
    note: Option<Option<string>>,
    isBranchPoint: Option<bool>)

  /** The patch with no fields. */
  const NoChanges := MessagePatch(None, None, None, None, None, None, None, None, None, None, None, None, None)

  /** `{ ...m, ...patch }`. */
  function Merge(m: Message, p: MessagePatch): Message {
    Message(
      p.id.GetOr(m.id),
      p.conversationId.GetOr(m.conversationId),
      p.branchId.GetOr(m.branchId),
      p.parentId.GetOr(m.parentId),
      p.childIds.GetOr(m.childIds),
      p.role.GetOr(m.role),
      p.content.GetOr(m.content),
      p.contentPreview.GetOr(m.contentPreview),
      p.timestamp.GetOr(m.timestamp),
      p.tagIds.GetOr(m.tagIds),
      p.color.GetOr(m.color),
      p.note.GetOr(m.note),
      p.isBranchPoint.GetOr(m.isBranchPoint))
  }

  /** Merging the empty patch changes nothing, and merging a patch twice is merging it once. */
  lemma {:induction false} MergeLaws(m: Message, p: MessagePatch)
    ensures Merge(m, NoChanges) == m
    ensures Merge(Merge(m, p), p) == Merge(m, p)
  {
  }

  /** The eight colours of `DEFAULT_COLORS`. */
  const DefaultColors: seq<string> :=
    ["#ef4444", "#f59e0b", "#10b981", "#3b82f6", "#8b5cf6", "#ec4899", "#6b7280", "#000000"]

  /** The eighteen colours of `BRANCH_COLORS` (the first and the last are the same). */
  const BranchColors: seq<string> :=
    ["#6366f1", "#8b5cf6", "#a855f7", "#d946ef", "#ec4899", "#f43f5e", "#ef4444", "#f97316",
     "#f59e0b", "#eab308", "#84cc16", "#22c55e", "#10b981", "#14b8a6", "#06b6d4", "#0ea5e9",
     "#3b82f6", "#6366f1"]

  /** The values of `PRESET_TAG_IDS`, in declaration order. */
  const PresetTagIds: seq<string> :=
    ["tag-important", "tag-later", "tag-question", "tag-idea", "tag-reference"]

  // The conditions the source passes to `find`, `findIndex` and `filter`.

  function ConversationWithId(id: string): Conversation -> bool { (c: Conversation) => c.id == id }

  function MessageWithId(id: string): Message -> bool { (m: Message) => m.id == id }

  function BranchWithId(id: string): Branch -> bool { (b: Branch) => b.id == id }

  function MessageInConversation(id: string): Message -> bool { (m: Message) => m.conversationId == id }

  function BranchInConversation(id: string): Branch -> bool { (b: Branch) => b.conversationId == id }

  function MessageInBranch(id: string): Message -> bool { (m: Message) => m.branchId == id }

  /** The sort key of messages: their time, as `new Date(m.timestamp).getTime()` reads it. */
  function TimestampOf(m: Message): int { m.timestamp }

  /** Some message in `ms` has the id `id`. */
  ghost predicate HasMessage(ms: seq<Message>, id: string) {
    exists j :: 0 <= j < |ms| && ms[j].id == id
  }

  /** Some branch in `bs` has the id `id`. */
  ghost predicate HasBranch(bs: seq<Branch>, id: string) {
    exists j :: 0 <= j < |bs| && bs[j].id == id
  }

  /** JavaScript truthiness of a nullable string: present and not empty. */
  predicate Truthy(s: Option<string>) {
    s.Some? && s.value != ""
  }
}
