/**
 * The conversation/branch/message store: every operation loads the whole document, changes a
 * copy of it and writes the whole document back.
 *
 * The pure functions below say what each operation does to the document; the class
 * `StorageManager` holds the stored blob and performs the same steps as the source, and its
 * methods are proved to leave exactly what those functions compute.
 */
module Storage {
  import opened Wrappers
  import opened Types
  import opened Seqs
  import Utils

  /** The `Error` the source throws when a referenced record does not exist. */
  datatype StoreError = NotFound(message: string)

  /** `createInitialData()`. */
  function InitialData(now: Iso): Data {
    Data(
      "1.0",
      Meta(now, now, "claude.ai"),
      [], [], [],
      Utils.DefaultTags(now),
      Settings(KanbanView, Auto, Utils.DefaultTags(now), Utils.DefaultColorPalette()))
  }

  /** `createConversation(id)`; `url` is the page address the source reads from `window.location`. */
  function CreateConversation(id: string, url: string, now: Iso): Conversation {
    Conversation(id, "New Conversation", url, "", now, now, false)
  }

  /** `createMainBranch(conversationId)`, with the freshly generated id `id`. */
  function CreateMainBranch(id: string, conversationId: string, now: Iso): Branch {
    Branch(id, conversationId, None, "Main", "#6366f1", now, "", [])
  }

  /** What `saveData` writes: the document with its `meta.updatedAt` stamped. */
  function Saved(data: Data, now: Iso): Data {
    data.(meta := data.meta.(updatedAt := now))
  }

  // ----- addMessage, step by step -----

  /**
   * Step 1 of `addMessage`: when no conversation has the message's conversation id, append a new
   * conversation and its "Main" branch and point both the conversation's root and the message at
   * that branch. Yields the document, the message as it will be stored, and the index of the
   * conversation the message belongs to.
   */
  function EnsureConversation(data: Data, message: Message, mainBranchId: string, url: string, now: Iso)
    : (r: (Data, Message, nat))
    ensures r.2 < |r.0.conversations|
  {
    var ci := FindIndex(data.conversations, ConversationWithId(message.conversationId));
    if ci >= 0 then (data, message, ci)
    else
      var conversation := CreateConversation(message.conversationId, url, now).(rootBranchId := mainBranchId);
      var main := CreateMainBranch(mainBranchId, message.conversationId, now);
      (data.(conversations := data.conversations + [conversation], branches := data.branches + [main]),
       message.(branchId := mainBranchId),
       |data.conversations|)
  }

  /**
   * Step 2: when the message names a parent and the first message with that id does not list the
   * child yet, append the child's id to that message's `childIds`.
   */
  function LinkChild(messages: seq<Message>, child: Message): (r: seq<Message>)
    ensures |r| == |messages|
    ensures forall j :: 0 <= j < |messages| ==>
      r[j] == (if Truthy(child.parentId) && FirstAt(messages, j, MessageWithId(child.parentId.value))
                  && child.id !in messages[j].childIds
               then messages[j].(childIds := messages[j].childIds + [child.id])
               else messages[j])
    ensures forall j :: 0 <= j < |messages| && NoDuplicates(messages[j].childIds) ==> NoDuplicates(r[j].childIds)
  {
    if !Truthy(child.parentId) then messages
    else
      var pi := FindIndex(messages, MessageWithId(child.parentId.value));
      if pi >= 0 && child.id !in messages[pi].childIds
      then messages[pi := messages[pi].(childIds := messages[pi].childIds + [child.id])]
      else messages
  }

  /** Step 4: append `messageId` to the first branch whose id is `branchId`, if there is one. */
  function AppendToBranch(branches: seq<Branch>, branchId: string, messageId: string): (r: seq<Branch>)
    ensures |r| == |branches|
    ensures forall j :: 0 <= j < |branches| ==>
      r[j] == (if FirstAt(branches, j, BranchWithId(branchId))
               then branches[j].(messageIds := branches[j].messageIds + [messageId])
               else branches[j])
    ensures !HasBranch(branches, branchId) ==> r == branches
  {
    var bi := FindIndex(branches, BranchWithId(branchId));
    if bi >= 0 then branches[bi := branches[bi].(messageIds := branches[bi].messageIds + [messageId])]
    else branches
  }

  /** The document after `addMessage(message)`, before `saveData` stamps it. */
  function Ingest(data: Data, message: Message, mainBranchId: string, url: string, now: Iso): Data {
    var (d, stored, ci) := EnsureConversation(data, message, mainBranchId, url, now);
    d.(messages := LinkChild(d.messages, stored) + [stored],
       branches := AppendToBranch(d.branches, stored.branchId, stored.id),
       conversations := d.conversations[ci := d.conversations[ci].(updatedAt := now)])
  }

  // ----- what addMessage does -----

  /** The message as `addMessage` stores it: re-pointed at the new "Main" branch for an unseen conversation. */
  function Stored(data: Data, message: Message, mainBranchId: string): Message {
    if HasConversation(data.conversations, message.conversationId) then message
    else message.(branchId := mainBranchId)
  }

  /** Some conversation in `cs` has the id `id`. */
  predicate HasConversation(cs: seq<Conversation>, id: string) {
    FindIndex(cs, ConversationWithId(id)) >= 0
  }

  /**
   * `addMessage` appends the (possibly re-pointed) message, exactly once and without looking for
   * an earlier copy, and touches no tag, setting, version or meta field.
   */
  lemma {:induction false} IngestAppendsMessage(data: Data, message: Message, mainBranchId: string, url: string, now: Iso)
    ensures var d := Ingest(data, message, mainBranchId, url, now);
      && |d.messages| == |data.messages| + 1
      && d.messages[|data.messages|] == Stored(data, message, mainBranchId)
      && d.tags == data.tags && d.settings == data.settings
      && d.version == data.version && d.meta == data.meta
  {
  }

  /**
   * For a conversation not yet stored, `addMessage` adds exactly one conversation, whose root is the
   * new branch, and exactly one branch, the parentless "Main" branch that then holds just the
   * message; every earlier conversation and branch is kept as it was, the parent gains the child
   * link, and the message is stored re-pointed at the new branch and otherwise as given.
   */
  lemma {:induction false} IngestNewConversation(data: Data, message: Message, mainBranchId: string, url: string, now: Iso)
    requires !HasConversation(data.conversations, message.conversationId)
    requires !HasBranch(data.branches, mainBranchId)
    ensures var d := Ingest(data, message, mainBranchId, url, now);
      && d.conversations == data.conversations
           + [CreateConversation(message.conversationId, url, now).(rootBranchId := mainBranchId)]
      && d.branches == data.branches
           + [CreateMainBranch(mainBranchId, message.conversationId, now).(messageIds := [message.id])]
      && d.messages == LinkChild(data.messages, message) + [message.(branchId := mainBranchId)]
      && d.branches[|data.branches|].parentBranchId.None?
      && d.branches[|data.branches|].name == "Main"
  {
    var d := Ingest(data, message, mainBranchId, url, now);
    var n := |data.branches|;
    var main := CreateMainBranch(mainBranchId, message.conversationId, now);
    var bs := data.branches + [main];
    assert FindIndex(data.conversations, ConversationWithId(message.conversationId)) < 0;
    assert FirstAt(bs, n, BranchWithId(mainBranchId));
    assert forall j :: 0 <= j < n ==> !FirstAt(bs, j, BranchWithId(mainBranchId));
    var r := AppendToBranch(bs, mainBranchId, message.id);
    assert d.branches == r;
    assert forall j :: 0 <= j < n ==> r[j] == data.branches[j];
    assert r[n] == main.(messageIds := [message.id]);
    assert r == data.branches + [main.(messageIds := [message.id])];
    assert LinkChild(data.messages, message.(branchId := mainBranchId)) == LinkChild(data.messages, message);
  }

  /**
   * For a stored conversation, `addMessage` only stamps that conversation's `updatedAt`, and the
   * message id goes to the first branch whose id is the message's `branchId`, if any; the message
   * is stored as given.
   */
  lemma {:induction false} IngestKnownConversation(data: Data, message: Message, mainBranchId: string, url: string, now: Iso)
    requires HasConversation(data.conversations, message.conversationId)
    ensures var d := Ingest(data, message, mainBranchId, url, now);
      && |d.conversations| == |data.conversations|
      && (forall c :: 0 <= c < |data.conversations| ==>
            d.conversations[c] ==
              if FirstAt(data.conversations, c, ConversationWithId(message.conversationId))
              then data.conversations[c].(updatedAt := now) else data.conversations[c])
      && d.branches == AppendToBranch(data.branches, message.branchId, message.id)
      && d.messages == LinkChild(data.messages, message) + [message]
  {
  }

  /**
   * The placeholder branch id a parsed message carries ("main") names no stored branch, so a
   * message for a known conversation lands in no branch: every branch stays as it was.
   */
  lemma {:induction false} PlaceholderLandsNowhere(data: Data, message: Message, mainBranchId: string, url: string, now: Iso)
    requires HasConversation(data.conversations, message.conversationId)
    requires !HasBranch(data.branches, message.branchId)
    ensures Ingest(data, message, mainBranchId, url, now).branches == data.branches
  {
    IngestKnownConversation(data, message, mainBranchId, url, now);
  }

  // ----- the link invariant -----

  /** Every child id and every branch member id names a stored message. */
  ghost predicate Linked(d: Data) {
    && (forall i, k :: 0 <= i < |d.messages| && 0 <= k < |d.messages[i].childIds| ==>
          HasMessage(d.messages, d.messages[i].childIds[k]))
    && (forall b, k :: 0 <= b < |d.branches| && 0 <= k < |d.branches[b].messageIds| ==>
          HasMessage(d.messages, d.branches[b].messageIds[k]))
  }

  /** Every conversation's root branch is stored. */
  ghost predicate RootsExist(d: Data) {
    forall c :: 0 <= c < |d.conversations| ==> HasBranch(d.branches, d.conversations[c].rootBranchId)
  }

  /** Every branch forked from a message has a stored message of that id marked as a branch point. */
  ghost predicate ForkPointsMarked(d: Data) {
    forall b :: 0 <= b < |d.branches| && d.branches[b].forkMessageId != "" ==>
      exists j :: 0 <= j < |d.messages| && d.messages[j].id == d.branches[b].forkMessageId && d.messages[j].isBranchPoint
  }

  /** The references between records that the store's operations keep intact. */
  ghost predicate WellLinked(d: Data) {
    Linked(d) && RootsExist(d) && ForkPointsMarked(d)
  }

  /** The initial document is well linked. */
  lemma {:induction false} InitialWellLinked(now: Iso)
    ensures WellLinked(InitialData(now))
  {
  }

  /** Appending a message keeps every stored message id stored. */
  lemma {:induction false} HasMessageAppend(ms: seq<Message>, extra: seq<Message>, id: string)
    requires HasMessage(ms, id)
    ensures HasMessage(ms + extra, id)
  {
    var j :| 0 <= j < |ms| && ms[j].id == id;
    assert (ms + extra)[j].id == id;
  }

  /** Linking a child changes no message id or branch-point mark, and at most appends `child.id` to a child list. */
  lemma {:induction false} LinkChildShape(messages: seq<Message>, child: Message)
    ensures var r := LinkChild(messages, child);
      forall j :: 0 <= j < |messages| ==>
        && r[j].id == messages[j].id && r[j].isBranchPoint == messages[j].isBranchPoint
        && (r[j].childIds == messages[j].childIds || r[j].childIds == messages[j].childIds + [child.id])
  {
  }

  /** Appending to a branch changes no branch id or fork point, and at most appends `messageId` to a member list. */
  lemma {:induction false} AppendToBranchShape(branches: seq<Branch>, branchId: string, messageId: string)
    ensures var r := AppendToBranch(branches, branchId, messageId);
      forall j :: 0 <= j < |branches| ==>
        && r[j].id == branches[j].id && r[j].forkMessageId == branches[j].forkMessageId
        && (r[j].messageIds == branches[j].messageIds || r[j].messageIds == branches[j].messageIds + [messageId])
  {
  }

  /** What steps 1, 2 and 4 of `addMessage` leave, as facts about ids and lists. */
  lemma {:induction false} IngestShape(data: Data, message: Message, mainBranchId: string, url: string, now: Iso)
    ensures var d := Ingest(data, message, mainBranchId, url, now);
      var n := |data.messages|;
      var nb := |data.branches|;
      && |d.messages| == n + 1 && d.messages[n].id == message.id && d.messages[n].childIds == message.childIds
      && (forall j :: 0 <= j < n ==>
            && d.messages[j].id == data.messages[j].id && d.messages[j].isBranchPoint == data.messages[j].isBranchPoint
            && (d.messages[j].childIds == data.messages[j].childIds
                || d.messages[j].childIds == data.messages[j].childIds + [message.id]))
      && nb <= |d.branches| <= nb + 1
      && |d.conversations| - |data.conversations| == |d.branches| - nb
      && (forall j :: 0 <= j < nb ==>
            && d.branches[j].id == data.branches[j].id && d.branches[j].forkMessageId == data.branches[j].forkMessageId
            && (d.branches[j].messageIds == data.branches[j].messageIds
                || d.branches[j].messageIds == data.branches[j].messageIds + [message.id]))
      && (|d.branches| == nb + 1 ==>
            && d.branches[nb].id == mainBranchId && d.branches[nb].forkMessageId == ""
            && (d.branches[nb].messageIds == [] || d.branches[nb].messageIds == [message.id])
            && d.conversations[|data.conversations|].rootBranchId == mainBranchId)
      && (forall c :: 0 <= c < |data.conversations| ==>
            d.conversations[c].rootBranchId == data.conversations[c].rootBranchId)
  {
    var (d1, stored, ci) := EnsureConversation(data, message, mainBranchId, url, now);
    LinkChildShape(d1.messages, stored);
    AppendToBranchShape(d1.branches, stored.branchId, stored.id);
    if !HasConversation(data.conversations, message.conversationId) {
      assert d1.branches[|data.branches|].messageIds == [];
    }
  }

  /** A stored id stays stored when records are only changed in place or appended. */
  lemma {:induction false} IdsStayStored(old_: seq<Message>, new_: seq<Message>, id: string)
    requires |old_| <= |new_|
    requires forall j :: 0 <= j < |old_| ==> new_[j].id == old_[j].id
    requires HasMessage(old_, id)
    ensures HasMessage(new_, id)
  {
    var j :| 0 <= j < |old_| && old_[j].id == id;
    assert new_[j].id == id;
  }

  /** Branch ids stay stored when branches are only changed in place or appended. */
  lemma {:induction false} BranchIdsStayStored(old_: seq<Branch>, new_: seq<Branch>, id: string)
    requires |old_| <= |new_|
    requires forall j :: 0 <= j < |old_| ==> new_[j].id == old_[j].id
    requires HasBranch(old_, id)
    ensures HasBranch(new_, id)
  {
    var j :| 0 <= j < |old_| && old_[j].id == id;
    assert new_[j].id == id;
  }

  /** Child lists stay resolvable when each may gain the id of the one message appended. */
  lemma {:induction false} ChildLinksKept(old_: seq<Message>, new_: seq<Message>, x: string)
    requires |new_| == |old_| + 1 && new_[|old_|].id == x && new_[|old_|].childIds == []
    requires forall j :: 0 <= j < |old_| ==>
      new_[j].id == old_[j].id && (new_[j].childIds == old_[j].childIds || new_[j].childIds == old_[j].childIds + [x])
    requires forall i, k :: 0 <= i < |old_| && 0 <= k < |old_[i].childIds| ==> HasMessage(old_, old_[i].childIds[k])
    ensures forall i, k :: 0 <= i < |new_| && 0 <= k < |new_[i].childIds| ==> HasMessage(new_, new_[i].childIds[k])
  {
    assert HasMessage(new_, x) by { assert new_[|old_|].id == x; }
    forall i, k | 0 <= i < |new_| && 0 <= k < |new_[i].childIds| ensures HasMessage(new_, new_[i].childIds[k]) {
      var c := new_[i].childIds[k];
      if c != x {
        assert i < |old_|;
        assert k < |old_[i].childIds| && old_[i].childIds[k] == c;
        IdsStayStored(old_, new_, c);
      }
    }
  }

  /** Branch member lists stay resolvable when each may gain the id of the one message appended. */
  lemma {:induction false} MemberLinksKept(oldB: seq<Branch>, newB: seq<Branch>, oldM: seq<Message>, newM: seq<Message>, x: string)
    requires |oldM| <= |newM| && forall j :: 0 <= j < |oldM| ==> newM[j].id == oldM[j].id
    requires HasMessage(newM, x)
    requires |oldB| <= |newB|
    requires forall j :: 0 <= j < |oldB| ==>
      newB[j].messageIds == oldB[j].messageIds || newB[j].messageIds == oldB[j].messageIds + [x]
    requires forall j :: |oldB| <= j < |newB| ==> newB[j].messageIds == [] || newB[j].messageIds == [x]
    requires forall b, k :: 0 <= b < |oldB| && 0 <= k < |oldB[b].messageIds| ==> HasMessage(oldM, oldB[b].messageIds[k])
    ensures forall b, k :: 0 <= b < |newB| && 0 <= k < |newB[b].messageIds| ==> HasMessage(newM, newB[b].messageIds[k])
  {
    forall b, k | 0 <= b < |newB| && 0 <= k < |newB[b].messageIds| ensures HasMessage(newM, newB[b].messageIds[k]) {
      var m := newB[b].messageIds[k];
      if m != x {
        assert b < |oldB|;
        assert k < |oldB[b].messageIds| && oldB[b].messageIds[k] == m;
        IdsStayStored(oldM, newM, m);
      }
    }
  }

  /** `addMessage` keeps every child id and branch member id resolvable. */
  lemma {:induction false} IngestKeepsLinked(data: Data, message: Message, mainBranchId: string, url: string, now: Iso)
    requires Linked(data)
    requires message.childIds == []
    ensures Linked(Ingest(data, message, mainBranchId, url, now))
  {
    var d := Ingest(data, message, mainBranchId, url, now);
    IngestShape(data, message, mainBranchId, url, now);
    ChildLinksKept(data.messages, d.messages, message.id);
    assert HasMessage(d.messages, message.id) by { assert d.messages[|data.messages|].id == message.id; }
    MemberLinksKept(data.branches, d.branches, data.messages, d.messages, message.id);
  }

  /** `addMessage` keeps every conversation's root branch stored. */
  lemma {:induction false} IngestKeepsRoots(data: Data, message: Message, mainBranchId: string, url: string, now: Iso)
    requires RootsExist(data)
    ensures RootsExist(Ingest(data, message, mainBranchId, url, now))
  {
    var d := Ingest(data, message, mainBranchId, url, now);
    IngestShape(data, message, mainBranchId, url, now);
    forall c | 0 <= c < |d.conversations| ensures HasBranch(d.branches, d.conversations[c].rootBranchId) {
      if c < |data.conversations| {
        BranchIdsStayStored(data.branches, d.branches, data.conversations[c].rootBranchId);
      } else {
        assert d.branches[|data.branches|].id == d.conversations[c].rootBranchId;
      }
    }
  }

  /** `addMessage` keeps every fork point marked. */
  lemma {:induction false} IngestKeepsForkPoints(data: Data, message: Message, mainBranchId: string, url: string, now: Iso)
    requires ForkPointsMarked(data)
    ensures ForkPointsMarked(Ingest(data, message, mainBranchId, url, now))
  {
    var d := Ingest(data, message, mainBranchId, url, now);
    var n := |data.messages|;
    IngestShape(data, message, mainBranchId, url, now);
    forall b | 0 <= b < |d.branches| && d.branches[b].forkMessageId != ""
      ensures exists j :: 0 <= j < |d.messages| && d.messages[j].id == d.branches[b].forkMessageId
                          && d.messages[j].isBranchPoint
    {
      var f := data.branches[b].forkMessageId;
      var j :| 0 <= j < n && data.messages[j].id == f && data.messages[j].isBranchPoint;
      assert d.messages[j].id == f && d.messages[j].isBranchPoint;
    }
  }

  /**
   * `addMessage` keeps the document well linked, for a message that lists no children yet (as every
   * message `parseMessage` builds does: the source does not check the incoming `childIds`).
   */
  lemma {:induction false} IngestPreservesWellLinked(data: Data, message: Message, mainBranchId: string, url: string, now: Iso)
    requires WellLinked(data)
    requires message.childIds == []
    ensures WellLinked(Ingest(data, message, mainBranchId, url, now))
  {
    IngestKeepsLinked(data, message, mainBranchId, url, now);
    IngestKeepsRoots(data, message, mainBranchId, url, now);
    IngestKeepsForkPoints(data, message, mainBranchId, url, now);
  }

  /** `createBranch` keeps the document well linked. */
  lemma {:induction false} ForkPreservesWellLinked(data: Data, conversationId: string, forkMessageId: string, name: string,
                                color: string, branchId: string, now: Iso)
    requires WellLinked(data)
    requires Fork(data, conversationId, forkMessageId, name, color, branchId, now).Success?
    ensures WellLinked(Fork(data, conversationId, forkMessageId, name, color, branchId, now).value.0)
  {
    var (d, branch) := Fork(data, conversationId, forkMessageId, name, color, branchId, now).value;
    var nb := |data.branches|;
    assert forall j :: 0 <= j < |data.messages| ==>
      d.messages[j].id == data.messages[j].id && d.messages[j].childIds == data.messages[j].childIds;
    forall id | HasMessage(data.messages, id) ensures HasMessage(d.messages, id) {
      IdsStayStored(data.messages, d.messages, id);
    }
    forall id | HasBranch(data.branches, id) ensures HasBranch(d.branches, id) {
      BranchIdsStayStored(data.branches, d.branches, id);
    }
    forall b | 0 <= b < |d.branches| && d.branches[b].forkMessageId != ""
      ensures exists j :: 0 <= j < |d.messages| && d.messages[j].id == d.branches[b].forkMessageId
                          && d.messages[j].isBranchPoint
    {
      if b < nb {
        var f := data.branches[b].forkMessageId;
        var j :| 0 <= j < |data.messages| && data.messages[j].id == f && data.messages[j].isBranchPoint;
        assert d.messages[j].id == f && d.messages[j].isBranchPoint;
      } else {
        var j :| FirstAt(data.messages, j, MessageWithId(forkMessageId)) && branch.parentBranchId == Some(data.messages[j].branchId);
        assert d.messages[j].id == forkMessageId && d.messages[j].isBranchPoint;
      }
    }
  }

  // ----- createBranch, addTag, updateMessage -----

  /**
   * The document and the new branch after `createBranch`, or the error it throws when no message
   * has the id `forkMessageId`.
   */
  function Fork(data: Data, conversationId: string, forkMessageId: string, name: string, color: string,
                branchId: string, now: Iso): (r: Result<(Data, Branch), StoreError>)
    ensures r.Failure? <==> !HasMessage(data.messages, forkMessageId)
    ensures r.Failure? ==> r.error == NotFound("Fork message not found")
    ensures r.Success? ==>
      var (d, branch) := r.value;
      && d == data.(messages := d.messages, branches := d.branches)
      && d.branches == data.branches + [branch]
      && |d.messages| == |data.messages|
      && (forall j :: 0 <= j < |data.messages| ==>
            d.messages[j] == if FirstAt(data.messages, j, MessageWithId(forkMessageId))
                             then data.messages[j].(isBranchPoint := true) else data.messages[j])
      && (exists j :: FirstAt(data.messages, j, MessageWithId(forkMessageId))
                      && branch.parentBranchId == Some(data.messages[j].branchId))
      && branch == Branch(branchId, conversationId, branch.parentBranchId, name, color, now, forkMessageId, [])
  {
    var fi := FindIndex(data.messages, MessageWithId(forkMessageId));
    if fi < 0 then Failure(NotFound("Fork message not found"))
    else
      var fork := data.messages[fi];
      var branch := Branch(branchId, conversationId, Some(fork.branchId), name, color, now, forkMessageId, []);
      Success((data.(messages := data.messages[fi := fork.(isBranchPoint := true)],
                     branches := data.branches + [branch]),
               branch))
  }

  /** The tag `addTag` builds from the caller's fields, a fresh id and the current time. */
  function NewTag(name: string, color: string, isPreset: bool, tagId: string, now: Iso): Tag {
    Tag(tagId, name, color, isPreset, now)
  }

  /** The document after `updateMessage`, or the error it throws for an unknown id. */
  function Update(data: Data, messageId: string, updates: MessagePatch): (r: Result<Data, StoreError>)
    ensures r.Failure? <==> !HasMessage(data.messages, messageId)
    ensures r.Failure? ==> r.error == NotFound("Message not found")
    ensures r.Success? ==>
      && r.value == data.(messages := r.value.messages)
      && |r.value.messages| == |data.messages|
      && forall j :: 0 <= j < |data.messages| ==>
           r.value.messages[j] == if FirstAt(data.messages, j, MessageWithId(messageId))
                                  then Merge(data.messages[j], updates) else data.messages[j]
  {
    var i := FindIndex(data.messages, MessageWithId(messageId));
    if i < 0 then Failure(NotFound("Message not found"))
    else Success(data.(messages := data.messages[i := Merge(data.messages[i], updates)]))
  }

  /**
   * The part of `data` that belongs to one conversation: its conversations, messages and branches
   * keep exactly the records of conversation `id`, in their stored order.
   */
  function Restrict(data: Data, id: string): (r: Data)
    ensures r == data.(conversations := r.conversations, messages := r.messages, branches := r.branches)
    ensures forall m :: m in r.messages <==> m in data.messages && m.conversationId == id
    ensures forall b :: b in r.branches <==> b in data.branches && b.conversationId == id
    ensures forall c :: c in r.conversations <==> c in data.conversations && c.id == id
  {
    FilterMembers(data.conversations, ConversationWithId(id));
    FilterMembers(data.messages, MessageInConversation(id));
    FilterMembers(data.branches, BranchInConversation(id));
    data.(conversations := Filter(data.conversations, ConversationWithId(id)),
          messages := Filter(data.messages, MessageInConversation(id)),
          branches := Filter(data.branches, BranchInConversation(id)))
  }

  /** Restricting keeps every conversation, message and branch of the conversation as often as it is stored. */
  lemma {:induction false} RestrictKeepsCounts(data: Data, id: string)
    ensures forall m :: multiset(Restrict(data, id).messages)[m] ==
                          if m.conversationId == id then multiset(data.messages)[m] else 0
    ensures forall b :: multiset(Restrict(data, id).branches)[b] ==
                          if b.conversationId == id then multiset(data.branches)[b] else 0
    ensures forall c :: multiset(Restrict(data, id).conversations)[c] ==
                          if c.id == id then multiset(data.conversations)[c] else 0
  {
    FilterMultiset(data.conversations, ConversationWithId(id));
    FilterMultiset(data.messages, MessageInConversation(id));
    FilterMultiset(data.branches, BranchInConversation(id));
  }

  /**
   * Restricting keeps the stored order: splitting any of the three lists at any point, the kept
   * records before the point come first, followed by the kept records after it.
   */
  lemma {:induction false} RestrictKeepsOrder(data: Data, id: string, k: nat, j: nat, c: nat)
    requires k <= |data.messages| && j <= |data.branches| && c <= |data.conversations|
    ensures Restrict(data, id).messages ==
      Restrict(data.(messages := data.messages[..k]), id).messages + Restrict(data.(messages := data.messages[k..]), id).messages
    ensures Restrict(data, id).branches ==
      Restrict(data.(branches := data.branches[..j]), id).branches + Restrict(data.(branches := data.branches[j..]), id).branches
    ensures Restrict(data, id).conversations ==
      Restrict(data.(conversations := data.conversations[..c]), id).conversations
      + Restrict(data.(conversations := data.conversations[c..]), id).conversations
  {
    assert data.messages == data.messages[..k] + data.messages[k..];
    FilterAppend(data.messages[..k], data.messages[k..], MessageInConversation(id));
    assert data.branches == data.branches[..j] + data.branches[j..];
    FilterAppend(data.branches[..j], data.branches[j..], BranchInConversation(id));
    assert data.conversations == data.conversations[..c] + data.conversations[c..];
    FilterAppend(data.conversations[..c], data.conversations[c..], ConversationWithId(id));
  }

  // ----- the stored blob -----

  /** The store over the one `localStorage` entry; `None` means nothing is stored yet. */
  class StorageManager {
    var blob: Option<Data>

    constructor (stored: Option<Data>)
      ensures blob == stored
    {
      blob := stored;
    }

    /**
     * `getData(conversationId)`: a fresh initial document when nothing is stored; otherwise the
     * stored document, restricted to one conversation's conversations, messages and branches when
     * `conversationId` is non-empty (tags, settings and meta stay whole).
     */
    function GetData(conversationId: string, now: Iso): (d: Data)
      reads this
      ensures blob.None? ==>
        && d == InitialData(now)
        && d.version == "1.0" && d.meta == Meta(now, now, "claude.ai")
        && d.conversations == [] && d.messages == [] && d.branches == []
        && |d.tags| == 5 && (forall i :: 0 <= i < 5 ==> d.tags[i].id == PresetTagIds[i] && d.tags[i].isPreset)
        && d.settings == Settings(KanbanView, Auto, d.tags, DefaultColors)
      ensures blob.Some? && conversationId == "" ==> d == blob.value
      ensures blob.Some? && conversationId != "" ==> d == Restrict(blob.value, conversationId)
    {
      if blob.None? then InitialData(now)
      else if conversationId != "" then Restrict(blob.value, conversationId)
      else blob.value
    }

    /** `saveData(data)`: stamps `meta.updatedAt` and replaces the blob. */
    method SaveData(data: Data, now: Iso)
      modifies this
      ensures blob == Some(Saved(data, now))
    {
      var stamped := data.(meta := data.meta.(updatedAt := now));
      blob := Some(stamped);
    }

    /**
     * `addMessage(message)`. `mainBranchId` is the id `generateId` would return for a new "Main"
     * branch, `url` the page address and `now` the clock reading.
     */
    method AddMessage(message: Message, mainBranchId: string, url: string, now: Iso)
      modifies this
      ensures blob == Some(Saved(Ingest(old(GetData("", now)), message, mainBranchId, url, now), now))
    {
      var data := GetData("", now);
      ghost var loaded := data;
      var msg := message;

      var ci := FindIndex(data.conversations, ConversationWithId(msg.conversationId));
      if ci < 0 {
        var conversation := CreateConversation(msg.conversationId, url, now);
        data := data.(conversations := data.conversations + [conversation]);
        var mainBranch := CreateMainBranch(mainBranchId, msg.conversationId, now);
        data := data.(branches := data.branches + [mainBranch]);
        ci := |data.conversations| - 1;
        data := data.(conversations := data.conversations[ci := data.conversations[ci].(rootBranchId := mainBranch.id)]);
        msg := msg.(branchId := mainBranch.id);
        assert data.conversations == loaded.conversations + [conversation.(rootBranchId := mainBranchId)];
      }
      assert (data, msg, ci) == EnsureConversation(loaded, message, mainBranchId, url, now);
      ghost var ensured := data;

      if msg.parentId.Some? && msg.parentId.value != "" {
        var pi := FindIndex(data.messages, MessageWithId(msg.parentId.value));
        if pi >= 0 && msg.id !in data.messages[pi].childIds {
          var parent := data.messages[pi];
          data := data.(messages := data.messages[pi := parent.(childIds := parent.childIds + [msg.id])]);
        }
      }

      assert data.messages == LinkChild(ensured.messages, msg);
      data := data.(messages := data.messages + [msg]);

      var bi := FindIndex(data.branches, BranchWithId(msg.branchId));
      if bi >= 0 {
        var branch := data.branches[bi];
        data := data.(branches := data.branches[bi := branch.(messageIds := branch.messageIds + [msg.id])]);
      }
      assert data.branches == AppendToBranch(ensured.branches, msg.branchId, msg.id);

      data := data.(conversations := data.conversations[ci := data.conversations[ci].(updatedAt := now)]);
      assert data == Ingest(loaded, message, mainBranchId, url, now);
      SaveData(data, now);
    }

    /**
     * `createBranch(conversationId, forkMessageId, name, color)`, with `branchId` the fresh id. On
     * an unknown fork message it fails and stores nothing.
     */
    method CreateBranch(conversationId: string, forkMessageId: string, name: string, color: string,
                        branchId: string, now: Iso)
      returns (r: Result<Branch, StoreError>)
      modifies this
      ensures match Fork(old(GetData("", now)), conversationId, forkMessageId, name, color, branchId, now)
        case Failure(e) => r == Failure(e) && blob == old(blob)
        case Success(p) => r == Success(p.1) && blob == Some(Saved(p.0, now))
    {
      var data := GetData("", now);
      var fi := FindIndex(data.messages, MessageWithId(forkMessageId));
      if fi < 0 {
        return Failure(NotFound("Fork message not found"));
      }
      var forkMessage := data.messages[fi];
      data := data.(messages := data.messages[fi := forkMessage.(isBranchPoint := true)]);
      var branch := Branch(branchId, conversationId, Some(forkMessage.branchId), name, color, now, forkMessageId, []);
      data := data.(branches := data.branches + [branch]);
      SaveData(data, now);
      return Success(branch);
    }

    /** `addTag(tag)`, with `tagId` the fresh id: appends the new tag and returns it. */
    method AddTag(name: string, color: string, isPreset: bool, tagId: string, now: Iso) returns (t: Tag)
      modifies this
      ensures t == NewTag(name, color, isPreset, tagId, now)
      ensures var d := old(GetData("", now)); blob == Some(Saved(d.(tags := d.tags + [t]), now))
    {
      var data := GetData("", now);
      t := Tag(tagId, name, color, isPreset, now);
      data := data.(tags := data.tags + [t]);
      SaveData(data, now);
    }

    /** `updateMessage(messageId, updates)`: merges the patch into the first message with that id. */
    method UpdateMessage(messageId: string, updates: MessagePatch, now: Iso) returns (r: Result<(), StoreError>)
      modifies this
      ensures match Update(old(GetData("", now)), messageId, updates)
        case Failure(e) => r == Failure(e) && blob == old(blob)
        case Success(d) => r == Success(()) && blob == Some(Saved(d, now))
    {
      var data := GetData("", now);
      var index := FindIndex(data.messages, MessageWithId(messageId));
      if index == -1 {
        return Failure(NotFound("Message not found"));
      }
      data := data.(messages := data.messages[index := Merge(data.messages[index], updates)]);
      SaveData(data, now);
      return Success(());
    }
  }
}
