/**
 * The content script's `ConversationObserver`: the id of the conversation on the page, the id of
 * the last message it parsed (the parent of the next one), and the messages it hands to the
 * background worker.
 *
 * The page is given as a forest of `Parser.Node`s. Every call into `generateId` and the clock is
 * a parameter: `ids(k)` and `clock(k)` are the id and the time `parseMessage` obtains for the
 * `k`-th turn element of a scan.
 */
module Observer {
  import opened Wrappers
  import opened Types
  import opened Text
  import opened Seqs
  import opened Parser

  // ----- extractConversationId -----

  /** The characters of the capture group `[a-zA-Z0-9-]`. */
  predicate IsIdChar(c: char) {
    ('a' <= c <= 'z') || ('A' <= c <= 'Z') || ('0' <= c <= '9') || c == '-'
  }

  /** The end of the run of id characters starting at `k`. */
  function IdRunEnd(s: string, k: nat): (e: nat)
    requires k <= |s|
    ensures k <= e <= |s|
    ensures forall j :: k <= j < e ==> IsIdChar(s[j])
    ensures e < |s| ==> !IsIdChar(s[e])
    decreases |s| - k
  {
    if k < |s| && IsIdChar(s[k]) then IdRunEnd(s, k + 1) else k
  }

  /** The regular expression `/\/chat\/([a-zA-Z0-9-]+)/` matches `path` at index `i`. */
  predicate ChatMatchAt(path: string, i: int) {
    0 <= i && i + 7 <= |path| && path[i..i + 6] == "/chat/" && IsIdChar(path[i + 6])
  }

  /**
   * The capture group of the leftmost match at or after `k`: the whole run of id characters
   * after the first "/chat/" that is followed by one.
   */
  function ChatIdFrom(path: string, k: nat): (r: Option<string>)
    ensures r.None? ==> forall i :: k <= i ==> !ChatMatchAt(path, i)
    decreases |path| - k
  {
    if k + 7 > |path| then None
    else if ChatMatchAt(path, k) then Some(path[k + 6..IdRunEnd(path, k + 6)])
    else ChatIdFrom(path, k + 1)
  }

  /** The leftmost match at or after `k` is the one `ChatIdFrom` captures. */
  lemma {:induction false} ChatIdFromLeftmost(path: string, k: nat, i: nat)
    requires k <= i && ChatMatchAt(path, i)
    requires forall j :: k <= j < i ==> !ChatMatchAt(path, j)
    ensures ChatIdFrom(path, k) == Some(path[i + 6..IdRunEnd(path, i + 6)])
    decreases i - k
  {
    if k < i {
      ChatIdFromLeftmost(path, k + 1, i);
    }
  }

  /** Without a match at or after `k` nothing is captured. */
  lemma {:induction false} ChatIdFromNone(path: string, k: nat)
    requires forall i :: k <= i ==> !ChatMatchAt(path, i)
    ensures ChatIdFrom(path, k) == None
    decreases |path| - k
  {
    if k + 7 <= |path| {
      ChatIdFromNone(path, k + 1);
    }
  }

  /** `extractConversationId()`: the id in the path, else the fresh id `freshId`. */
  function ExtractConversationId(pathname: string, freshId: string): string {
    match ChatIdFrom(pathname, 0)
    case Some(id) => id
    case None => freshId
  }

  /**
   * A path of the form ".../chat/<id>..." yields the whole run of id characters after the first
   * "/chat/" followed by one: it is non-empty, made of id characters only, and not followed by
   * another.
   */
  lemma {:induction false} ConversationIdOfChatPath(pathname: string, freshId: string, i: nat)
    requires ChatMatchAt(pathname, i)
    requires forall j :: 0 <= j < i ==> !ChatMatchAt(pathname, j)
    ensures i + 6 < IdRunEnd(pathname, i + 6)
    ensures ExtractConversationId(pathname, freshId) == pathname[i + 6..IdRunEnd(pathname, i + 6)]
  {
    ChatIdFromLeftmost(pathname, 0, i);
  }

  /** A path without such a part yields the fresh id, and only such a path does. */
  lemma {:induction false} ConversationIdFallback(pathname: string, freshId: string)
    ensures (forall i :: !ChatMatchAt(pathname, i)) <==> ChatIdFrom(pathname, 0).None?
    ensures (forall i :: !ChatMatchAt(pathname, i)) ==> ExtractConversationId(pathname, freshId) == freshId
  {
    if forall i :: !ChatMatchAt(pathname, i) {
      ChatIdFromNone(pathname, 0);
    }
  }

  // ----- scans -----

  /** The selector of a conversation turn: `[data-testid^="conversation-turn-"]`. */
  const Turn := TestIdStartsWith("conversation-turn-")

  /** The scan's container: the turn list, else `main`, else none. */
  function Container(page: seq<Node>): Option<Node> {
    match FirstMatch(page, TestIdIs("conversation-turn-list"))
    case Some(c) => Some(c)
    case None => FirstMatch(page, TagIs("main"))
  }

  /**
   * The messages parsing `elements` one after the other sends, each with the id of the previous
   * sent message (at first `last`) as its parent, and the `lastMessageId` it leaves behind.
   */
  function Thread(elements: seq<Node>, cid: string, last: Option<string>, ids: nat -> string, clock: nat -> int)
    : (seq<Message>, Option<string>)
    decreases |elements|
  {
    if elements == [] then ([], last)
    else
      var k := |elements| - 1;
      var before := Thread(elements[..k], cid, last, ids, clock);
      match ParseMessage(elements[k], cid, before.1, ids(k), clock(k))
      case None => before
      case Some(m) => (before.0 + [m], Some(m.id))
  }

  /**
   * `messages` form a chain hanging from `first` and ending at `lastId`: the first message's
   * parent is `first`, each later message's parent is the one before it, `lastId` is the last
   * message's id (`first` when there is none); every message belongs to `cid` and sits on the
   * "main" placeholder branch.
   */
  ghost predicate Chained(messages: seq<Message>, first: Option<string>, lastId: Option<string>, cid: string) {
    && (messages == [] ==> lastId == first)
    && (messages != [] ==> lastId == Some(messages[|messages| - 1].id) && messages[0].parentId == first)
    && (forall i :: 0 < i < |messages| ==> messages[i].parentId == Some(messages[i - 1].id))
    && (forall i :: 0 <= i < |messages| ==> messages[i].conversationId == cid && messages[i].branchId == "main")
  }

  /** A message whose parent is the chain's end extends the chain. */
  lemma {:induction false} ChainedSnoc(messages: seq<Message>, m: Message, first: Option<string>, lastId: Option<string>, cid: string)
    requires Chained(messages, first, lastId, cid)
    requires m.parentId == lastId && m.conversationId == cid && m.branchId == "main"
    ensures Chained(messages + [m], first, Some(m.id), cid)
  {
    var ms := messages + [m];
    forall i | 0 < i < |ms| ensures ms[i].parentId == Some(ms[i - 1].id) {
      if i < |messages| {
        assert ms[i] == messages[i] && ms[i - 1] == messages[i - 1];
      }
    }
  }

  /** The chaining a scan performs, and no more messages than elements. */
  lemma {:induction false} ThreadChains(elements: seq<Node>, cid: string, last: Option<string>,
                                        ids: nat -> string, clock: nat -> int)
    ensures |Thread(elements, cid, last, ids, clock).0| <= |elements|
    ensures Chained(Thread(elements, cid, last, ids, clock).0, last, Thread(elements, cid, last, ids, clock).1, cid)
    decreases |elements|
  {
    if elements != [] {
      var k := |elements| - 1;
      ThreadChains(elements[..k], cid, last, ids, clock);
      var before := Thread(elements[..k], cid, last, ids, clock);
      var parsed := ParseMessage(elements[k], cid, before.1, ids(k), clock(k));
      if parsed.Some? {
        ChainedSnoc(before.0, parsed.value, last, before.1, cid);
      }
    }
  }

  /** One more element extends a scan by its message, when it parses. */
  lemma {:induction false} ThreadStep(elements: seq<Node>, i: nat, cid: string, last: Option<string>,
                                      ids: nat -> string, clock: nat -> int)
    requires i < |elements|
    ensures ParseMessage(elements[i], cid, Thread(elements[..i], cid, last, ids, clock).1, ids(i), clock(i)).None? ==>
      Thread(elements[..i + 1], cid, last, ids, clock) == Thread(elements[..i], cid, last, ids, clock)
    ensures ParseMessage(elements[i], cid, Thread(elements[..i], cid, last, ids, clock).1, ids(i), clock(i)).Some? ==>
      Thread(elements[..i + 1], cid, last, ids, clock)
      == (Thread(elements[..i], cid, last, ids, clock).0
            + [ParseMessage(elements[i], cid, Thread(elements[..i], cid, last, ids, clock).1, ids(i), clock(i)).value],
          Some(ParseMessage(elements[i], cid, Thread(elements[..i], cid, last, ids, clock).1, ids(i), clock(i)).value.id))
  {
    assert elements[..i + 1][..i] == elements[..i];
  }

  /** What `parseExistingMessages` sends and leaves in `lastMessageId`; nothing without a container. */
  function Scan(page: seq<Node>, cid: string, last: Option<string>, ids: nat -> string, clock: nat -> int)
    : (r: (seq<Message>, Option<string>))
  {
    match Container(page)
    case None => ([], last)
    case Some(c) => Thread(QuerySelectorAll(c, Turn), cid, last, ids, clock)
  }

  /**
   * A scan sends a chain hanging from the last message it started from, ending at the
   * `lastMessageId` it leaves, with at most one message per turn element; a page without a
   * container sends nothing and keeps the last message.
   */
  lemma {:induction false} ScanChains(page: seq<Node>, cid: string, last: Option<string>, ids: nat -> string, clock: nat -> int)
    ensures Chained(Scan(page, cid, last, ids, clock).0, last, Scan(page, cid, last, ids, clock).1, cid)
    ensures Container(page).Some? ==>
      |Scan(page, cid, last, ids, clock).0| <= |QuerySelectorAll(Container(page).value, Turn)|
    ensures Container(page).None? ==> Scan(page, cid, last, ids, clock) == ([], last)
  {
    if Container(page).Some? {
      ThreadChains(QuerySelectorAll(Container(page).value, Turn), cid, last, ids, clock);
    }
  }

  /** Only elements that parse send a message, and only they move `lastMessageId`. */
  lemma {:induction false} FailedParsesAreSkipped(elements: seq<Node>, extra: Node, cid: string, last: Option<string>,
                                                  ids: nat -> string, clock: nat -> int)
    requires ParseMessage(extra, cid, Thread(elements, cid, last, ids, clock).1, ids(|elements|), clock(|elements|)).None?
    ensures Thread(elements + [extra], cid, last, ids, clock) == Thread(elements, cid, last, ids, clock)
  {
    assert (elements + [extra])[..|elements|] == elements;
  }

  /** The element a newly added node stands for: itself if it is a turn, else its first turn descendant. */
  function NewNodeTarget(node: Node): Option<Node> {
    if Matches(node, Turn) then Some(node) else QuerySelector(node, Turn)
  }

  /**
   * The loop of `parseExistingMessages` over the turn elements: each element that parses is sent,
   * with the previous sent message (at first `last`) as its parent.
   */
  method ParseTurns(elements: seq<Node>, cid: string, last: Option<string>, ids: nat -> string, clock: nat -> int)
    returns (messages: seq<Message>, lastId: Option<string>)
    ensures messages == Thread(elements, cid, last, ids, clock).0
    ensures lastId == Thread(elements, cid, last, ids, clock).1
  {
    messages, lastId := [], last;
    var i := 0;
    while i < |elements|
      invariant 0 <= i <= |elements|
      invariant messages == Thread(elements[..i], cid, last, ids, clock).0
      invariant lastId == Thread(elements[..i], cid, last, ids, clock).1
    {
      ThreadStep(elements, i, cid, last, ids, clock);
      var message := ParseMessage(elements[i], cid, lastId, ids(i), clock(i));
      if message.Some? {
        lastId := Some(message.value.id);
        messages := messages + [message.value];
      }
      i := i + 1;
    }
    assert elements[..i] == elements;
  }

  /** `parseExistingMessages` on values: the container's turns, parsed by `ParseTurns`. */
  method ScanPage(page: seq<Node>, cid: string, last: Option<string>, ids: nat -> string, clock: nat -> int)
    returns (messages: seq<Message>, lastId: Option<string>)
    ensures messages == Scan(page, cid, last, ids, clock).0
    ensures lastId == Scan(page, cid, last, ids, clock).1
  {
    var container := Container(page);
    if container.None? {
      return [], last;
    }
    messages, lastId := ParseTurns(QuerySelectorAll(container.value, Turn), cid, last, ids, clock);
  }

  class ConversationObserver {
    var conversationId: string
    var lastMessageId: Option<string>
    /** The `currentUrl` the URL watcher compares against. */
    var currentUrl: string
    /** Every `NEW_MESSAGE` payload sent to the background worker, in order. */
    var sent: seq<Message>

    /**
     * `new ConversationObserver()` on a page with the given path, address and content: the id
     * comes from the path, and the turns already on the page are scanned as `parseExistingMessages`
     * does, with no last message yet.
     */
    constructor (pathname: string, href: string, freshId: string, page: seq<Node>, ids: nat -> string, clock: nat -> int)
      ensures conversationId == ExtractConversationId(pathname, freshId) && currentUrl == href
      ensures sent == Scan(page, conversationId, None, ids, clock).0
      ensures lastMessageId == Scan(page, conversationId, None, ids, clock).1
    {
      var cid := ExtractConversationId(pathname, freshId);
      var messages, last := ScanPage(page, cid, None, ids, clock);
      conversationId := cid;
      currentUrl := href;
      sent := messages;
      lastMessageId := last;
    }

    /** `parseExistingMessages()`: parses every turn in the container, chaining each to the last. */
    method ParseExistingMessages(page: seq<Node>, ids: nat -> string, clock: nat -> int)
      modifies this
      ensures conversationId == old(conversationId) && currentUrl == old(currentUrl)
      ensures sent == old(sent) + Scan(page, conversationId, old(lastMessageId), ids, clock).0
      ensures lastMessageId == Scan(page, conversationId, old(lastMessageId), ids, clock).1
    {
      var messages, last := ScanPage(page, conversationId, lastMessageId, ids, clock);
      sent := sent + messages;
      lastMessageId := last;
    }

    /**
     * `handleNewNode(node)`, with `id` and `time` what `parseMessage` obtains: at most one parse,
     * of the node itself when it is a turn, else of its first turn descendant.
     */
    method HandleNewNode(node: Node, id: string, time: int)
      modifies this
      ensures conversationId == old(conversationId) && currentUrl == old(currentUrl)
      ensures |old(sent)| <= |sent| <= |old(sent)| + 1
      ensures match NewNodeTarget(node)
        case None => sent == old(sent) && lastMessageId == old(lastMessageId)
        case Some(el) =>
          match ParseMessage(el, conversationId, old(lastMessageId), id, time)
          case None => sent == old(sent) && lastMessageId == old(lastMessageId)
          case Some(m) => sent == old(sent) + [m] && lastMessageId == Some(m.id)
    {
      if Matches(node, Turn) || QuerySelector(node, Turn).Some? {
        var messageEl := if Matches(node, Turn) then node else QuerySelector(node, Turn).value;
        var message := ParseMessage(messageEl, conversationId, lastMessageId, id, time);
        if message.Some? {
          lastMessageId := Some(message.value.id);
          sent := sent + [message.value];
        }
      }
    }

    /**
     * `checkUrl()` with the page's current address, path and content: nothing when the address is
     * unchanged; otherwise a new conversation id, no last message, and a fresh scan.
     */
    method CheckUrl(href: string, pathname: string, freshId: string, page: seq<Node>, ids: nat -> string, clock: nat -> int)
      modifies this
      ensures href == old(currentUrl) ==>
        conversationId == old(conversationId) && lastMessageId == old(lastMessageId) && sent == old(sent)
        && currentUrl == old(currentUrl)
      ensures href != old(currentUrl) ==>
        && currentUrl == href
        && conversationId == ExtractConversationId(pathname, freshId)
        && sent == old(sent) + Scan(page, conversationId, None, ids, clock).0
        && lastMessageId == Scan(page, conversationId, None, ids, clock).1
    {
      if href != currentUrl {
        currentUrl := href;
        conversationId := ExtractConversationId(pathname, freshId);
        lastMessageId := None;
        ParseExistingMessages(page, ids, clock);
      }
    }
  }
}
