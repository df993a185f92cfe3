/**
 * The Kanban board: one column per branch, each holding that branch's messages that match the
 * search query, oldest first.
 */
module Kanban {
  import opened Wrappers
  import opened Types
  import opened Text
  import opened Seqs
  import opened Sorting

  /** The search filter: an empty query keeps everything, else a case-insensitive substring test. */
  function SearchHit(query: string): Message -> bool {
    (m: Message) => query == "" || Contains(Lower(m.content), Lower(query))
  }

  /** `getMessagesForBranch(branchId)`: filter by branch, then by the query, then sort by time. */
  function MessagesForBranch(messages: seq<Message>, branchId: string, query: string): seq<Message> {
    SortBy(Filter(Filter(messages, MessageInBranch(branchId)), SearchHit(query)), TimestampOf)
  }

  /**
   * A column holds exactly the branch's messages that match the query, each as often as in the
   * document, sorted by non-decreasing timestamp.
   */
  lemma {:induction false} ColumnContents(messages: seq<Message>, branchId: string, query: string)
    ensures forall m ::
      multiset(MessagesForBranch(messages, branchId, query))[m] ==
        if m.branchId == branchId && SearchHit(query)(m) then multiset(messages)[m] else 0
    ensures forall i :: 0 <= i < |MessagesForBranch(messages, branchId, query)| ==>
      MessagesForBranch(messages, branchId, query)[i].branchId == branchId
    ensures SortedBy(MessagesForBranch(messages, branchId, query), TimestampOf)
  {
    var inBranch := Filter(messages, MessageInBranch(branchId));
    var hits := Filter(inBranch, SearchHit(query));
    FilterMultiset(messages, MessageInBranch(branchId));
    FilterMultiset(inBranch, SearchHit(query));
    SortBySorted(hits, TimestampOf);
    var column := MessagesForBranch(messages, branchId, query);
    forall i | 0 <= i < |column| ensures column[i].branchId == branchId {
      assert column[i] in multiset(column);
      assert multiset(column)[column[i]] > 0;
    }
  }

  /** An empty query applies no text filter. */
  lemma {:induction false} EmptyQueryKeepsAll(messages: seq<Message>)
    ensures Filter(messages, SearchHit("")) == messages
  {
    FilterAll(messages, SearchHit(""));
  }

  /** The search is insensitive to the case of the query. */
  lemma {:induction false} SearchIgnoresQueryCase(messages: seq<Message>, query: string)
    ensures Filter(messages, SearchHit(Lower(query))) == Filter(messages, SearchHit(query))
    decreases |messages|
  {
    LowerIdempotent(query);
    if messages != [] {
      SearchIgnoresQueryCase(messages[1..], query);
      assert Lower(query) == "" <==> query == "";
    }
  }

  /** One column of the board: its branch, its messages and the count in its header. */
  datatype Column = Column(branch: Branch, messages: seq<Message>, count: nat)

  /** What the view renders: the placeholder, or the columns. */
  datatype Board = Placeholder | Columns(columns: seq<Column>)

  /**
   * The board: the placeholder without a document or without branches; otherwise one column per
   * branch in branch order, whose header count is the length of its list.
   */
  function KanbanBoard(data: Option<Data>, query: string): (r: Board)
    ensures r.Placeholder? <==> data.None? || data.value.branches == []
    ensures r.Columns? ==>
      && |r.columns| == |data.value.branches|
      && forall i :: 0 <= i < |r.columns| ==>
           && r.columns[i].branch == data.value.branches[i]
           && r.columns[i].messages == MessagesForBranch(data.value.messages, data.value.branches[i].id, query)
           && r.columns[i].count == |r.columns[i].messages|
  {
    if data.None? || |data.value.branches| == 0 then Placeholder
    else
      var d := data.value;
      Columns(seq(|d.branches|, i requires 0 <= i < |d.branches| =>
        var column := MessagesForBranch(d.messages, d.branches[i].id, query);
        Column(d.branches[i], column, |column|)))
  }
}
