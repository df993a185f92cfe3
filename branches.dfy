/**
 * The `createBranch` callback of the `useBranches` hook: it counts the conversation's branches,
 * derives a default name and a colour from that count, and hands over to
 * `StorageManager.createBranch`.
 */
module Branches {
  import opened Wrappers
  import opened Types
  import opened Text
  import opened Seqs
  import opened Storage
  import Utils

  /** The default name of the branch created when the conversation already has `count` branches. */
  function DefaultBranchName(count: nat): string {
    "Branch-" + Decimal(count + 1)
  }

  /** `name || \`Branch-${count + 1}\``: a missing or empty name falls back to the default. */
  function BranchName(name: Option<string>, count: nat): (r: string)
    ensures r != ""
    ensures Truthy(name) ==> r == name.value
    ensures !Truthy(name) ==> r == DefaultBranchName(count)
  {
    if name.Some? && name.value != "" then name.value else DefaultBranchName(count)
  }

  /** Different counts give different default names, so the defaults never collide. */
  lemma {:induction false} DefaultNamesDistinct(a: nat, b: nat)
    requires a != b
    ensures DefaultBranchName(a) != DefaultBranchName(b)
  {
    if DefaultBranchName(a) == DefaultBranchName(b) {
      var pa, pb := DefaultBranchName(a), DefaultBranchName(b);
      assert pa[7..] == Decimal(a + 1) && pb[7..] == Decimal(b + 1);
      DecimalInjective(a + 1, b + 1);
    }
  }

  /**
   * `createBranch(conversationId, forkMessageId, name)` with `branchId` the fresh id: the count
   * is that of the branches `getData(conversationId)` returns, and the result and the stored
   * document are exactly those of `StorageManager.createBranch` with the derived name and colour.
   */
  method CreateBranch(storage: StorageManager, conversationId: string, forkMessageId: string, name: Option<string>,
                      branchId: string, now: Iso)
    returns (r: Result<Branch, StoreError>)
    modifies storage
    ensures var count := |old(storage.GetData(conversationId, now)).branches|;
      match Fork(old(storage.GetData("", now)), conversationId, forkMessageId, BranchName(name, count),
                 Utils.GenerateBranchColor(count), branchId, now)
      case Failure(e) => r == Failure(e) && storage.blob == old(storage.blob)
      case Success(p) => r == Success(p.1) && storage.blob == Some(Saved(p.0, now))
  {
    var data := storage.GetData(conversationId, now);
    var branchCount := |data.branches|;
    r := storage.CreateBranch(conversationId, forkMessageId, BranchName(name, branchCount),
                              Utils.GenerateBranchColor(branchCount), branchId, now);
  }

  /**
   * The count is the number of the conversation's branches: for a non-empty id, the branches
   * whose `conversationId` is that id (every branch when the id is empty, as `getData` does).
   */
  lemma {:induction false} BranchCountOfConversation(storage: StorageManager, conversationId: string, now: Iso)
    requires storage.blob.Some?
    ensures conversationId != "" ==>
      |storage.GetData(conversationId, now).branches| == Count(storage.blob.value.branches, BranchInConversation(conversationId))
    ensures conversationId == "" ==> |storage.GetData(conversationId, now).branches| == |storage.blob.value.branches|
  {
  }
}
