/**
 * The data rules of a message card: adding a tag, setting or resetting the colour, the tags shown
 * on the card and the truncated content it displays.
 */
module MessageCard {
  import opened Wrappers
  import opened Types
  import opened Seqs
  import Utils

  /** `handleAddTag(tagId)`: the update the card issues, none when the message already has the tag. */
  function AddTagPatch(message: Message, tagId: string): (r: Option<MessagePatch>)
    ensures r.None? <==> tagId in message.tagIds
  {
    if tagId in message.tagIds then None else Some(NoChanges.(tagIds := Some(message.tagIds + [tagId])))
  }

  /**
   * The update adds the tag at the end and changes nothing else, so a message whose tags are
   * distinct keeps them distinct, and adding the tag again issues no update.
   */
  lemma {:induction false} AddTagAppends(message: Message, tagId: string)
    requires tagId !in message.tagIds
    ensures AddTagPatch(message, tagId).Some?
    ensures Merge(message, AddTagPatch(message, tagId).value) == message.(tagIds := message.tagIds + [tagId])
    ensures NoDuplicates(message.tagIds) ==> NoDuplicates(Merge(message, AddTagPatch(message, tagId).value).tagIds)
    ensures AddTagPatch(Merge(message, AddTagPatch(message, tagId).value), tagId).None?
  {
    var ids := message.tagIds + [tagId];
    assert Merge(message, AddTagPatch(message, tagId).value).tagIds == ids;
    if NoDuplicates(message.tagIds) {
      forall i, j | 0 <= i < j < |ids| ensures ids[i] != ids[j] {
        if j == |message.tagIds| {
          assert ids[i] in message.tagIds;
        } else {
          assert ids[i] == message.tagIds[i] && ids[j] == message.tagIds[j];
        }
      }
    }
    assert ids[|message.tagIds|] == tagId;
  }

  /** `handleSetColor(color)`: an update carrying only the colour; `None` is the reset to null. */
  function ColorPatch(color: Option<string>): (p: MessagePatch)
    ensures p.color == Some(color)
  {
    NoChanges.(color := Some(color))
  }

  /** Setting the colour replaces it and nothing else, and resetting leaves no colour. */
  lemma {:induction false} SetColorChangesOnlyColor(message: Message, color: Option<string>)
    ensures Merge(message, ColorPatch(color)) == message.(color := color)
    ensures Merge(message, ColorPatch(None)).color == None
  {
  }

  function TagOf(tagIds: seq<string>): Tag -> bool { (t: Tag) => t.id in tagIds }

  /** `messageTags`: the tags whose id the message has, in the order of the tag list. */
  function MessageTags(tags: seq<Tag>, tagIds: seq<string>): seq<Tag> {
    Filter(tags, TagOf(tagIds))
  }

  /**
   * A tag is shown exactly when it is in the tag list and the message has its id; each shown tag
   * appears as often as in the list.
   */
  lemma {:induction false} MessageTagsMembers(tags: seq<Tag>, tagIds: seq<string>)
    ensures forall t :: t in MessageTags(tags, tagIds) <==> t in tags && t.id in tagIds
    ensures forall t :: multiset(MessageTags(tags, tagIds))[t] == if t.id in tagIds then multiset(tags)[t] else 0
  {
    FilterMembers(tags, TagOf(tagIds));
    FilterMultiset(tags, TagOf(tagIds));
  }

  /** The card's text: the content cut to 150 characters, marked with "..." when cut. */
  function DisplayedContent(message: Message): (r: string)
    ensures |r| <= 153
    ensures |message.content| <= 150 ==> r == message.content
    ensures |message.content| > 150 ==> r == message.content[..150] + "..."
  {
    Utils.Truncate(message.content, 150)
  }
}
