/** The tag filter of the filter bar: toggling a tag id in the selection, and the tags offered. */
module FilterBar {
  import opened Seqs

  function Other(tagId: string): string -> bool { (id: string) => id != tagId }

  /** `handleTagClick(tagId)`: a selected id is filtered out, an unselected one appended. */
  function Toggle(selected: seq<string>, tagId: string): seq<string> {
    if tagId in selected then Filter(selected, Other(tagId)) else selected + [tagId]
  }

  /** After a toggle, the clicked id is selected exactly when it was not; every other id keeps its state. */
  lemma {:induction false} ToggleMembership(selected: seq<string>, tagId: string)
    ensures forall x :: x in Toggle(selected, tagId) <==> if x == tagId then tagId !in selected else x in selected
  {
    FilterMembers(selected, Other(tagId));
  }

  /** The other ids stay as they were, in their order: a toggle only adds or removes the clicked id. */
  lemma {:induction false} ToggleKeepsOthers(selected: seq<string>, tagId: string)
    ensures Filter(Toggle(selected, tagId), Other(tagId)) == Filter(selected, Other(tagId))
    ensures tagId !in selected ==> Toggle(selected, tagId) == selected + [tagId]
  {
    if tagId in selected {
      FilterAll(Filter(selected, Other(tagId)), Other(tagId));
    } else {
      FilterAppend(selected, [tagId], Other(tagId));
      assert Filter([tagId], Other(tagId)) == [];
    }
  }

  /** Clicking an unselected tag twice restores the selection. */
  lemma {:induction false} ToggleTwice(selected: seq<string>, tagId: string)
    requires tagId !in selected
    ensures Toggle(Toggle(selected, tagId), tagId) == selected
  {
    var once := selected + [tagId];
    assert once[|selected|] == tagId;
    FilterAppend(selected, [tagId], Other(tagId));
    assert Filter([tagId], Other(tagId)) == [];
    FilterAll(selected, Other(tagId));
  }

  /** Filtering keeps a sequence free of duplicates. */
  lemma {:induction false} FilterKeepsDistinct<T>(s: seq<T>, p: T -> bool)
    requires NoDuplicates(s)
    ensures NoDuplicates(Filter(s, p))
    decreases |s|
  {
    if s != [] {
      FilterKeepsDistinct(s[1..], p);
      FilterMembers(s[1..], p);
    }
  }

  /** A selection without duplicates stays without duplicates. */
  lemma {:induction false} ToggleKeepsDistinct(selected: seq<string>, tagId: string)
    requires NoDuplicates(selected)
    ensures NoDuplicates(Toggle(selected, tagId))
  {
    if tagId in selected {
      FilterKeepsDistinct(selected, Other(tagId));
    } else {
      var r := selected + [tagId];
      forall i, j | 0 <= i < j < |r| ensures r[i] != r[j] {
        if j == |selected| {
          assert r[i] in selected;
        } else {
          assert r[i] == selected[i] && r[j] == selected[j];
        }
      }
    }
  }

  /** `tags.slice(0, 5)`: the tags offered as filters, the first five or all of them when fewer. */
  function OfferedTags<T>(tags: seq<T>): (r: seq<T>)
    ensures |r| == if |tags| < 5 then |tags| else 5
    ensures r <= tags
  {
    if |tags| < 5 then tags else tags[..5]
  }
}
