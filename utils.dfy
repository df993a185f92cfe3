/** The pure helpers of the shared utilities: truncation, colour choice and the default tags. */
module Utils {
  import opened Types
  import opened Text

  /** `truncate(text, length)`: the text itself when it fits, else its first `length` characters and "...". */
  function Truncate(text: string, length: int): (r: string)
    ensures |text| <= length ==> r == text
    ensures |text| > length ==> r == Prefix(text, length) + "..."
    ensures 0 <= length < |text| ==> |r| == length + 3 && r[..length] == text[..length] && r[length..] == "..."
  {
    if |text| <= length then text else Prefix(text, length) + "..."
  }

  /** `generateBranchColor(index)`: the palette entry at `index` modulo the palette's size. */
  function GenerateBranchColor(index: nat): (c: string)
    ensures c in BranchColors
    ensures c == BranchColors[index % 18]
  {
    BranchColors[index % |BranchColors|]
  }

  /** The branch colours repeat with period 18. */
  lemma {:induction false} BranchColorPeriod(index: nat)
    ensures GenerateBranchColor(index + 18) == GenerateBranchColor(index)
  {
    var q, r := index / 18, index % 18;
    assert index + 18 == (q + 1) * 18 + r;
    assert (index + 18) % 18 == r;
  }

  /** `getDefaultTags()`: the five preset tags, all stamped with the same creation time. */
  function DefaultTags(now: Iso): (tags: seq<Tag>)
    ensures |tags| == 5
    ensures forall i :: 0 <= i < 5 ==> tags[i].isPreset && tags[i].createdAt == now && tags[i].id == PresetTagIds[i]
  {
    [ Tag("tag-important", "重要", "#ef4444", true, now),
      Tag("tag-later", "後で読む", "#f59e0b", true, now),
      Tag("tag-question", "質問", "#3b82f6", true, now),
      Tag("tag-idea", "アイデア", "#10b981", true, now),
      Tag("tag-reference", "参考", "#8b5cf6", true, now) ]
  }

  /** `getDefaultColorPalette()`: the eight default colours. */
  function DefaultColorPalette(): (colors: seq<string>)
    ensures colors == DefaultColors && |colors| == 8
  {
    DefaultColors
  }
}
