/**
 * `extractKeywords`: split every message into words, drop short, stop and numeric words, count
 * the rest over all messages together and return the most frequent ones, ties in the order the
 * words were first met.
 */
module Keywords {
  import opened Seqs
  import opened Text
  import opened Sorting

  /** The English and Japanese words that are never keywords. */
  const StopWords: set<string> := {
    "the", "a", "an", "and", "or", "but", "in", "on", "at", "to", "for", "of", "with", "by", "from",
    "up", "about", "into", "over", "after", "is", "are", "was", "were", "be", "been", "being",
    "have", "has", "had", "do", "does", "did", "will", "would", "should", "can", "could", "may",
    "might", "must", "i", "you", "he", "she", "it", "we", "they", "this", "that", "these", "those",
    "there", "here", "what", "which", "who", "whom", "whose", "where", "when", "why", "how",
    "の", "に", "は", "を", "が", "と", "て", "で", "し", "た", "ます", "です", "こと", "ある",
    "いる", "ない", "など", "から", "まで", "ため", "より", "よう"
  }

  /**
   * The characters the tokeniser keeps together: `\w` (ASCII letters, digits and `_`), the kana
   * blocks U+3040 to U+30FF and the CJK ideograph blocks U+3400 to U+4DBF and U+4E00 to U+9FFF.
   */
  predicate IsWordChar(c: char) {
    ('a' <= c <= 'z') || ('A' <= c <= 'Z') || ('0' <= c <= '9') || c == '_'
    || ('\U{3040}' <= c <= '\U{30FF}') || ('\U{3400}' <= c <= '\U{4DBF}') || ('\U{4E00}' <= c <= '\U{9FFF}')
  }

  /** The end of the run of separator characters starting at `k`. */
  function SeparatorRunEnd(s: string, k: nat): (e: nat)
    requires k <= |s|
    ensures k <= e <= |s|
    ensures forall j :: k <= j < e ==> !IsWordChar(s[j])
    ensures e < |s| ==> IsWordChar(s[e])
    decreases |s| - k
  {
    if k < |s| && !IsWordChar(s[k]) then SeparatorRunEnd(s, k + 1) else k
  }

  /**
   * The fields of `s.split(/[^word chars]+/)` from index `k` on, the current field having begun at
   * `start`: every maximal run of separators ends one field and begins the next, so a leading or
   * trailing run yields an empty field.
   */
  function SplitFrom(s: string, start: nat, k: nat): (r: seq<string>)
    requires start <= k <= |s|
    requires forall j :: start <= j < k ==> IsWordChar(s[j])
    ensures |r| >= 1
    ensures forall i, t :: 0 <= i < |r| && 0 <= t < |r[i]| ==> IsWordChar(r[i][t]) && r[i][t] in s
    decreases |s| - k
  {
    if k == |s| then [s[start..]]
    else if IsWordChar(s[k]) then SplitFrom(s, start, k + 1)
    else
      var e := SeparatorRunEnd(s, k + 1);
      [s[start..k]] + SplitFrom(s, e, e)
  }

  /** `s.split(/[^\w぀-ヿ㐀-䶿一-鿿]+/)`. */
  function Split(s: string): seq<string> {
    SplitFrom(s, 0, 0)
  }

  /** A word is counted when it has two characters or more, is no stop word and is not all digits. */
  predicate Kept(w: string) {
    |w| >= 2 && w !in StopWords && !AllDigits(w)
  }

  /** No character of `w` is an upper-case ASCII letter. */
  predicate Lowercase(w: string) {
    forall i :: 0 <= i < |w| ==> !IsUpper(w[i])
  }

  /**
   * The words of one message the inner `forEach` counts: those that pass the three early
   * returns, in order.
   */
  function KeptWords(words: seq<string>): (r: seq<string>)
    ensures forall i :: 0 <= i < |r| ==> Kept(r[i]) && r[i] in words
  {
    if words == [] then []
    else
      var w := words[|words| - 1];
      KeptWords(words[..|words| - 1]) + (if Kept(w) then [w] else [])
  }

  /** The counted words are the words filtered by `Kept`. */
  lemma {:induction false} KeptWordsIsFilter(words: seq<string>)
    ensures KeptWords(words) == Filter(words, Kept)
    decreases |words|
  {
    if words != [] {
      var init := words[..|words| - 1];
      var w := words[|words| - 1];
      KeptWordsIsFilter(init);
      assert words == init + [w];
      FilterAppend(init, [w], Kept);
      assert Filter([w], Kept) == if Kept(w) then [w] else [];
    }
  }

  /** The counted words of one message, in order; an empty message is skipped. */
  function Tokens(text: string): seq<string> {
    if text == "" then [] else KeptWords(Split(Lower(text)))
  }

  /** The counted words of all messages, message after message. */
  function AllTokens(messages: seq<string>): seq<string> {
    FlatMap(messages, Tokens)
  }

  /** Every token of a message is a counted, lower-case word. */
  lemma {:induction false} TokensKept(text: string)
    ensures forall i :: 0 <= i < |Tokens(text)| ==> Kept(Tokens(text)[i]) && Lowercase(Tokens(text)[i])
  {
    if text != "" {
      var low := Lower(text);
      var words := SplitFrom(low, 0, 0);
      var ts := KeptWords(words);
      forall i | 0 <= i < |ts| ensures Lowercase(ts[i]) {
        var a :| 0 <= a < |words| && words[a] == ts[i];
        forall t | 0 <= t < |ts[i]| ensures !IsUpper(ts[i][t]) {
          assert words[a][t] in low;
        }
      }
    }
  }

  /** Every token of every message is a counted, lower-case word. */
  lemma {:induction false} AllTokensKept(messages: seq<string>)
    ensures forall i :: 0 <= i < |AllTokens(messages)| ==> Kept(AllTokens(messages)[i]) && Lowercase(AllTokens(messages)[i])
    decreases |messages|
  {
    if messages != [] {
      var a := AllTokens(messages[..|messages| - 1]);
      var b := Tokens(messages[|messages| - 1]);
      AllTokensKept(messages[..|messages| - 1]);
      TokensKept(messages[|messages| - 1]);
      assert AllTokens(messages) == a + b;
      forall i | 0 <= i < |a + b| ensures Kept((a + b)[i]) && Lowercase((a + b)[i]) {
        if i < |a| { assert (a + b)[i] == a[i]; } else { assert (a + b)[i] == b[i - |a|]; }
      }
    }
  }

  /** The index of the first occurrence of `w` in `s`, or -1. */
  function PositionIn(s: seq<string>, w: string): int {
    FindIndex(s, Equals(w))
  }

  /** Equality with `w`, as a predicate. */
  function Equals(w: string): string -> bool {
    (t: string) => t == w
  }

  /** A word's position in `s` when it occurs there. */
  lemma {:induction false} PositionOf(s: seq<string>, i: nat)
    requires i < |s|
    ensures 0 <= PositionIn(s, s[i]) <= i && s[PositionIn(s, s[i])] == s[i]
  {
    assert Equals(s[i])(s[i]);
  }

  /** The keys of the source's `Map` after counting `ts`: each distinct word, in first-insertion order. */
  function Keys(ts: seq<string>): seq<string> {
    if ts == [] then []
    else
      var prev := Keys(ts[..|ts| - 1]);
      if ts[|ts| - 1] in prev then prev else prev + [ts[|ts| - 1]]
  }

  /** The keys are pairwise distinct, and they are exactly the words of `ts`. */
  lemma {:induction false} KeysSpec(ts: seq<string>)
    ensures NoDuplicates(Keys(ts))
    ensures forall w :: w in Keys(ts) <==> w in ts
    decreases |ts|
  {
    if ts != [] {
      var init := ts[..|ts| - 1];
      KeysSpec(init);
      assert ts == init + [ts[|ts| - 1]];
      forall w ensures w in Keys(ts) <==> w in ts {
        assert w in ts <==> w in init || w == ts[|ts| - 1];
      }
    }
  }

  /** Keys grow by the new word only when it was not met before. */
  lemma {:induction false} KeysSnoc(ts: seq<string>, w: string)
    ensures Keys(ts + [w]) == if w in ts then Keys(ts) else Keys(ts) + [w]
  {
    assert (ts + [w])[..|ts|] == ts;
    KeysSpec(ts);
  }

  /** How often `w` occurs in `ts`: the count the source's `Map` holds for `w`. */
  function CountOf(ts: seq<string>, w: string): nat {
    if ts == [] then 0 else CountOf(ts[..|ts| - 1], w) + (if ts[|ts| - 1] == w then 1 else 0)
  }

  /** The count is the word's multiplicity in `ts`. */
  lemma {:induction false} CountOfMultiplicity(ts: seq<string>, w: string)
    ensures CountOf(ts, w) == multiset(ts)[w]
    decreases |ts|
  {
    if ts != [] {
      var init := ts[..|ts| - 1];
      CountOfMultiplicity(init, w);
      assert ts == init + [ts[|ts| - 1]];
      assert multiset(ts) == multiset(init) + multiset{ts[|ts| - 1]};
    }
  }

  /** A `Map` entry: a word and its count. */
  type Entry = (string, nat)

  /** `Array.from(wordMap.entries())`. */
  function Entries(ts: seq<string>): (es: seq<Entry>)
    ensures |es| == |Keys(ts)|
    ensures forall i :: 0 <= i < |es| ==> es[i] == (Keys(ts)[i], CountOf(ts, Keys(ts)[i]))
  {
    var keys := Keys(ts);
    seq(|keys|, i requires 0 <= i < |keys| => (keys[i], CountOf(ts, keys[i])))
  }

  /** The sort key of the comparator `(a, b) => b[1] - a[1]`: descending count. */
  function ByCountDescending(e: Entry): int {
    -(e.1 as int)
  }

  /** The entries in the sorted order, before the cut to `count`. */
  function Ranked(ts: seq<string>): seq<Entry> {
    SortBy(Entries(ts), ByCountDescending)
  }

  /** The words of the first `SliceEnd(|es|, count)` entries: `.slice(0, count).map(e => e[0])`. */
  function TopWords(es: seq<Entry>, count: int): (r: seq<string>)
    ensures |r| == SliceEnd(|es|, count)
    ensures forall i :: 0 <= i < |r| ==> r[i] == es[i].0
  {
    var k := SliceEnd(|es|, count);
    seq(k, i requires 0 <= i < k => es[i].0)
  }

  /** `extractKeywords(messages, count)`. */
  function KeywordsOf(messages: seq<string>, count: int): seq<string> {
    if messages == [] then [] else TopWords(Ranked(AllTokens(messages)), count)
  }

  // ----- the imperative counting loop -----

  /**
   * The source's `Map<string, number>`: its keys in insertion order and the value of each key.
   * `Set` appends a new key at the end and keeps an existing key where it is.
   */
  datatype WordMap = WordMap(keys: seq<string>, counts: map<string, nat>) {
    /** `map.get(w) || 0`. */
    function GetOrZero(w: string): nat {
      if w in counts then counts[w] else 0
    }

    /** `map.set(w, v)`. */
    function Set(w: string, v: nat): (m: WordMap)
      ensures m.counts == counts[w := v]
      ensures m.keys == if w in counts then keys else keys + [w]
    {
      WordMap(if w in counts then keys else keys + [w], counts[w := v])
    }
  }

  /**
   * The map holds the counts of `ts`: its keys are the distinct words of `ts` in first-insertion
   * order, the words with a value are exactly its keys, and each word's value is its count.
   */
  ghost predicate Counts(m: WordMap, ts: seq<string>) {
    && m.keys == Keys(ts)
    && (forall w :: w in m.counts <==> w in m.keys)
    && (forall w :: m.GetOrZero(w) == CountOf(ts, w))
  }

  /** `map.set(word, (map.get(word) || 0) + 1)` counts one more word. */
  lemma {:induction false} CountsSnoc(m: WordMap, ts: seq<string>, w: string)
    requires Counts(m, ts)
    ensures Counts(m.Set(w, m.GetOrZero(w) + 1), ts + [w])
  {
    var ts' := ts + [w];
    assert ts'[..|ts|] == ts;
    KeysSnoc(ts, w);
    KeysSpec(ts);
    assert w in m.counts <==> w in ts;
    var m' := m.Set(w, m.GetOrZero(w) + 1);
    forall u ensures m'.GetOrZero(u) == CountOf(ts', u) {
      assert m.GetOrZero(u) == CountOf(ts, u);
    }
  }

  /**
   * The inner `words.forEach` of the source: every kept word of one message bumps its count,
   * a word met for the first time becoming the newest key.
   */
  method CountWords(words: seq<string>, ghost ts: seq<string>, m: WordMap) returns (m': WordMap)
    requires Counts(m, ts)
    ensures Counts(m', ts + KeptWords(words))
  {
    m' := m;
    ghost var seen := ts;
    var j := 0;
    assert ts + KeptWords(words[..0]) == ts;
    while j < |words|
      invariant 0 <= j <= |words|
      invariant seen == ts + KeptWords(words[..j])
      invariant Counts(m', seen)
    {
      var word := words[j];
      assert words[..j + 1][..j] == words[..j];
      if Kept(word) {
        CountsSnoc(m', seen, word);
        seen := seen + [word];
        m' := m'.Set(word, m'.GetOrZero(word) + 1);
      }
      j := j + 1;
    }
    assert words[..j] == words;
  }

  /**
   * The outer `messages.forEach` of the source: each non-empty message has its words counted
   * into the one map.
   */
  method CountMessages(messages: seq<string>) returns (wordMap: WordMap)
    ensures Counts(wordMap, AllTokens(messages))
  {
    wordMap := WordMap([], map[]);
    ghost var seen: seq<string> := [];
    var i := 0;
    while i < |messages|
      invariant 0 <= i <= |messages|
      invariant seen == AllTokens(messages[..i])
      invariant Counts(wordMap, seen)
    {
      var text := messages[i];
      assert messages[..i + 1][..i] == messages[..i];
      if text != "" {
        wordMap := CountWords(Split(Lower(text)), seen, wordMap);
        seen := seen + KeptWords(Split(Lower(text)));
      }
      i := i + 1;
    }
    assert messages[..i] == messages;
  }

  /**
   * `extractKeywords(messages, count)` as the source runs it: the counting loops fill an
   * insertion-ordered map from words to counts, whose entries are then sorted, cut and projected.
   */
  method ExtractKeywords(messages: seq<string>, count: int := 5) returns (r: seq<string>)
    ensures r == KeywordsOf(messages, count)
  {
    if |messages| == 0 {
      return [];
    }
    var wordMap := CountMessages(messages);
    ghost var ts := AllTokens(messages);
    var keys := wordMap.keys;
    var entries := seq(|keys|, k requires 0 <= k < |keys| => (keys[k], wordMap.counts[keys[k]]));
    forall k | 0 <= k < |keys| ensures entries[k] == Entries(ts)[k] {
      assert wordMap.GetOrZero(keys[k]) == CountOf(ts, keys[k]);
    }
    assert entries == Entries(ts);
    var sorted := SortBy(entries, ByCountDescending);
    var end := SliceEnd(|sorted|, count);
    r := seq(end, k requires 0 <= k < end => sorted[k].0);
  }

  // ----- what the ranking promises -----

  /** Keys come in the order their words are first met. */
  lemma {:induction false} KeysInFirstEncounterOrder(ts: seq<string>)
    ensures forall i, j :: 0 <= i < j < |Keys(ts)| ==> PositionIn(ts, Keys(ts)[i]) < PositionIn(ts, Keys(ts)[j])
    decreases |ts|
  {
    if ts != [] {
      var init := ts[..|ts| - 1];
      var w := ts[|ts| - 1];
      assert ts == init + [w];
      KeysInFirstEncounterOrder(init);
      KeysSpec(init);
      var prev := Keys(init);
      // first occurrences of words already met do not move
      forall u | u in init ensures PositionIn(ts, u) == PositionIn(init, u) {
        var p := PositionIn(init, u);
        var q := PositionIn(ts, u);
        var a :| 0 <= a < |init| && init[a] == u;
        PositionOf(init, a);
        assert ts[a] == u;
        PositionOf(ts, a);
        assert ts[p] == u;
        assert ts[p] == u;
        assert q <= p;
        assert init[q] == ts[q];
      }
      if w !in prev {
        assert w !in init;
        assert PositionIn(ts, w) == |init| by { PositionOf(ts, |init|); }
        forall i | 0 <= i < |prev| ensures PositionIn(ts, prev[i]) < |init| {
          assert prev[i] in prev;
          var a :| 0 <= a < |init| && init[a] == prev[i];
          PositionOf(init, a);
        }
      }
    }
  }

  /** Every entry the sort yields is one of the map's entries. */
  lemma {:induction false} RankedFromEntries(ts: seq<string>, x: Entry)
    requires x in Ranked(ts)
    ensures x.0 in Keys(ts) && x.1 == CountOf(ts, x.0)
  {
    var es := Entries(ts);
    assert x in multiset(Ranked(ts));
    assert x in multiset(es);
    var i :| 0 <= i < |es| && es[i] == x;
  }

  /** The rank of an entry in the map's insertion order. */
  function KeyRank(keys: seq<string>): Entry -> int {
    (e: Entry) => PositionIn(keys, e.0)
  }

  /** The sorted entries are ordered by descending count and, among equal counts, by insertion. */
  lemma {:induction false} RankedOrder(ts: seq<string>)
    ensures RankedBy(Ranked(ts), ByCountDescending, KeyRank(Keys(ts)))
  {
    var keys := Keys(ts);
    var es := Entries(ts);
    KeysSpec(ts);
    forall i | 0 <= i < |keys| ensures PositionIn(keys, keys[i]) == i {
      PositionOf(keys, i);
    }
    assert forall i :: 0 <= i < |es| ==> KeyRank(keys)(es[i]) == i;
    SortByStable(es, ByCountDescending, KeyRank(keys));
  }

  /** An empty message list, or a list of empty messages, yields no keywords. */
  lemma {:induction false} NoMessagesNoKeywords(messages: seq<string>, count: int)
    requires forall i :: 0 <= i < |messages| ==> messages[i] == ""
    ensures KeywordsOf(messages, count) == []
  {
    if messages != [] {
      EmptyMessagesNoTokens(messages);
    }
  }

  lemma {:induction false} EmptyMessagesNoTokens(messages: seq<string>)
    requires forall i :: 0 <= i < |messages| ==> messages[i] == ""
    ensures AllTokens(messages) == []
    decreases |messages|
  {
    if messages != [] {
      EmptyMessagesNoTokens(messages[..|messages| - 1]);
    }
  }

  /** An empty message contributes no tokens: inserting one anywhere changes no keyword. */
  lemma {:induction false} EmptyMessageIgnored(messages: seq<string>, i: nat, count: int)
    requires i <= |messages|
    ensures KeywordsOf(messages[..i] + [""] + messages[i..], count) == KeywordsOf(messages, count)
  {
    if messages == [] {
      NoMessagesNoKeywords(messages[..i] + [""] + messages[i..], count);
    } else {
      FlatMapInsertNeutral(messages[..i], "", messages[i..], Tokens);
      assert messages[..i] + messages[i..] == messages;
    }
  }

  /** Each keyword is the word of the entry at its place in the sorted entries. */
  lemma {:induction false} KeywordsAreRankedWords(messages: seq<string>, count: int)
    requires messages != []
    ensures |KeywordsOf(messages, count)| <= |Ranked(AllTokens(messages))|
    ensures forall i :: 0 <= i < |KeywordsOf(messages, count)| ==>
      && KeywordsOf(messages, count)[i] == Ranked(AllTokens(messages))[i].0
      && KeywordsOf(messages, count)[i] in Keys(AllTokens(messages))
      && Ranked(AllTokens(messages))[i].1 == CountOf(AllTokens(messages), KeywordsOf(messages, count)[i])
  {
    var ts := AllTokens(messages);
    var ranked := Ranked(ts);
    forall i | 0 <= i < |KeywordsOf(messages, count)|
      ensures ranked[i].0 in Keys(ts) && ranked[i].1 == CountOf(ts, ranked[i].0)
    {
      RankedFromEntries(ts, ranked[i]);
    }
  }

  /**
   * There are at most `count` keywords (for a non-negative count), and each is a counted,
   * lower-case word of the messages.
   */
  lemma {:induction false} KeywordsAreCountedWords(messages: seq<string>, count: int)
    ensures count >= 0 ==> |KeywordsOf(messages, count)| <= count
    ensures forall i :: 0 <= i < |KeywordsOf(messages, count)| ==>
      && KeywordsOf(messages, count)[i] in AllTokens(messages)
      && Kept(KeywordsOf(messages, count)[i])
      && Lowercase(KeywordsOf(messages, count)[i])
  {
    if messages != [] {
      var ts := AllTokens(messages);
      var r := KeywordsOf(messages, count);
      KeywordsAreRankedWords(messages, count);
      KeysSpec(ts);
      AllTokensKept(messages);
      forall i | 0 <= i < |r| ensures r[i] in ts && Kept(r[i]) && Lowercase(r[i]) {
        assert r[i] in Keys(ts);
        var a :| 0 <= a < |ts| && ts[a] == r[i];
      }
    }
  }

  /** No keyword is returned twice. */
  lemma {:induction false} KeywordsDistinct(messages: seq<string>, count: int)
    ensures NoDuplicates(KeywordsOf(messages, count))
  {
    if messages != [] {
      var ts := AllTokens(messages);
      var r := KeywordsOf(messages, count);
      var keys := Keys(ts);
      KeywordsAreRankedWords(messages, count);
      RankedOrder(ts);
      KeysSpec(ts);
      forall i, j | 0 <= i < j < |r| ensures r[i] != r[j] {
        KeyPosition(keys, r[i]);
        KeyPosition(keys, r[j]);
        assert KeyRank(keys)(Ranked(ts)[i]) != KeyRank(keys)(Ranked(ts)[j]);
      }
    }
  }

  /** In a list without duplicates, each element's first position is where it stands. */
  lemma {:induction false} KeyPosition(keys: seq<string>, w: string)
    requires NoDuplicates(keys) && w in keys
    ensures 0 <= PositionIn(keys, w) && keys[PositionIn(keys, w)] == w
  {
    var a :| 0 <= a < |keys| && keys[a] == w;
    PositionOf(keys, a);
  }

  /**
   * Along the keywords, counts over all messages never increase, and words with equal counts
   * come in the order they were first met.
   */
  lemma {:induction false} KeywordsByFrequency(messages: seq<string>, count: int)
    ensures forall i, j :: 0 <= i < j < |KeywordsOf(messages, count)| ==>
      CountOf(AllTokens(messages), KeywordsOf(messages, count)[i]) >= CountOf(AllTokens(messages), KeywordsOf(messages, count)[j])
    ensures forall i, j ::
      (0 <= i < j < |KeywordsOf(messages, count)| &&
       CountOf(AllTokens(messages), KeywordsOf(messages, count)[i]) == CountOf(AllTokens(messages), KeywordsOf(messages, count)[j])) ==>
      PositionIn(AllTokens(messages), KeywordsOf(messages, count)[i]) < PositionIn(AllTokens(messages), KeywordsOf(messages, count)[j])
  {
    if messages != [] {
      var ts := AllTokens(messages);
      var r := KeywordsOf(messages, count);
      var keys := Keys(ts);
      var ranked := Ranked(ts);
      KeywordsAreRankedWords(messages, count);
      RankedOrder(ts);
      KeysSpec(ts);
      KeysInFirstEncounterOrder(ts);
      forall i, j | 0 <= i < j < |r|
        ensures CountOf(ts, r[i]) >= CountOf(ts, r[j])
        ensures CountOf(ts, r[i]) == CountOf(ts, r[j]) ==> PositionIn(ts, r[i]) < PositionIn(ts, r[j])
      {
        KeyPosition(keys, r[i]);
        KeyPosition(keys, r[j]);
        assert ByCountDescending(ranked[i]) <= ByCountDescending(ranked[j]);
        if CountOf(ts, r[i]) == CountOf(ts, r[j]) {
          assert PositionIn(keys, r[i]) < PositionIn(keys, r[j]);
        }
      }
    }
  }

  /**
   * A counted word that is no keyword was cut: there are then exactly `count` keywords (for a
   * non-negative count), and each occurs at least as often as the word.
   */
  lemma {:induction false} KeywordsAreMostFrequent(messages: seq<string>, count: int, w: string)
    requires w in AllTokens(messages) && w !in KeywordsOf(messages, count)
    ensures count >= 0 ==> |KeywordsOf(messages, count)| == count
    ensures forall i :: 0 <= i < |KeywordsOf(messages, count)| ==>
      CountOf(AllTokens(messages), KeywordsOf(messages, count)[i]) >= CountOf(AllTokens(messages), w)
  {
    var ts := AllTokens(messages);
    var r := KeywordsOf(messages, count);
    var ranked := Ranked(ts);
    KeywordsAreRankedWords(messages, count);
    var p := WordIsRanked(ts, w);
    assert forall i :: 0 <= i < |r| ==> ranked[i].0 != w;
    SortBySorted(Entries(ts), ByCountDescending);
    forall i | 0 <= i < |r| ensures CountOf(ts, r[i]) >= CountOf(ts, w) {
      assert ByCountDescending(ranked[i]) <= ByCountDescending(ranked[p]);
    }
  }

  /** Every word of `ts` has its entry, with its count, somewhere in the sorted entries. */
  lemma {:induction false} WordIsRanked(ts: seq<string>, w: string) returns (p: nat)
    requires w in ts
    ensures p < |Ranked(ts)| && Ranked(ts)[p] == (w, CountOf(ts, w))
  {
    var es := Entries(ts);
    KeysSpec(ts);
    var k :| 0 <= k < |Keys(ts)| && Keys(ts)[k] == w;
    assert es[k] in multiset(es);
    assert es[k] in multiset(Ranked(ts));
    p :| 0 <= p < |Ranked(ts)| && Ranked(ts)[p] == es[k];
  }
}
