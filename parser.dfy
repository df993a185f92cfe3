/**
 * The content script's parser: it decides the role of one conversation turn of the page, picks
 * the element holding its text, flattens that element's markup to plain text and builds the
 * message record.
 *
 * The page is an abstract element tree: text nodes and elements carrying a lower-case tag name,
 * an optional `data-testid` and a class list. Serialising an element with `innerHTML` and parsing
 * the text back into a fresh `div` yields the same children, so `cleanContent` works on them
 * directly.
 */
module Parser {
  import opened Wrappers
  import opened Types
  import opened Text
  import opened Seqs

  datatype Node =
    | TextNode(text: string)
    | Element(tag: string, testId: Option<string>, classes: seq<string>, children: seq<Node>)

  /** The CSS selectors the content script uses. */
  datatype Selector =
    | TestIdIs(value: string)             // [data-testid="value"]
    | TestIdStartsWith(prefix: string)    // [data-testid^="prefix"]
    | HasClass(name: string)              // .name
    | TagIs(name: string)                 // name

  /** `n.matches(sel)`: only elements match. */
  predicate Matches(n: Node, sel: Selector) {
    match n
    case TextNode(_) => false
    case Element(tag, testId, classes, _) =>
      match sel
      case TestIdIs(v) => testId == Some(v)
      case TestIdStartsWith(p) => testId.Some? && StartsWith(testId.value, p)
      case HasClass(c) => c in classes
      case TagIs(t) => tag == t
  }

  /** `Matches` with the selector fixed, as a predicate on nodes. */
  function Matching(sel: Selector): Node -> bool {
    (n: Node) => Matches(n, sel)
  }

  // ----- tree queries -----

  /** The nodes of the forest `ns` in document order: each node, then its descendants. */
  function Preorder(ns: seq<Node>): seq<Node>
    decreases ns
  {
    if ns == [] then []
    else
      var below := match ns[0] case TextNode(_) => [] case Element(_, _, _, cs) => Preorder(cs);
      [ns[0]] + below + Preorder(ns[1..])
  }

  /** The first node of the forest `ns` that matches `sel`, searching depth first. */
  function FirstMatch(ns: seq<Node>, sel: Selector): (r: Option<Node>)
    ensures r.Some? ==> Matches(r.value, sel)
    decreases ns
  {
    if ns == [] then None
    else if Matches(ns[0], sel) then Some(ns[0])
    else
      var below := match ns[0] case TextNode(_) => None case Element(_, _, _, cs) => FirstMatch(cs, sel);
      if below.Some? then below else FirstMatch(ns[1..], sel)
  }

  /** `n.querySelector(sel)`: the first matching descendant of `n`, `n` itself excluded. */
  function QuerySelector(n: Node, sel: Selector): Option<Node> {
    match n
    case TextNode(_) => None
    case Element(_, _, _, cs) => FirstMatch(cs, sel)
  }

  /** `n.querySelectorAll(sel)`: every matching descendant of `n`, in document order. */
  function QuerySelectorAll(n: Node, sel: Selector): (r: seq<Node>)
    ensures forall i :: 0 <= i < |r| ==> Matches(r[i], sel)
  {
    match n
    case TextNode(_) => []
    case Element(_, _, _, cs) => Filter(Preorder(cs), Matching(sel))
  }

  /** The first element of `s` that matches `sel`. */
  function FirstOf(s: seq<Node>, sel: Selector): Option<Node> {
    if s == [] then None else if Matches(s[0], sel) then Some(s[0]) else FirstOf(s[1..], sel)
  }

  /** The first match in a concatenation is the first match of the front part, if it has one. */
  lemma {:induction false} FirstOfAppend(a: seq<Node>, b: seq<Node>, sel: Selector)
    ensures FirstOf(a + b, sel) == if FirstOf(a, sel).Some? then FirstOf(a, sel) else FirstOf(b, sel)
    decreases |a|
  {
    if a == [] {
      assert a + b == b;
    } else {
      assert (a + b)[1..] == a[1..] + b;
      FirstOfAppend(a[1..], b, sel);
    }
  }

  /** The depth-first search finds the first matching node in document order. */
  lemma {:induction false} FirstMatchInDocumentOrder(ns: seq<Node>, sel: Selector)
    ensures FirstMatch(ns, sel) == FirstOf(Preorder(ns), sel)
    decreases ns
  {
    if ns != [] {
      var below := match ns[0] case TextNode(_) => [] case Element(_, _, _, cs) => Preorder(cs);
      assert Preorder(ns) == [ns[0]] + (below + Preorder(ns[1..]));
      FirstOfAppend([ns[0]], below + Preorder(ns[1..]), sel);
      FirstOfAppend(below, Preorder(ns[1..]), sel);
      assert FirstOf([ns[0]], sel) == if Matches(ns[0], sel) then Some(ns[0]) else None;
      FirstMatchInDocumentOrder(ns[1..], sel);
      match ns[0]
      case TextNode(_) =>
        assert FirstOf(below, sel) == None;
      case Element(_, _, _, cs) =>
        FirstMatchInDocumentOrder(cs, sel);
    }
  }

  /** The first match of a list is the first element of its filter by the selector. */
  lemma {:induction false} FirstOfIsFirstFiltered(s: seq<Node>, sel: Selector)
    ensures FirstOf(s, sel) == if Filter(s, Matching(sel)) == [] then None else Some(Filter(s, Matching(sel))[0])
    decreases |s|
  {
    if s != [] {
      FirstOfIsFirstFiltered(s[1..], sel);
      assert Matching(sel)(s[0]) == Matches(s[0], sel);
    }
  }

  /** `querySelector` returns the first node `querySelectorAll` lists, and nothing when there is none. */
  lemma {:induction false} QuerySelectorIsFirstOfAll(n: Node, sel: Selector)
    ensures QuerySelector(n, sel) ==
      if QuerySelectorAll(n, sel) == [] then None else Some(QuerySelectorAll(n, sel)[0])
  {
    match n
    case TextNode(_) =>
    case Element(_, _, _, cs) =>
      FirstMatchInDocumentOrder(cs, sel);
      FirstOfIsFirstFiltered(Preorder(cs), sel);
  }

  /** `textContent` of a forest: its text nodes, concatenated in document order. */
  function TextOf(ns: seq<Node>): string
    decreases ns
  {
    if ns == [] then "" else TextOfNode(ns[0]) + TextOf(ns[1..])
  }

  /** `n.textContent`. */
  function TextOfNode(n: Node): string
    decreases n
  {
    match n
    case TextNode(t) => t
    case Element(_, _, _, cs) => TextOf(cs)
  }

  /** The text of two forests side by side is their texts side by side. */
  lemma {:induction false} TextOfAppend(a: seq<Node>, b: seq<Node>)
    ensures TextOf(a + b) == TextOf(a) + TextOf(b)
    decreases |a|
  {
    if a == [] {
      assert a + b == b;
    } else {
      assert (a + b)[1..] == a[1..] + b;
      TextOfAppend(a[1..], b);
    }
  }

  // ----- detectRole -----

  /** `element.getAttribute('data-testid') || ''`. */
  function TestIdOf(element: Node): string {
    match element
    case TextNode(_) => ""
    case Element(_, testId, _, _) => testId.GetOr("")
  }

  /** `detectRole(element)`: strong signals first, human before assistant, then the weak fallbacks. */
  function DetectRole(element: Node): (r: Role)
    ensures Contains(TestIdOf(element), "human") || QuerySelector(element, TestIdIs("user-message")).Some?
      ==> r == Human
  {
    var testId := TestIdOf(element);
    if Contains(testId, "human") || QuerySelector(element, TestIdIs("user-message")).Some? then Human
    else if Contains(testId, "assistant") || QuerySelector(element, TestIdIs("assistant-message")).Some? then Assistant
    else if (element.Element? && "human" in element.classes) || StartsWith(TextOfNode(element), "You:") then Human
    else Assistant
  }

  /** One observable trait of a turn element that `detectRole` looks at. */
  datatype Cue =
    | TestIdContains(word: string)
    | DescendantWithTestId(value: string)
    | ClassListContains(name: string)
    | TextStartsWith(prefix: string)

  /** Whether `element` shows the cue. */
  predicate Shows(element: Node, cue: Cue) {
    match cue
    case TestIdContains(w) => Contains(TestIdOf(element), w)
    case DescendantWithTestId(v) => QuerySelector(element, TestIdIs(v)).Some?
    case ClassListContains(c) => element.Element? && c in element.classes
    case TextStartsWith(p) => StartsWith(TextOfNode(element), p)
  }

  /** A role-detection rule: a cue and the role it decides. */
  datatype RoleRule = RoleRule(cue: Cue, role: Role)

  /** The rules of `detectRole`, in the order they are tried. */
  const RoleRules: seq<RoleRule> := [
    RoleRule(TestIdContains("human"), Human),
    RoleRule(DescendantWithTestId("user-message"), Human),
    RoleRule(TestIdContains("assistant"), Assistant),
    RoleRule(DescendantWithTestId("assistant-message"), Assistant),
    RoleRule(ClassListContains("human"), Human),
    RoleRule(TextStartsWith("You:"), Human)
  ]

  /** The role of the first rule whose cue `element` shows, or `fallback` when none applies. */
  function FirstApplicable(rules: seq<RoleRule>, element: Node, fallback: Role): Role {
    if rules == [] then fallback
    else if Shows(element, rules[0].cue) then rules[0].role
    else FirstApplicable(rules[1..], element, fallback)
  }

  /**
   * `detectRole` is the first-match-wins rule list with "assistant" as the default: the earliest
   * rule that applies decides, so a human cue beats any assistant cue, and it never yields null.
   */
  lemma {:induction false} DetectRoleFollowsRules(element: Node)
    ensures DetectRole(element) == FirstApplicable(RoleRules, element, Assistant)
  {
    var rs := RoleRules;
    assert FirstApplicable(rs[6..], element, Assistant) == Assistant;
    assert rs[5..][1..] == rs[6..];
    assert rs[4..][1..] == rs[5..];
    assert rs[3..][1..] == rs[4..];
    assert rs[2..][1..] == rs[3..];
    assert rs[1..][1..] == rs[2..];
    assert FirstApplicable(rs[5..], element, Assistant) == if Shows(element, rs[5].cue) then Human else Assistant;
    assert FirstApplicable(rs[4..], element, Assistant) ==
      if Shows(element, rs[4].cue) then Human else FirstApplicable(rs[5..], element, Assistant);
    assert FirstApplicable(rs[3..], element, Assistant) ==
      if Shows(element, rs[3].cue) then Assistant else FirstApplicable(rs[4..], element, Assistant);
    assert FirstApplicable(rs[2..], element, Assistant) ==
      if Shows(element, rs[2].cue) then Assistant else FirstApplicable(rs[3..], element, Assistant);
    assert FirstApplicable(rs[1..], element, Assistant) ==
      if Shows(element, rs[1].cue) then Human else FirstApplicable(rs[2..], element, Assistant);
  }

  // ----- extractContent and cleanContent -----

  /** The element whose markup holds the text: `.prose`, else the message-content element, else the turn itself. */
  function ContentSource(element: Node): (src: Node)
    ensures src == element || src.Element?
    ensures QuerySelector(element, HasClass("prose")).Some? ==> src == QuerySelector(element, HasClass("prose")).value
    ensures QuerySelector(element, HasClass("prose")).None? && QuerySelector(element, TestIdIs("message-content")).Some?
      ==> src == QuerySelector(element, TestIdIs("message-content")).value
  {
    match QuerySelector(element, HasClass("prose"))
    case Some(p) => p
    case None =>
      match QuerySelector(element, TestIdIs("message-content"))
      case Some(c) => c
      case None => element
  }

  /** A code block as `cleanContent` writes it: the code between two fence lines. */
  function Fenced(code: string): string {
    "\n```\n" + code + "\n```\n"
  }

  /** Pass 1 over one node: a `code` element inside a `pre` gets its text fenced as its only child. */
  function FenceNode(n: Node, inPre: bool): Node
    decreases n
  {
    match n
    case TextNode(_) => n
    case Element(tag, testId, classes, cs) =>
      if tag == "code" && inPre then Element(tag, testId, classes, [TextNode(Fenced(TextOf(cs)))])
      else Element(tag, testId, classes, FenceCode(cs, inPre || tag == "pre"))
  }

  /** Pass 1, `querySelectorAll('pre code').forEach(el => el.textContent = ...)`, over a forest. */
  function FenceCode(ns: seq<Node>, inPre: bool): (r: seq<Node>)
    ensures |r| == |ns|
    decreases ns
  {
    if ns == [] then [] else [FenceNode(ns[0], inPre)] + FenceCode(ns[1..], inPre)
  }

  /** Pass 2 over one node: a `br` element turns into a line break. */
  function BreakNode(n: Node): Node
    decreases n
  {
    match n
    case TextNode(_) => n
    case Element(tag, testId, classes, cs) =>
      if tag == "br" then TextNode("\n") else Element(tag, testId, classes, Breaks(cs))
  }

  /** Pass 2, `querySelectorAll('br').forEach(el => el.replaceWith('\n'))`, over a forest. */
  function Breaks(ns: seq<Node>): (r: seq<Node>)
    ensures |r| == |ns|
    decreases ns
  {
    if ns == [] then [] else [BreakNode(ns[0])] + Breaks(ns[1..])
  }

  /** Pass 3 over one node: a `p` or `div` element gets a line break as its last child. */
  function BlockNode(n: Node): Node
    decreases n
  {
    match n
    case TextNode(_) => n
    case Element(tag, testId, classes, cs) =>
      if tag == "p" || tag == "div" then Element(tag, testId, classes, Blocks(cs) + [TextNode("\n")])
      else Element(tag, testId, classes, Blocks(cs))
  }

  /** Pass 3, `querySelectorAll('p, div').forEach(el => el.append('\n'))`, over a forest. */
  function Blocks(ns: seq<Node>): (r: seq<Node>)
    ensures |r| == |ns|
    decreases ns
  {
    if ns == [] then [] else [BlockNode(ns[0])] + Blocks(ns[1..])
  }

  /** `cleanContent(html)` on the children the markup parses to: three passes, then the trimmed text. */
  function CleanContent(ns: seq<Node>): string {
    Trim(TextOf(Blocks(Breaks(FenceCode(ns, false)))))
  }

  /** `extractContent(element)`. */
  function ExtractContent(element: Node): string {
    var src := ContentSource(element);
    match src
    case TextNode(_) => ""
    case Element(_, _, _, cs) => CleanContent(cs)
  }

  /**
   * The text of a node in one reading: fenced code for `code` under `pre`, a line break for `br`,
   * a trailing line break after a `p` or `div`, and the plain text elsewhere.
   */
  function FlattenNode(n: Node, inPre: bool): string
    decreases n
  {
    match n
    case TextNode(t) => t
    case Element(tag, _, _, cs) =>
      if tag == "code" && inPre then Fenced(TextOf(cs))
      else if tag == "br" then "\n"
      else if tag == "p" || tag == "div" then Flatten(cs, inPre || tag == "pre") + "\n"
      else Flatten(cs, inPre || tag == "pre")
  }

  /** `FlattenNode` over a forest. */
  function Flatten(ns: seq<Node>, inPre: bool): string
    decreases ns
  {
    if ns == [] then "" else FlattenNode(ns[0], inPre) + Flatten(ns[1..], inPre)
  }

  /** The three passes over one node, read back as text, give its one-reading text. */
  lemma {:induction false} PassesFlattenNode(n: Node, inPre: bool)
    ensures TextOfNode(BlockNode(BreakNode(FenceNode(n, inPre)))) == FlattenNode(n, inPre)
    decreases n
  {
    match n
    case TextNode(_) =>
    case Element(tag, testId, classes, cs) =>
      var inner := inPre || tag == "pre";
      if tag == "code" && inPre {
        var fenced := [TextNode(Fenced(TextOf(cs)))];
        assert Breaks(fenced) == fenced;
        assert Blocks(fenced) == fenced;
        assert TextOf(fenced) == Fenced(TextOf(cs));
      } else if tag == "br" {
      } else {
        PassesFlatten(cs, inner);
        if tag == "p" || tag == "div" {
          TextOfAppend(Blocks(Breaks(FenceCode(cs, inner))), [TextNode("\n")]);
        }
      }
  }

  /** The three passes over a forest, read back as text, give its one-reading text. */
  lemma {:induction false} PassesFlatten(ns: seq<Node>, inPre: bool)
    ensures TextOf(Blocks(Breaks(FenceCode(ns, inPre)))) == Flatten(ns, inPre)
    decreases ns
  {
    if ns != [] {
      var r := Blocks(Breaks(FenceCode(ns, inPre)));
      assert FenceCode(ns, inPre)[1..] == FenceCode(ns[1..], inPre);
      assert Breaks(FenceCode(ns, inPre))[1..] == Breaks(FenceCode(ns[1..], inPre));
      assert r[0] == BlockNode(BreakNode(FenceNode(ns[0], inPre)));
      assert r[1..] == Blocks(Breaks(FenceCode(ns[1..], inPre)));
      PassesFlattenNode(ns[0], inPre);
      PassesFlatten(ns[1..], inPre);
    }
  }

  /**
   * `cleanContent` yields the trimmed one-reading text: code under `pre` fenced by "```" lines,
   * a line break for each `br`, one after each `p` and `div`; no white space at either end.
   */
  lemma {:induction false} CleanContentIsFlattened(ns: seq<Node>)
    ensures CleanContent(ns) == Trim(Flatten(ns, false))
    ensures CleanContent(ns) == [] || (!IsSpace(CleanContent(ns)[0]) && !IsSpace(CleanContent(ns)[|CleanContent(ns)| - 1]))
  {
    PassesFlatten(ns, false);
  }

  // ----- parseMessage -----

  /** The length of the preview `content.slice(0, 100)`. */
  const PreviewLength := 100

  /**
   * `parseMessage(element, conversationId, parentId)`, with `id` the generated id and `timestamp`
   * the clock reading: no record when the extracted text is empty, else a fresh record on the
   * "main" placeholder branch with no children, tags, colour or note.
   */
  function ParseMessage(element: Node, conversationId: string, parentId: Option<string>, id: string, timestamp: int)
    : (r: Option<Message>)
    ensures r.None? <==> ExtractContent(element) == ""
    ensures r.Some? ==>
      && r.value.id == id && r.value.conversationId == conversationId && r.value.parentId == parentId
      && r.value.branchId == "main" && r.value.childIds == [] && r.value.tagIds == []
      && r.value.color == None && r.value.note == None && !r.value.isBranchPoint
      && r.value.timestamp == timestamp
      && r.value.role == DetectRole(element)
      && r.value.content == ExtractContent(element)
      && r.value.contentPreview <= r.value.content
      && |r.value.contentPreview| == (if |r.value.content| < PreviewLength then |r.value.content| else PreviewLength)
  {
    var role := DetectRole(element);
    var content := ExtractContent(element);
    if content == "" then None
    else
      Some(Message(id, conversationId, "main", parentId, [], role, content, Prefix(content, PreviewLength),
                   timestamp, [], None, None, false))
  }
}
