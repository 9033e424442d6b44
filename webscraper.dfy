/** Text extraction from a parsed HTML tree (pkg/webscraper/webscraper.go).

    The HTML tree is a value: each node has a kind, its `Data` and its
    children in sibling order (`FirstChild`, then each `NextSibling`).
    `scrapeText` appends into a `strings.Builder`; here the builder is a
    class whose only state is the text written so far, and `ScrapeText`
    is proved to append exactly `TextOf(n)`, a pure pre-order walk.
    Independent characterisations of `TextOf` (the text nodes' `Data` in
    pre-order, each followed by one space; its length) are proved below. */
module Webscraper {
  import opened Wrappers
  import opened Text

  /** The node kinds of the HTML parser's tree. */
  datatype NodeType = ErrorNode | TextNode | DocumentNode | ElementNode | CommentNode | DoctypeNode | RawNode

  /** An HTML node with its children in sibling order. */
  datatype Node = Node(kind: NodeType, data: string, children: seq<Node>)

  /** The Go `strings.Builder`: text is only ever appended to it. */
  class Builder {
    var contents: string

    constructor ()
      ensures contents == ""
    {
      contents := "";
    }

    method WriteString(s: string)
      modifies this
      ensures contents == old(contents) + s
    {
      contents := contents + s;
    }
  }

  // ---------------------------------------------------------------------
  // The specification of the walk

  /** What a node writes by itself: a text node its `Data` and one space,
      every other kind nothing. */
  function Own(n: Node): string {
    if n.kind == TextNode then n.data + " " else ""
  }

  /** The concatenation of `parts`, in order. */
  function Concat(parts: seq<string>): string {
    if parts == [] then "" else Concat(parts[..|parts| - 1]) + parts[|parts| - 1]
  }

  /** The text a pre-order walk of `n` writes: the node's own part, then
      the children's texts in sibling order. */
  function TextOf(n: Node): string
    decreases n, 1
  {
    Own(n) + Concat(ChildTexts(n))
  }

  /** The texts of the children of `n`, in sibling order. */
  function ChildTexts(n: Node): (r: seq<string>)
    ensures |r| == |n.children|
    decreases n, 0
  {
    seq(|n.children|, i requires 0 <= i < |n.children| => TextOf(n.children[i]))
  }

  // ---------------------------------------------------------------------
  // The implementation: scrapeText and ScrapePage

  /** Appends the text of every text node of `n` to `sb`, in pre-order, each
      followed by one space; what `sb` held before is kept as a prefix. */
  method ScrapeText(n: Node, sb: Builder)
    modifies sb
    ensures sb.contents == old(sb.contents) + TextOf(n)
    decreases n
  {
    if n.kind == TextNode {
      sb.WriteString(n.data);
      sb.WriteString(" ");
    }
    var texts := ChildTexts(n);
    for i := 0 to |n.children|
      invariant sb.contents == old(sb.contents) + Own(n) + Concat(texts[..i])
    {
      ScrapeText(n.children[i], sb);
      assert texts[..i + 1][..i] == texts[..i];
    }
    assert texts[..|n.children|] == texts;
  }

  /** The HTTP status code the scraper accepts (`http.StatusOK`). */
  const StatusOK: int := 200

  /** An HTTP response: its status code and status line, and the outcome of
      parsing its body as HTML. */
  datatype Response = Response(statusCode: int, status: string, body: Result<Node, string>)

  /** `ScrapePage` over the outcome of the GET request: an error and no text
      when the request fails, when the status is not 200 or when the body
      is not HTML; otherwise exactly the text of the document's walk. */
  method ScrapePage(fetched: Result<Response, string>) returns (r: Result<string, string>)
    ensures r.Success? <==>
              fetched.Success? && fetched.value.statusCode == StatusOK && fetched.value.body.Success?
    ensures r.Success? ==> r.value == TextOf(fetched.value.body.value)
    ensures fetched.Failure? ==> r == Failure("failed to fetch the page: " + fetched.error)
    ensures fetched.Success? && fetched.value.statusCode != StatusOK ==>
              r == Failure("unexpected HTTP status: " + fetched.value.status)
    ensures fetched.Success? && fetched.value.statusCode == StatusOK && fetched.value.body.Failure? ==>
              r == Failure("failed to parse the page HTML: " + fetched.value.body.error)
  {
    if fetched.Failure? {
      return Failure("failed to fetch the page: " + fetched.error);
    }
    var resp := fetched.value;
    if resp.statusCode != StatusOK {
      return Failure("unexpected HTTP status: " + resp.status);
    }
    if resp.body.Failure? {
      return Failure("failed to parse the page HTML: " + resp.body.error);
    }
    var sb := new Builder();
    ScrapeText(resp.body.value, sb);
    return Success(sb.contents);
  }

  // ---------------------------------------------------------------------
  // Independent characterisations of the walk

  /** `m` is `n` or one of its descendants. */
  ghost predicate Occurs(m: Node, n: Node)
    decreases n
  {
    m == n || exists i :: 0 <= i < |n.children| && Occurs(m, n.children[i])
  }

  /** The `Data` of every text node of `n`, in pre-order. */
  function TextLeaves(n: Node): seq<string>
    decreases n, 1
  {
    (if n.kind == TextNode then [n.data] else []) + Flatten(ChildLeaves(n))
  }

  /** The text leaves of the children of `n`, in sibling order. */
  function ChildLeaves(n: Node): (r: seq<seq<string>>)
    ensures |r| == |n.children|
    decreases n, 0
  {
    seq(|n.children|, i requires 0 <= i < |n.children| => TextLeaves(n.children[i]))
  }

  function Flatten(xss: seq<seq<string>>): seq<string> {
    if xss == [] then [] else Flatten(xss[..|xss| - 1]) + xss[|xss| - 1]
  }

  /** Each word followed by one space, in order. */
  function JoinWords(ws: seq<string>): string {
    if ws == [] then "" else JoinWords(ws[..|ws| - 1]) + ws[|ws| - 1] + " "
  }

  /** The number of characters the walk writes: `|data| + 1` per text node
      (a character here stands for one byte of the Go string). */
  function Weight(n: Node): nat
    decreases n, 1
  {
    (if n.kind == TextNode then |n.data| + 1 else 0) + Sum(ChildWeights(n))
  }

  function ChildWeights(n: Node): (r: seq<nat>)
    ensures |r| == |n.children|
    decreases n, 0
  {
    seq(|n.children|, i requires 0 <= i < |n.children| => Weight(n.children[i]))
  }

  function Sum(xs: seq<nat>): nat {
    if xs == [] then 0 else Sum(xs[..|xs| - 1]) + xs[|xs| - 1]
  }

  lemma {:induction false} JoinWordsAppend(a: seq<string>, b: seq<string>)
    ensures JoinWords(a + b) == JoinWords(a) + JoinWords(b)
    decreases |b|
  {
    if b == [] {
      assert a + b == a;
    } else {
      var b' := b[..|b| - 1];
      assert (a + b)[..|a + b| - 1] == a + b';
      JoinWordsAppend(a, b');
    }
  }

  lemma {:induction false} JoinWordsFlatten(xss: seq<seq<string>>)
    ensures JoinWords(Flatten(xss)) == Concat(seq(|xss|, i requires 0 <= i < |xss| => JoinWords(xss[i])))
    decreases |xss|
  {
    var joined := seq(|xss|, i requires 0 <= i < |xss| => JoinWords(xss[i]));
    if xss != [] {
      var init := xss[..|xss| - 1];
      JoinWordsFlatten(init);
      JoinWordsAppend(Flatten(init), xss[|xss| - 1]);
      assert joined[..|joined| - 1] == seq(|init|, i requires 0 <= i < |init| => JoinWords(init[i]));
    }
  }

  /** The walk writes exactly the text leaves in pre-order, each followed by
      one space. */
  lemma {:induction false} TextOfIsJoinedLeaves(n: Node)
    ensures TextOf(n) == JoinWords(TextLeaves(n))
    decreases n
  {
    var leaves := ChildLeaves(n);
    forall i | 0 <= i < |n.children|
      ensures ChildTexts(n)[i] == JoinWords(leaves[i])
    {
      TextOfIsJoinedLeaves(n.children[i]);
    }
    JoinedChildren(n);
  }

  /** The step of `TextOfIsJoinedLeaves` from the children to their parent. */
  lemma JoinedChildren(n: Node)
    requires forall i :: 0 <= i < |n.children| ==> ChildTexts(n)[i] == JoinWords(ChildLeaves(n)[i])
    ensures TextOf(n) == JoinWords(TextLeaves(n))
  {
    var leaves := ChildLeaves(n);
    assert ChildTexts(n) == seq(|leaves|, i requires 0 <= i < |leaves| => JoinWords(leaves[i]));
    JoinWordsFlatten(leaves);
    var own: seq<string> := if n.kind == TextNode then [n.data] else [];
    JoinWordsAppend(own, Flatten(leaves));
    if n.kind == TextNode {
      assert JoinWords(own) == JoinWords([]) + n.data + " ";
    }
  }

  lemma {:induction false} ConcatLength(parts: seq<string>, lengths: seq<nat>)
    requires |parts| == |lengths|
    requires forall i :: 0 <= i < |parts| ==> |parts[i]| == lengths[i]
    ensures |Concat(parts)| == Sum(lengths)
    decreases |parts|
  {
    if parts != [] {
      ConcatLength(parts[..|parts| - 1], lengths[..|lengths| - 1]);
    }
  }

  /** The walk writes `len(Data) + 1` characters per text node and nothing
      else. */
  lemma {:induction false} TextOfLength(n: Node)
    ensures |TextOf(n)| == Weight(n)
    decreases n
  {
    forall i | 0 <= i < |n.children|
      ensures |ChildTexts(n)[i]| == ChildWeights(n)[i]
    {
      TextOfLength(n.children[i]);
    }
    ConcatLength(ChildTexts(n), ChildWeights(n));
  }

  lemma {:induction false} FlattenContains(xss: seq<seq<string>>, i: nat, w: string)
    requires i < |xss| && w in xss[i]
    ensures w in Flatten(xss)
    decreases |xss|
  {
    if i < |xss| - 1 {
      FlattenContains(xss[..|xss| - 1], i, w);
    }
  }

  lemma {:induction false} FlattenMember(xss: seq<seq<string>>, w: string) returns (i: nat)
    requires w in Flatten(xss)
    ensures i < |xss| && w in xss[i]
    decreases |xss|
  {
    var init := xss[..|xss| - 1];
    if w in Flatten(init) {
      i := FlattenMember(init, w);
    } else {
      i := |xss| - 1;
    }
  }

  /** Every text node of the tree contributes its `Data` to the leaves. */
  lemma {:induction false} TextNodeIsLeaf(m: Node, n: Node)
    requires Occurs(m, n) && m.kind == TextNode
    ensures m.data in TextLeaves(n)
    decreases n
  {
    if m != n {
      var i :| 0 <= i < |n.children| && Occurs(m, n.children[i]);
      TextNodeIsLeaf(m, n.children[i]);
      FlattenContains(ChildLeaves(n), i, m.data);
    }
  }

  /** Every leaf is the `Data` of some text node of the tree. */
  lemma {:induction false} LeafIsTextNode(n: Node, w: string) returns (m: Node)
    requires w in TextLeaves(n)
    ensures Occurs(m, n) && m.kind == TextNode && m.data == w
    decreases n
  {
    if n.kind == TextNode && w == n.data {
      m := n;
    } else {
      var i := FlattenMember(ChildLeaves(n), w);
      m := LeafIsTextNode(n.children[i], w);
    }
  }

  lemma {:induction false} WordInJoinedWords(ws: seq<string>, w: string)
    requires w in ws
    ensures IsSubstring(w, JoinWords(ws))
    decreases |ws|
  {
    var init := ws[..|ws| - 1];
    if w in init {
      WordInJoinedWords(init, w);
      var k :| 0 <= k <= |JoinWords(init)| - |w| && Slice(JoinWords(init), k, |w|) == w;
      var s := JoinWords(ws);
      assert s == JoinWords(init) + ws[|ws| - 1] + " ";
      assert Slice(s, k, |w|) == Slice(JoinWords(init), k, |w|);
    } else {
      var k := |JoinWords(init)|;
      var s := JoinWords(ws);
      assert w == ws[|ws| - 1];
      assert Slice(s, k, |w|) == w;
    }
  }

  /** Every text node's `Data` occurs in the text of any tree holding it. */
  lemma TextNodeDataInText(m: Node, n: Node)
    requires Occurs(m, n) && m.kind == TextNode
    ensures IsSubstring(m.data, TextOf(n))
  {
    TextNodeIsLeaf(m, n);
    WordInJoinedWords(TextLeaves(n), m.data);
    TextOfIsJoinedLeaves(n);
  }

  /** A tree without text nodes writes nothing. */
  lemma NoTextNodesNoText(n: Node)
    requires forall m :: Occurs(m, n) ==> m.kind != TextNode
    ensures TextOf(n) == ""
  {
    if TextLeaves(n) != [] {
      var m := LeafIsTextNode(n, TextLeaves(n)[0]);
      assert false;
    }
    TextOfIsJoinedLeaves(n);
  }
}
