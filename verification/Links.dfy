/**
 Turning the links of a chat message into anchors (apps/chat/static/js/utils/create_elements.js): a scan
 from match to match of a regular expression, appending text and anchor nodes to a parent element.
 */
module Links {
  import opened Options

  datatype Node = Text(text: string) | Anchor(text: string, href: string)

  /** The characters that JavaScript's `\s` matches. */
  predicate IsSpace(c: char) {
    var n := c as int;
    || n == 0x20 || 0x9 <= n <= 0xD || n == 0xA0 || n == 0x1680 || 0x2000 <= n <= 0x200A
    || n == 0x2028 || n == 0x2029 || n == 0x202F || n == 0x205F || n == 0x3000 || n == 0xFEFF
  }

  predicate HasAt(s: string, i: nat, prefix: string) {
    i + |prefix| <= |s| && forall j :: 0 <= j < |prefix| ==> s[i + j] == prefix[j]
  }

  function SchemeLength(s: string, i: nat): (n: nat)
    ensures n > 0 ==> i + n <= |s|
  {
    if HasAt(s, i, "http://") then 7
    else if HasAt(s, i, "https://") then 8
    else if HasAt(s, i, "www.") then 4
    else 0
  }

  ghost predicate IsInk(s: string, i: nat, end: nat) {
    end <= |s| && forall k :: i <= k < end ==> !IsSpace(s[k])
  }

  lemma PrefixIsInk(s: string, i: nat, prefix: string)
    requires HasAt(s, i, prefix) && IsInk(prefix, 0, |prefix|)
    ensures IsInk(s, i, i + |prefix|)
  {
    forall k | i <= k < i + |prefix| ensures !IsSpace(s[k]) {
      assert s[i + (k - i)] == prefix[k - i];
    }
  }

  lemma SchemeIsInk(s: string, i: nat)
    requires SchemeLength(s, i) > 0
    ensures IsInk(s, i, i + SchemeLength(s, i))
  {
    if HasAt(s, i, "http://") {
      PrefixIsInk(s, i, "http://");
    } else if HasAt(s, i, "https://") {
      PrefixIsInk(s, i, "https://");
    } else {
      PrefixIsInk(s, i, "www.");
    }
  }

  /** The expression matches at `i`: a scheme or `www.`, and at least one more character. */
  predicate IsStart(s: string, i: nat) {
    var n := SchemeLength(s, i);
    n > 0 && i + n < |s| && !IsSpace(s[i + n])
  }

  /** The spaces are the characters that JavaScript's `\s` matches. */
  lemma SpacesAre(c: char)
    ensures IsSpace(c) <==>
      || c in [' ', '\t', '\n', '\r', '\U{0B}', '\U{0C}', '\U{A0}', '\U{1680}', '\U{2000}', '\U{2001}', '\U{2002}']
      || c in ['\U{2003}', '\U{2004}', '\U{2005}', '\U{2006}', '\U{2007}', '\U{2008}', '\U{2009}', '\U{200A}']
      || c in ['\U{2028}', '\U{2029}', '\U{202F}', '\U{205F}', '\U{3000}', '\U{FEFF}']
  {
  }

  /** `prefix` stands at `i`, with a character after it that is not a space. */
  ghost predicate Follows(s: string, i: nat, prefix: string) {
    i + |prefix| < |s| && s[i..i + |prefix|] == prefix && !IsSpace(s[i + |prefix|])
  }

  /** A link starts exactly where one of the three prefixes is followed by anything but a space. */
  lemma StartsAre(s: string, i: nat)
    ensures IsStart(s, i) <==> Follows(s, i, "http://") || Follows(s, i, "https://") || Follows(s, i, "www.")
  {
    OneScheme(s, i);
    HasIsSlice(s, i, "http://");
    HasIsSlice(s, i, "https://");
    HasIsSlice(s, i, "www.");
  }

  lemma HasIsSlice(s: string, i: nat, prefix: string)
    ensures HasAt(s, i, prefix) <==> i + |prefix| <= |s| && s[i..i + |prefix|] == prefix
  {
    if i + |prefix| <= |s| {
      forall j | 0 <= j < |prefix| ensures s[i..i + |prefix|][j] == prefix[j] <==> s[i + j] == prefix[j] {
        assert s[i..i + |prefix|][j] == s[i + j];
      }
    }
  }

  /** The end of the run of non-space characters from `i`. */
  function RunEnd(s: string, i: nat): (end: nat)
    requires i <= |s|
    ensures i <= end <= |s|
    ensures end < |s| ==> IsSpace(s[end])
    decreases |s| - i
  {
    if i < |s| && !IsSpace(s[i]) then RunEnd(s, i + 1) else i
  }

  lemma {:induction false} RunIsInk(s: string, i: nat)
    requires i <= |s|
    ensures IsInk(s, i, RunEnd(s, i))
    decreases |s| - i
  {
    if i < |s| && !IsSpace(s[i]) {
      RunIsInk(s, i + 1);
    }
  }

  lemma RunGoesOn(s: string, i: nat, end: nat)
    requires i <= end && IsInk(s, i, end)
    ensures RunEnd(s, i) >= end
  {
    RunIsInk(s, i);
  }

  /** The leftmost position from `i` on at which the expression matches. */
  function NextStart(s: string, i: nat): (start: Option<nat>)
    requires i <= |s|
    ensures start.Some? ==> i <= start.value < |s| && IsStart(s, start.value)
    ensures NoStart(s, i, if start.Some? then start.value else |s|)
    decreases |s| - i
  {
    if i == |s| then None
    else if IsStart(s, i) then Some(i)
    else NextStart(s, i + 1)
  }

  function Href(url: string): string {
    if "http" <= url then url else "http://" + url
  }

  function TextNode(text: string): seq<Node> {
    if text == "" then [] else [Text(text)]
  }

  /** The nodes for the rest of the message from `i` on. */
  function NodesFrom(s: string, i: nat): seq<Node>
    requires i <= |s|
    decreases |s| - i
  {
    match NextStart(s, i)
    case None => TextNode(s[i..])
    case Some(start) =>
      StartIsInRun(s, start);
      var end := RunEnd(s, start);
      TextNode(s[i..start]) + [Anchor(s[start..end], Href(s[start..end]))] + NodesFrom(s, end)
  }

  lemma StartIsInRun(s: string, i: nat)
    requires IsStart(s, i)
    ensures RunEnd(s, i) > i + SchemeLength(s, i)
  {
    SchemeIsInk(s, i);
    RunGoesOn(s, i, i + SchemeLength(s, i) + 1);
  }

  // ---------- What the nodes are, without the scan ----------

  /**
   The nodes cut the message from `i` on into text segments that hold no link start, never two in a row and
   never empty, and anchors that are whole runs of non-space characters beginning at a link start.
   */
  ghost predicate IsSplit(s: string, i: nat, nodes: seq<Node>)
    requires i <= |s|
    decreases |nodes|
  {
    if nodes == [] then i == |s|
    else
      && i + |nodes[0].text| <= |s|
      && IsNode(s, i, i + |nodes[0].text|, nodes[0])
      && IsSplit(s, i + |nodes[0].text|, nodes[1..])
  }

  ghost predicate IsNode(s: string, i: nat, end: nat, node: Node)
    requires i <= end <= |s|
  {
    && i < end && node.text == s[i..end]
    && match node
       case Text(_) => NoStart(s, i, end) && (end < |s| ==> IsStart(s, end))
       case Anchor(url, href) => IsStart(s, i) && end == RunEnd(s, i) && href == Href(url)
  }

  ghost predicate NoStart(s: string, i: nat, end: nat) {
    forall k :: i <= k < end ==> !IsStart(s, k)
  }

  lemma SplitCons(s: string, i: nat, end: nat, node: Node, rest: seq<Node>)
    requires i <= end <= |s| && IsNode(s, i, end, node) && IsSplit(s, end, rest)
    ensures IsSplit(s, i, [node] + rest)
  {
    ConsParts(node, rest);
    assert i + |node.text| == end;
  }

  lemma ConsParts(node: Node, rest: seq<Node>)
    ensures [node] + rest != [] && ([node] + rest)[0] == node && ([node] + rest)[1..] == rest
  {
  }

  lemma {:induction false} NodesAreSplit(s: string, i: nat)
    requires i <= |s|
    ensures IsSplit(s, i, NodesFrom(s, i))
    decreases |s| - i
  {
    match NextStart(s, i)
    case None =>
      if i < |s| {
        assert IsSplit(s, |s|, []);
        SplitCons(s, i, |s|, Text(s[i..]), []);
        assert NodesFrom(s, i) == [Text(s[i..])] + [];
      }
    case Some(start) =>
      StartIsInRun(s, start);
      var end := RunEnd(s, start);
      var anchor := Anchor(s[start..end], Href(s[start..end]));
      NodesAreSplit(s, end);
      SplitCons(s, start, end, anchor, NodesFrom(s, end));
      if i < start {
        var text := Text(s[i..start]);
        SplitCons(s, i, start, text, [anchor] + NodesFrom(s, end));
        assert NodesFrom(s, i) == [text] + ([anchor] + NodesFrom(s, end));
      } else {
        assert NodesFrom(s, i) == [anchor] + NodesFrom(s, end);
      }
  }

  /** A message can be split in one way only. */
  lemma {:induction false} SplitIsUnique(s: string, i: nat, a: seq<Node>, b: seq<Node>)
    requires i <= |s| && IsSplit(s, i, a) && IsSplit(s, i, b)
    ensures a == b
    decreases |a|
  {
    if i < |s| {
      var end := SplitHead(s, i, a);
      var end' := SplitHead(s, i, b);
      NodeIsUnique(s, i, end, end', a[0], b[0]);
      SplitIsUnique(s, end, a[1..], b[1..]);
      assert a == [a[0]] + a[1..] && b == [b[0]] + b[1..];
    } else {
      SplitEnds(s, a);
      SplitEnds(s, b);
    }
  }

  lemma SplitHead(s: string, i: nat, nodes: seq<Node>) returns (end: nat)
    requires i < |s| && IsSplit(s, i, nodes)
    ensures nodes != [] && i < end <= |s| && IsNode(s, i, end, nodes[0]) && IsSplit(s, end, nodes[1..])
  {
    end := i + |nodes[0].text|;
  }

  lemma SplitEnds(s: string, nodes: seq<Node>)
    requires IsSplit(s, |s|, nodes)
    ensures nodes == []
  {
  }

  lemma NodeIsUnique(s: string, i: nat, end: nat, end': nat, a: Node, b: Node)
    requires i <= end <= |s| && i <= end' <= |s| && IsNode(s, i, end, a) && IsNode(s, i, end', b)
    ensures a == b && end == end'
  {
    if a.Text? {
      TextEndsOnce(s, i, end, end');
      TextEndsOnce(s, i, end', end);
    }
  }

  lemma TextEndsOnce(s: string, i: nat, end: nat, end': nat)
    requires NoStart(s, i, end') && i <= end <= |s| && end' <= |s| && (end < |s| ==> i < end && IsStart(s, end))
    ensures end >= end'
  {
  }

  function TextOf(nodes: seq<Node>): string {
    if nodes == [] then "" else nodes[0].text + TextOf(nodes[1..])
  }

  lemma CutIsWhole(s: string, i: nat, end: nat, node: Node)
    requires i <= end <= |s| && IsNode(s, i, end, node)
    ensures node.text != "" && node.text + s[end..] == s[i..]
  {
  }

  lemma ConsText(nodes: seq<Node>)
    requires nodes != []
    ensures TextOf(nodes) == nodes[0].text + TextOf(nodes[1..])
    ensures forall n :: n in nodes <==> n == nodes[0] || n in nodes[1..]
  {
  }

  /** Nothing of the message is lost, repeated or moved, and no node is empty. */
  lemma {:induction false} SplitLosesNothing(s: string, i: nat, nodes: seq<Node>)
    requires i <= |s| && IsSplit(s, i, nodes)
    ensures TextOf(nodes) == s[i..]
    ensures forall n :: n in nodes ==> n.text != ""
    decreases |nodes|
  {
    if i < |s| {
      var end := SplitHead(s, i, nodes);
      SplitLosesNothing(s, end, nodes[1..]);
      CutIsWhole(s, i, end, nodes[0]);
      ConsText(nodes);
    } else {
      SplitEnds(s, nodes);
    }
  }

  /** Read on its own, a text node still holds no link, and every anchor leads to a web address. */
  lemma {:induction false} NodesAreClean(s: string, i: nat, nodes: seq<Node>)
    requires i <= |s| && IsSplit(s, i, nodes)
    ensures forall n :: n in nodes ==> IsClean(n)
    decreases |nodes|
  {
    if i < |s| {
      var end := SplitHead(s, i, nodes);
      NodesAreClean(s, end, nodes[1..]);
      NodeIsClean(s, i, end, nodes[0]);
      assert nodes == [nodes[0]] + nodes[1..];
    } else {
      SplitEnds(s, nodes);
    }
  }

  ghost predicate IsClean(n: Node) {
    match n
    case Text(text) => NoStart(text, 0, |text|)
    case Anchor(url, href) =>
      // A link with a scheme leads to itself, one without gets the plain scheme.
      && ("http://" <= url || "https://" <= url || "www." <= url)
      && href == if "www." <= url then "http://" + url else url
  }

  lemma NodeIsClean(s: string, i: nat, end: nat, node: Node)
    requires i <= end <= |s| && IsNode(s, i, end, node)
    ensures IsClean(node)
  {
    if node.Text? {
      SegmentHasNoStart(s, i, end);
    } else {
      AnchorLeads(s, i);
    }
  }

  lemma SegmentHasNoStart(s: string, i: nat, end: nat)
    requires i <= end <= |s| && NoStart(s, i, end)
    ensures NoStart(s[i..end], 0, end - i)
  {
    forall k | 0 <= k < end - i ensures !IsStart(s[i..end], k) {
      StartInSegment(s, i, end, k);
    }
  }

  lemma StartInSegment(s: string, i: nat, end: nat, k: nat)
    requires i <= end <= |s| && k < end - i
    ensures IsStart(s[i..end], k) ==> IsStart(s, i + k)
  {
    if IsStart(s[i..end], k) {
      var n := SchemeLength(s[i..end], k);
      assert s[i..end][k + n] == s[i + k + n];
      SegmentScheme(s, i, end, k);
    }
  }

  lemma SegmentScheme(s: string, i: nat, end: nat, k: nat)
    requires i <= end <= |s| && SchemeLength(s[i..end], k) > 0
    ensures SchemeLength(s, i + k) == SchemeLength(s[i..end], k)
  {
    SegmentHas(s, i, end, k, "http://");
    SegmentHas(s, i, end, k, "https://");
    SegmentHas(s, i, end, k, "www.");
    OneScheme(s, i + k);
  }

  lemma OneScheme(s: string, i: nat)
    ensures HasAt(s, i, "https://") ==> !HasAt(s, i, "http://")
    ensures HasAt(s, i, "www.") ==> !HasAt(s, i, "http://") && !HasAt(s, i, "https://")
  {
    assert "https://"[4] != "http://"[4];
    assert "www."[0] != "http://"[0] && "www."[0] != "https://"[0];
  }

  lemma SegmentHas(s: string, i: nat, end: nat, k: nat, prefix: string)
    requires i <= end <= |s|
    ensures k + |prefix| <= end - i ==> (HasAt(s[i..end], k, prefix) <==> HasAt(s, i + k, prefix))
  {
    if k + |prefix| <= end - i {
      forall j | 0 <= j < |prefix|
        ensures s[i..end][k + j] == prefix[j] <==> s[i + k + j] == prefix[j]
      {
        assert s[i..end][k + j] == s[i + k + j];
      }
    }
  }

  lemma AnchorLeads(s: string, i: nat)
    requires IsStart(s, i)
    ensures i <= RunEnd(s, i) <= |s|
    ensures IsClean(Anchor(s[i..RunEnd(s, i)], Href(s[i..RunEnd(s, i)])))
  {
    StartIsInRun(s, i);
    var url := s[i..RunEnd(s, i)];
    UrlLeads(s, i, url);
  }

  lemma UrlLeads(s: string, i: nat, url: string)
    requires SchemeLength(s, i) > 0 && i + |url| <= |s| && url == s[i..i + |url|] && |url| > SchemeLength(s, i)
    ensures IsClean(Anchor(url, Href(url)))
  {
    if HasAt(s, i, "http://") {
      HasInRun(s, i, url, "http://");
      assert url[..4] == "http" && url[0] == 'h';
    } else if HasAt(s, i, "https://") {
      HasInRun(s, i, url, "https://");
      assert url[..4] == "http" && url[0] == 'h';
    } else {
      HasInRun(s, i, url, "www.");
      assert url[0] == "www."[0];
    }
  }

  lemma HasInRun(s: string, i: nat, url: string, prefix: string)
    requires i + |url| <= |s| && url == s[i..i + |url|] && HasAt(s, i, prefix) && |prefix| <= |url|
    ensures prefix <= url
  {
    forall j | 0 <= j < |prefix| ensures url[j] == prefix[j] {
      assert s[i + j] == prefix[j];
    }
  }

  // ---------- The scan ----------

  class ParentElement {
    var children: seq<Node>

    constructor ()
      ensures children == []
    {
      children := [];
    }

    method AppendChild(node: Node)
      modifies this
      ensures children == old(children) + [node]
    {
      children := children + [node];
    }
  }

  /** One round of the scan moves the text before a match, and the match, out of what is left to do. */
  lemma OneMatch(done: seq<Node>, s: string, i: nat, start: nat)
    requires i <= |s| && NextStart(s, i) == Some(start)
    ensures RunEnd(s, start) > start
    ensures var end := RunEnd(s, start);
            done + TextNode(s[i..start]) + [Anchor(s[start..end], Href(s[start..end]))] + NodesFrom(s, end)
            == done + NodesFrom(s, i)
  {
    StartIsInRun(s, start);
  }

  method AppendTextWithLinks(parent: ParentElement, input: string)
    modifies parent
    ensures parent.children == old(parent.children) + NodesFrom(input, 0)
  {
    var lastIndex := 0;
    var offset := NextStart(input, lastIndex);
    ghost var goal := parent.children + NodesFrom(input, 0);
    while offset.Some?
      invariant lastIndex <= |input| && offset == NextStart(input, lastIndex)
      invariant parent.children + NodesFrom(input, lastIndex) == goal
      decreases |input| - lastIndex
    {
      ghost var done := parent.children;
      OneMatch(done, input, lastIndex, offset.value);
      if offset.value > lastIndex {
        parent.AppendChild(Text(input[lastIndex..offset.value]));
      }
      assert parent.children == done + TextNode(input[lastIndex..offset.value]);
      var end := RunEnd(input, offset.value);
      var url := input[offset.value..end];
      var href := if "http" <= url then url else "http://" + url;
      parent.AppendChild(Anchor(url, href));
      lastIndex := end;
      offset := NextStart(input, lastIndex);
    }
    if lastIndex < |input| {
      parent.AppendChild(Text(input[lastIndex..]));
    }
  }
}
