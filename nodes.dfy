/** The canonical in-memory representation of one Wikidata entity (class `Node` of core.py). */
module Nodes {

  import opened Text

  /** Labels longer than this many characters are wrapped at their spaces. */
  const WrapThreshold: nat := 16

  /** The display label: a label longer than the threshold has every space turned into a newline,
      a shorter one is shown as it is. */
  function SmartLabel(labelText: string): (r: string)
    ensures |r| == |labelText|
    ensures |labelText| <= WrapThreshold ==> r == labelText
    ensures |labelText| > WrapThreshold ==> ' ' !in r
    ensures |labelText| > WrapThreshold ==>
      forall i :: 0 <= i < |labelText| ==> r[i] == (if labelText[i] == ' ' then '\n' else labelText[i])
  {
    if |labelText| > WrapThreshold then ReplaceChar(labelText, ' ', '\n') else labelText
  }

  class Node {
    const id: string
    const labelText: string
    const smartLabel: string
    var isTopLevel: bool

    /** The display label is always derived from the label. */
    predicate Valid() {
      smartLabel == SmartLabel(labelText)
    }

    /** The field initialisation of `Node.__init__`; registering the node in the node cache is
        done by `Core.NewNode`, which models the whole constructor call. */
    constructor (id: string, labelText: string)
      ensures this.id == id && this.labelText == labelText && Valid()
      ensures !isTopLevel
    {
      isTopLevel := false;
      this.id := id;
      this.labelText := labelText;
      smartLabel := SmartLabel(labelText);
    }

    /** `repr(node)`: the id in braces, a newline, then the display label. */
    function Repr(): (r: string)
      ensures |r| == |id| + 3 + |smartLabel|
      ensures r[..|id| + 3] == "{" + id + "}\n"
      ensures r[|id| + 3..] == smartLabel
    {
      "{" + id + "}\n" + smartLabel
    }
  }

  /** A label of at most the threshold length is found verbatim in the node's `repr`, which is
      what looking a node up by a piece of its label relies on. */
  lemma ReprShowsShortLabel(n: Node)
    requires n.Valid() && |n.labelText| <= WrapThreshold
    ensures Contains(n.Repr(), n.labelText)
  {
    var r := n.Repr();
    var i := |n.id| + 3;
    assert r[i..i + |n.labelText|] == n.labelText;
    assert OccursAt(r, n.labelText, i);
  }
}
