/**
  What the text-to-speech handler reads aloud for an element, over an abstract
  element: its tag name, its attributes, its `textContent`, its child nodes (text
  nodes and the others), the `textContent` of the descendants matching the
  heading / paragraph / cell selector in document order, and three things the
  DOM works out for particular tags (the text of the `label[for=id]` of an
  input, the input's `type` property, the text of a select's chosen option).
*/
module SpeechText {
  import opened Wrappers
  import opened Text

  datatype Node = TextNode(text: string) | OtherNode

  datatype Element = Element(
    tag: string,
    attrs: map<string, string>,
    textContent: string,
    childNodes: seq<Node>,
    descendantTexts: seq<string>,
    labelText: Option<string>,
    inputType: string,
    selectedText: Option<string>)

  /** `getAttribute(name)` read through `||`: a missing attribute and an empty one both count as "". */
  function AttrText(e: Element, name: string): string {
    if name in e.attrs then e.attrs[name] else ""
  }

  /** JavaScript's `a || b` on strings: `a` unless it is empty. */
  function Or(a: string, b: string): (r: string)
    ensures a != "" ==> r == a
    ensures a == "" ==> r == b
  {
    if a != "" then a else b
  }

  /** The tags with their own reading rule; every other element is generic. */
  predicate Special(tag: string) {
    tag == "IMG" || tag == "INPUT" || tag == "BUTTON" || tag == "A" || tag == "SELECT"
  }

  /** A child node that adds nothing to the direct text: not a text node, or a blank one. */
  predicate SilentNode(n: Node) {
    n.TextNode? ==> Trim(n.text) == ""
  }

  /** A descendant text the loop skips: blank, or 100 characters or more once trimmed. */
  predicate Skipped(t: string) {
    Trim(t) == "" || |Trim(t)| >= 100
  }

  /** The contribution of one child node to the direct text: a non-blank text node, trimmed, and a space. */
  function Piece(n: Node): string {
    match n
    case OtherNode => ""
    case TextNode(t) => if Trim(t) != "" then Trim(t) + " " else ""
  }

  /** The text accumulated over the child nodes, one piece after another. */
  function DirectText(ns: seq<Node>): string {
    if ns == [] then "" else DirectText(ns[..|ns| - 1]) + Piece(ns[|ns| - 1])
  }

  /** The trimmed, non-blank text nodes among `ns`, in order. */
  function Pieces(ns: seq<Node>): (ps: seq<string>)
    ensures forall i :: 0 <= i < |ps| ==> Trimmed(ps[i])
  {
    if ns == [] then []
    else
      var n := ns[|ns| - 1];
      Pieces(ns[..|ns| - 1]) + if SilentNode(n) then [] else [Trim(n.text)]
  }

  /** The contribution of one matching descendant: its trimmed text and ". ", when non-blank and under 100 characters. */
  function DescPiece(t: string): string {
    if Skipped(t) then "" else Trim(t) + ". "
  }

  function DescText(ds: seq<string>): string {
    if ds == [] then "" else DescText(ds[..|ds| - 1]) + DescPiece(ds[|ds| - 1])
  }

  /** The trimmed descendant texts that are read: non-blank and under 100 characters. */
  function DescPieces(ds: seq<string>): (ps: seq<string>)
    ensures forall i :: 0 <= i < |ps| ==> Trimmed(ps[i]) && |ps[i]| < 100
  {
    if ds == [] then []
    else
      var t := ds[|ds| - 1];
      DescPieces(ds[..|ds| - 1]) + if Skipped(t) then [] else [Trim(t)]
  }

  /** The descendants the loop looks at: the first three. */
  function FirstThree(ds: seq<string>): (r: seq<string>)
    ensures |r| <= 3 && |r| <= |ds| && r == ds[..|r|]
    ensures |ds| >= 3 ==> |r| == 3
    ensures |ds| < 3 ==> r == ds
  {
    if |ds| <= 3 then ds else ds[..3]
  }

  /** The text the generic branch builds before the final trim: direct text, or, when that is blank, the descendants' text. */
  function Collected(e: Element): string {
    var d := DirectText(e.childNodes);
    if Trim(d) == "" then d + DescText(FirstThree(e.descendantTexts)) else d
  }

  /** What is read for an element of any tag other than the special ones. */
  function GenericText(e: Element): string {
    if AttrText(e, "aria-label") != "" then AttrText(e, "aria-label")
    else Take(Trim(Collected(e)), 200)
  }

  /** `getTextFromElement`: one reading rule per special tag, the generic rule for the rest. */
  function TextOf(e: Element): string {
    if e.tag == "IMG" then Or(AttrText(e, "alt"), Or(AttrText(e, "title"), "Gambar"))
    else if e.tag == "INPUT" then
      Or(Trim(e.labelText.GetOr("")), Or(AttrText(e, "placeholder"), Or(AttrText(e, "aria-label"), "Input " + e.inputType)))
    else if e.tag == "BUTTON" then
      Or(Trim(e.textContent), Or(AttrText(e, "aria-label"), Or(AttrText(e, "title"), "Tombol")))
    else if e.tag == "A" then
      Or(Trim(e.textContent), Or(AttrText(e, "title"), Or(AttrText(e, "aria-label"), "Link")))
    else if e.tag == "SELECT" then
      "Pilihan: " + Or(e.selectedText.GetOr(""), "Tidak ada pilihan")
    else GenericText(e)
  }

  /**
    `getTextFromElement` as the handler runs it: one early return per special
    tag; for the rest the `aria-label`, or else the two loops accumulate the
    text, which is then trimmed and cut to 200 characters.
  */
  method GetTextFromElement(e: Element) returns (r: string)
    ensures r == TextOf(e)
  {
    if e.tag == "IMG" {
      return Or(AttrText(e, "alt"), Or(AttrText(e, "title"), "Gambar"));
    }
    if e.tag == "INPUT" {
      var caption := Trim(e.labelText.GetOr(""));
      return Or(caption, Or(AttrText(e, "placeholder"), Or(AttrText(e, "aria-label"), "Input " + e.inputType)));
    }
    if e.tag == "BUTTON" {
      return Or(Trim(e.textContent), Or(AttrText(e, "aria-label"), Or(AttrText(e, "title"), "Tombol")));
    }
    if e.tag == "A" {
      return Or(Trim(e.textContent), Or(AttrText(e, "title"), Or(AttrText(e, "aria-label"), "Link")));
    }
    if e.tag == "SELECT" {
      return "Pilihan: " + Or(e.selectedText.GetOr(""), "Tidak ada pilihan");
    }
    var aria := AttrText(e, "aria-label");
    if aria != "" {
      return aria;
    }
    var text := CollectTextNodes(e.childNodes);
    if Trim(text) == "" {
      var more := CollectDescendants(e.descendantTexts);
      text := text + more;
    }
    r := Take(Trim(text), 200);
  }

  /** The first loop: each non-blank text node among the children, trimmed, and a space. */
  method CollectTextNodes(ns: seq<Node>) returns (text: string)
    ensures text == DirectText(ns)
  {
    text := "";
    var i := 0;
    while i < |ns|
      invariant 0 <= i <= |ns|
      invariant text == DirectText(ns[..i])
    {
      assert ns[..i + 1][..i] == ns[..i];
      assert DirectText(ns[..i + 1]) == DirectText(ns[..i]) + Piece(ns[i]);
      var node := ns[i];
      if node.TextNode? {
        var t := Trim(node.text);
        if t != "" {
          AppendAssoc(text, t, " ");
          text := text + t + " ";
        }
      }
      i := i + 1;
    }
    assert ns[..i] == ns;
  }

  /** The second loop: each of the first three descendant texts that is non-blank and under 100 characters, trimmed, and a period. */
  method CollectDescendants(ds: seq<string>) returns (text: string)
    ensures text == DescText(FirstThree(ds))
  {
    text := "";
    var n := if |ds| < 3 then |ds| else 3;
    var j := 0;
    while j < n
      invariant 0 <= j <= n
      invariant text == DescText(ds[..j])
    {
      DescTextStep(ds, j);
      var t := Trim(ds[j]);
      if t != "" && |t| < 100 {
        AppendAssoc(text, t, ". ");
        text := text + t + ". ";
      }
      j := j + 1;
    }
    assert ds[..j] == FirstThree(ds);
  }

  lemma DescTextStep(ds: seq<string>, j: nat)
    requires j < |ds|
    ensures DescText(ds[..j + 1]) == DescText(ds[..j]) + DescPiece(ds[j])
  {
    assert ds[..j + 1][..j] == ds[..j];
  }

  /** The direct text is the joined pieces followed by one space, or nothing. */
  lemma {:induction false} DirectTextJoin(ns: seq<Node>)
    ensures DirectText(ns) == if Pieces(ns) == [] then "" else Join(Pieces(ns), " ") + " "
  {
    if ns != [] {
      var init := ns[..|ns| - 1];
      DirectTextJoin(init);
      var n := ns[|ns| - 1];
      assert DirectText(ns) == DirectText(init) + Piece(n);
      if n.TextNode? && Trim(n.text) != "" {
        var t := Trim(n.text);
        assert Pieces(ns) == Pieces(init) + [t];
        assert Piece(n) == t + " ";
        if Pieces(init) != [] {
          JoinSnoc(Pieces(init), t, " ");
        } else {
          assert Pieces(ns) == [t];
        }
      } else {
        assert Pieces(ns) == Pieces(init);
        assert Piece(n) == "";
      }
    }
  }

  /** The descendant text is the joined pieces, separated by ". ", followed by ". ", or nothing. */
  lemma {:induction false} DescTextJoin(ds: seq<string>)
    ensures DescText(ds) == if DescPieces(ds) == [] then "" else Join(DescPieces(ds), ". ") + ". "
  {
    if ds != [] {
      var init := ds[..|ds| - 1];
      DescTextJoin(init);
      var t := Trim(ds[|ds| - 1]);
      assert DescText(ds) == DescText(init) + DescPiece(ds[|ds| - 1]);
      if t != "" && |t| < 100 {
        assert DescPieces(ds) == DescPieces(init) + [t];
        assert DescPiece(ds[|ds| - 1]) == t + ". ";
        if DescPieces(init) != [] {
          JoinSnoc(DescPieces(init), t, ". ");
        } else {
          assert DescPieces(ds) == [t];
        }
      } else {
        assert DescPieces(ds) == DescPieces(init);
        assert DescPiece(ds[|ds| - 1]) == "";
      }
    }
  }

  /** The special tags always have something to read: each chain of `||` ends in a fixed word. */
  lemma SpecialNeverEmpty(e: Element)
    requires Special(e.tag)
    ensures TextOf(e) != ""
  {
  }

  /** A select is always read as "Pilihan: " and the chosen option, or "Tidak ada pilihan" without one. */
  lemma SelectReading(e: Element)
    requires e.tag == "SELECT"
    ensures StartsWith(TextOf(e), "Pilihan: ")
    ensures e.selectedText == None ==> TextOf(e) == "Pilihan: Tidak ada pilihan"
  {
    assert TextOf(e)[..9] == "Pilihan: ";
  }

  /**
    The aria-label comes first only for generic elements: a button with a label
    and a visible caption is read by its caption, a generic element by its label.
  */
  lemma AriaLabelOrder(caption: string, aria: string, ns: seq<Node>, ds: seq<string>)
    requires Trim(caption) != "" && aria != ""
    ensures TextOf(Element("BUTTON", map["aria-label" := aria], caption, ns, ds, None, "", None)) == Trim(caption)
    ensures TextOf(Element("DIV", map["aria-label" := aria], caption, ns, ds, None, "", None)) == aria
  {
  }

  /** An element of a generic tag with no aria-label reads its non-blank text nodes, space-joined, cut to 200 characters. */
  lemma GenericReadsTextNodes(e: Element)
    requires !Special(e.tag) && AttrText(e, "aria-label") == ""
    requires Pieces(e.childNodes) != []
    ensures TextOf(e) == Take(Join(Pieces(e.childNodes), " "), 200)
  {
    var ps := Pieces(e.childNodes);
    DirectTextJoin(e.childNodes);
    JoinEnds(ps, " ");
    TrimPadded(Join(ps, " "), " ");
  }

  /**
    An element of a generic tag with no aria-label and only blank text nodes
    reads the first three matching descendants that are non-blank and under 100
    characters, each followed by a period, cut to 200 characters; with none of
    them it reads nothing, and so nothing is spoken.
  */
  lemma GenericReadsDescendants(e: Element)
    requires !Special(e.tag) && AttrText(e, "aria-label") == ""
    requires Pieces(e.childNodes) == []
    ensures var ps := DescPieces(FirstThree(e.descendantTexts));
      TextOf(e) == if ps == [] then "" else Take(Join(ps, ". ") + ".", 200)
  {
    CollectedFromDescendants(e);
    TrimDescText(FirstThree(e.descendantTexts));
  }

  lemma CollectedFromDescendants(e: Element)
    requires Pieces(e.childNodes) == []
    ensures Collected(e) == DescText(FirstThree(e.descendantTexts))
  {
    DirectTextJoin(e.childNodes);
  }

  /** The descendant text, trimmed, is its pieces joined by ". " with a final period. */
  lemma TrimDescText(ds: seq<string>)
    ensures var ps := DescPieces(ds);
      Trim(DescText(ds)) == if ps == [] then "" else Join(ps, ". ") + "."
  {
    var ps := DescPieces(ds);
    DescTextJoin(ds);
    if ps != [] {
      var x := Join(ps, ". ") + ".";
      assert Trimmed(x) by {
        JoinEnds(ps, ". ");
      }
      assert DescText(ds) == x + " ";
      TrimPadded(x, " ");
    }
  }

  lemma {:induction false} PiecesEmpty(ns: seq<Node>)
    ensures Pieces(ns) == [] <==> forall i :: 0 <= i < |ns| ==> SilentNode(ns[i])
  {
    if ns != [] {
      var init := ns[..|ns| - 1];
      PiecesEmpty(init);
      var n := ns[|ns| - 1];
      assert |Pieces(ns)| == |Pieces(init)| + if SilentNode(n) then 0 else 1;
      assert (forall i :: 0 <= i < |ns| ==> SilentNode(ns[i]))
        <==> (forall i :: 0 <= i < |init| ==> SilentNode(init[i])) && SilentNode(n) by {
        assert forall i :: 0 <= i < |init| ==> init[i] == ns[i];
      }
    }
  }

  lemma {:induction false} DescPiecesEmpty(ds: seq<string>)
    ensures DescPieces(ds) == [] <==> forall i :: 0 <= i < |ds| ==> Skipped(ds[i])
  {
    if ds != [] {
      var init := ds[..|ds| - 1];
      DescPiecesEmpty(init);
      var t := ds[|ds| - 1];
      assert |DescPieces(ds)| == |DescPieces(init)| + if Skipped(t) then 0 else 1;
      if forall i :: 0 <= i < |ds| ==> Skipped(ds[i]) {
        forall i | 0 <= i < |init|
          ensures Skipped(init[i])
        {
          assert Skipped(ds[i]);
        }
      }
      if (forall i :: 0 <= i < |init| ==> Skipped(init[i])) && Skipped(t) {
        forall i | 0 <= i < |ds|
          ensures Skipped(ds[i])
        {
          if i < |init| {
            assert Skipped(init[i]);
          } else {
            assert i == |ds| - 1;
          }
        }
      }
    }
  }

  /**
    A generic element without an aria-label reads nothing (and so queues no
    speech) exactly when all its text nodes are blank and each of its first
    three matching descendants is blank or at least 100 characters long.
  */
  lemma GenericSilent(e: Element)
    requires !Special(e.tag) && AttrText(e, "aria-label") == ""
    ensures TextOf(e) == "" <==>
      (forall i :: 0 <= i < |e.childNodes| ==> SilentNode(e.childNodes[i]))
      && (forall i :: 0 <= i < |FirstThree(e.descendantTexts)| ==> Skipped(e.descendantTexts[i]))
  {
    var ds := FirstThree(e.descendantTexts);
    PiecesEmpty(e.childNodes);
    assert DescPieces(ds) == [] <==> forall i :: 0 <= i < |ds| ==> Skipped(e.descendantTexts[i]) by {
      DescPiecesEmpty(ds);
      assert forall i :: 0 <= i < |ds| ==> ds[i] == e.descendantTexts[i];
    }
    if Pieces(e.childNodes) != [] {
      assert TextOf(e) != "" by {
        GenericReadsTextNodes(e);
        JoinEnds(Pieces(e.childNodes), " ");
      }
    } else {
      GenericReadsDescendants(e);
    }
  }

  /** Apart from an aria-label, which is read whole, a generic element reads at most 200 characters. */
  lemma GenericBounded(e: Element)
    requires !Special(e.tag) && AttrText(e, "aria-label") == ""
    ensures |TextOf(e)| <= 200
  {
  }
}
