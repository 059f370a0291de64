/**
  The test the mutation observer applies to decide that the page changed
  enough to re-attach the text-to-speech listeners: some record of the batch
  is a `childList` change that added an element other than SCRIPT or STYLE.
*/
module RouteChange {

  datatype MutationKind = ChildList | Attributes | CharacterData

  /** An added node: an element with its tag name, or any other kind of node (text, comment). */
  datatype AddedNode = ElementNode(tag: string) | OtherAddedNode

  /** A `MutationRecord`, reduced to its type and its added nodes. */
  datatype Mutation = Mutation(kind: MutationKind, added: seq<AddedNode>)

  /** An added node that counts: an element that is not a script or a style sheet. */
  predicate Visible(n: AddedNode) {
    n.ElementNode? && n.tag != "SCRIPT" && n.tag != "STYLE"
  }

  /** `Array.from(addedNodes).some(...)`, written as a scan. */
  function AnyVisible(ns: seq<AddedNode>): (r: bool)
    ensures r <==> exists i :: 0 <= i < |ns| && Visible(ns[i])
  {
    if ns == [] then false
    else Visible(ns[0]) || (assert forall i :: 0 <= i < |ns| - 1 ==> ns[1..][i] == ns[i + 1]; AnyVisible(ns[1..]))
  }

  /** The test for one record. */
  predicate Significant(m: Mutation) {
    m.kind == ChildList && |m.added| > 0 && AnyVisible(m.added)
  }

  /** `mutations.some(...)`: whether the batch holds a significant record. */
  function HasSignificantChanges(ms: seq<Mutation>): (r: bool)
    ensures r <==> exists i :: 0 <= i < |ms| && Significant(ms[i])
  {
    if ms == [] then false
    else Significant(ms[0]) || (assert forall i :: 0 <= i < |ms| - 1 ==> ms[1..][i] == ms[i + 1]; HasSignificantChanges(ms[1..]))
  }

  /** A significant record is one that added a visible element; the added-nodes-non-empty test is implied. */
  lemma SignificantMeans(m: Mutation)
    ensures Significant(m) <==> m.kind == ChildList && exists i :: 0 <= i < |m.added| && Visible(m.added[i])
  {
  }

  /** Batches concatenate: the decision for two batches is the disjunction of the decisions. */
  lemma {:induction false} SignificantAppend(a: seq<Mutation>, b: seq<Mutation>)
    ensures HasSignificantChanges(a + b) == (HasSignificantChanges(a) || HasSignificantChanges(b))
  {
    if exists i :: 0 <= i < |a + b| && Significant((a + b)[i]) {
      var i :| 0 <= i < |a + b| && Significant((a + b)[i]);
      if i < |a| {
        assert a[i] == (a + b)[i];
      } else {
        assert b[i - |a|] == (a + b)[i];
      }
    }
    if exists i :: 0 <= i < |a| && Significant(a[i]) {
      var i :| 0 <= i < |a| && Significant(a[i]);
      assert (a + b)[i] == a[i];
    }
    if exists i :: 0 <= i < |b| && Significant(b[i]) {
      var i :| 0 <= i < |b| && Significant(b[i]);
      assert (a + b)[|a| + i] == b[i];
    }
  }

  /**
    Inserting the reading guide (a DIV appended to the body) is itself a
    significant change; `Overlay.GuideReappendReinits` follows it through a
    settings change to the extra listener set it attaches.
  */
  lemma GuideInsertionIsSignificant()
    ensures HasSignificantChanges([Mutation(ChildList, [ElementNode("DIV")])])
  {
    assert Significant(Mutation(ChildList, [ElementNode("DIV")]));
  }

  /** Only scripts, styles, text or attribute changes: no re-initialisation. */
  lemma ScriptsAndTextAreIgnored(ms: seq<Mutation>)
    requires forall i, j :: 0 <= i < |ms| && 0 <= j < |ms[i].added| ==> !Visible(ms[i].added[j])
    ensures !HasSignificantChanges(ms)
  {
  }
}
