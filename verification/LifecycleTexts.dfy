/** Which lifecycle documents the parser refuses, and what it makes of elements and texts that the
    printer never writes. */
module LifecycleTexts {
  import opened Common
  import opened Lifecycle
  import LifecycleRoundTrips
  import Decimal

  /** The element's text is not an integer; no text at all is a zero. */
  predicate BadInt(node: Node) {
    node.Leaf? && node.text != "" && Decimal.Read(node.text).None?
  }

  predicate Among(nodes: seq<Node>, bad: Node -> bool) {
    exists i :: 0 <= i < |nodes| && bad(nodes[i])
  }

  /** An element of the given name whose text is not an integer. */
  function BadNamed(name: Name): Node -> bool {
    (node: Node) => node.name == name && BadInt(node)
  }

  /** A child of a rule holding such an element where days are read. */
  function BadChild(): Node -> bool {
    (node: Node) =>
      match node.name
      case ExpirationEl => Among(ChildrenOf(node), BadNamed(DaysEl))
      case TransitionEl => Among(ChildrenOf(node), BadNamed(DaysEl))
      case NoncurrentExpirationEl => Among(ChildrenOf(node), BadNamed(NoncurrentDaysEl))
      case NoncurrentTransitionEl => Among(ChildrenOf(node), BadNamed(NoncurrentDaysEl))
      case AbortEl => Among(ChildrenOf(node), BadNamed(DaysAfterInitiationEl))
      case _ => false
  }

  function BadRule(): Node -> bool {
    (node: Node) => node.name == RuleEl && Among(ChildrenOf(node), BadChild())
  }

  /** A loop over children raises exactly when one of them makes it raise. */
  lemma {:induction false} FoldFails<A>(step: (A, Node) -> Option<A>, init: A, nodes: seq<Node>, bad: Node -> bool)
    requires forall acc, node :: step(acc, node).None? <==> bad(node)
    ensures Fold(step, init, nodes).None? <==> Among(nodes, bad)
  {
    if nodes != [] && !bad(nodes[0]) {
      var rest := nodes[1..];
      FoldFails(step, step(init, nodes[0]).value, rest, bad);
      assert forall i :: 0 <= i < |rest| ==> rest[i] == nodes[i + 1];
      if i :| 0 <= i < |nodes| && bad(nodes[i]) {
        assert bad(rest[i - 1]);
      }
    }
  }

  lemma {:induction false} FilterParses(node: Node)
    ensures ParseTag(node).Some? && ParseAnd(node).Some? && ParseFilter(node).Some?
  {
    var never := (x: Node) => false;
    forall x ensures ParseTag(x).Some? {
      FoldFails(TagStep, Tag("", ""), ChildrenOf(x), never);
    }
    forall x ensures ParseAnd(x).Some? {
      FoldFails(AndStep, (None, []), ChildrenOf(x), never);
    }
    FoldFails(FilterStep, Filter(None, None, None), ChildrenOf(node), never);
  }

  lemma {:induction false} PieceFails(node: Node)
    ensures ParsePiece(node).None? <==> BadChild()(node)
  {
    FilterParses(node);
    FoldFails(ExpirationStep, Expiration(None, None, None), ChildrenOf(node), BadNamed(DaysEl));
    FoldFails(TransitionStep, Transition(None, None, None), ChildrenOf(node), BadNamed(DaysEl));
    FoldFails(NoncurrentStep, Noncurrent(None, None), ChildrenOf(node), BadNamed(NoncurrentDaysEl));
    FoldFails(NoncurrentExpirationStep, None, ChildrenOf(node), BadNamed(NoncurrentDaysEl));
    FoldFails(AbortStep, None, ChildrenOf(node), BadNamed(DaysAfterInitiationEl));
  }

  lemma {:induction false} RuleFails(node: Node)
    ensures ParseRule(node).None? <==> Among(ChildrenOf(node), BadChild())
  {
    forall x ensures ParsePiece(x).None? <==> BadChild()(x) {
      PieceFails(x);
    }
    FoldFails(RuleStep, BLANK, ChildrenOf(node), BadChild());
  }

  /** The parser raises exactly when some rule has, where days are read, a text that is not an integer;
      nothing else in a document makes it raise. */
  lemma {:induction false} ParseFailsIff(root: Node)
    ensures ParseConfig(root).None? <==> Among(ChildrenOf(root), BadRule())
  {
    forall x: Node ensures x.name == RuleEl ==> (ParseRule(x).None? <==> BadRule()(x)) {
      RuleFails(x);
    }
    FoldFails(ConfigStep, [], ChildrenOf(root), BadRule());
  }

  // ---------------------------------------------------------------- texts

  lemma {:induction false} OneChild<A>(step: (A, Node) -> Option<A>, init: A, name: Name, child: Node)
    ensures Fold(step, init, ChildrenOf(Element(name, [child]))) == step(init, child)
  {
    LifecycleRoundTrips.FoldOne(step, init, child);
  }

  /** The delete marker is set by the word true in any mixture of cases, and by nothing else. */
  lemma {:induction false} MarkerIs(text: string)
    ensures var marked := && |text| == 4 && text[0] in "tT" && text[1] in "rR" && text[2] in "uU" && text[3] in "eE";
            ParseExpiration(Element(ExpirationEl, [Leaf(MarkerEl, text)])) == Some(Expiration(None, None, Some(marked)))
  {
    OneChild(ExpirationStep, Expiration(None, None, None), ExpirationEl, Leaf(MarkerEl, text));
    var low := Lower(text);
    assert low == "true" <==> |low| == 4 && low[0] == 't' && low[1] == 'r' && low[2] == 'u' && low[3] == 'e';
  }

  /** Days are the integer that the text shows, and zero without a text. */
  lemma {:induction false} DaysAre(n: int)
    ensures ParseExpiration(Element(ExpirationEl, [Leaf(DaysEl, Decimal.Show(n))])) == Some(Expiration(Some(n), None, None))
    ensures ParseExpiration(Element(ExpirationEl, [Leaf(DaysEl, "")])) == Some(Expiration(Some(0), None, None))
  {
    Decimal.ReadShow(n);
    OneChild(ExpirationStep, Expiration(None, None, None), ExpirationEl, Leaf(DaysEl, Decimal.Show(n)));
    OneChild(ExpirationStep, Expiration(None, None, None), ExpirationEl, Leaf(DaysEl, ""));
  }

  // ---------------------------------------------------------------- unknown elements

  lemma {:induction false} Passed<A>(step: (A, Node) -> Option<A>, init: A, a: seq<Node>, x: Node, b: seq<Node>)
    requires forall acc :: step(acc, x) == Some(acc)
    ensures Fold(step, init, a + [x] + b) == Fold(step, init, a + b)
  {
    LifecycleRoundTrips.FoldSplit(step, init, a + [x], b);
    LifecycleRoundTrips.FoldSplit(step, init, a, [x]);
    LifecycleRoundTrips.FoldSplit(step, init, a, b);
    var r := Fold(step, init, a);
    if r.Some? {
      LifecycleRoundTrips.FoldOne(step, r.value, x);
    }
  }

  /** An element the parser does not know may stand anywhere in a rule or beside the rules; it is as if
      it were not there. */
  lemma {:induction false} UnknownIgnored(name: Name, a: seq<Node>, x: Node, b: seq<Node>)
    requires x.name.OtherEl?
    ensures ParseRule(Element(name, a + [x] + b)) == ParseRule(Element(name, a + b))
    ensures ParseConfig(Element(name, a + [x] + b)) == ParseConfig(Element(name, a + b))
  {
    Passed(RuleStep, BLANK, a, x, b);
    Passed(ConfigStep, [], a, x, b);
  }

  // ---------------------------------------------------------------- what is printed

  lemma {:induction false} PrintedParts(days: int, date: string, storage: string, tag: Tag, marker: bool)
    ensures ExpirationTree(Expiration(Some(days), Some(Str(date)), Some(marker))) ==
            Element(ExpirationEl, [Leaf(DaysEl, Decimal.Show(days)), Leaf(DateEl, date),
                                   Leaf(MarkerEl, if marker then "true" else "false")])
    ensures TransitionTree(Transition(Some(days), Some(Str(date)), Some(Str(storage)))) ==
            Element(TransitionEl, [Leaf(DaysEl, Decimal.Show(days)), Leaf(DateEl, date), Leaf(StorageClassEl, storage)])
    ensures NoncurrentTree(Noncurrent(Some(days), Some(Str(storage)))) ==
            Element(NoncurrentTransitionEl, [Leaf(NoncurrentDaysEl, Decimal.Show(days)), Leaf(StorageClassEl, storage)])
    ensures AndTree(And(Some(date), Some([tag]))) ==
            Element(AndEl, [Leaf(PrefixEl, date), Element(TagEl, [Leaf(KeyEl, tag.key), Leaf(ValueEl, tag.value)])])
  {
    assert [tag][..0] == [];
  }

  /** A rule with everything is printed child by child in this order. */
  lemma {:induction false} PrintedRule(id: string, prefix: string, status: string, f: Filter, e: Expiration, t: Transition,
                                       days: int, n: Noncurrent, abort: int)
    ensures var rule := Rule(Some(Str(id)), Some(prefix), Some(Str(status)), Some(f), Some(e), Some([t]),
                             Some(Some(days)), Some([n]), Some(Some(abort)));
            RuleTree(rule) == Element(RuleEl,
              [Leaf(IdEl, id), Leaf(PrefixEl, prefix), Leaf(StatusEl, status), FilterTree(f), ExpirationTree(e)]
              + [TransitionTree(t), Element(NoncurrentExpirationEl, [Leaf(NoncurrentDaysEl, Decimal.Show(days))]),
                 NoncurrentTree(n), Element(AbortEl, [Leaf(DaysAfterInitiationEl, Decimal.Show(abort))])])
  {
    OneTransition(t);
    OneNoncurrent(n);
    Nine(Leaf(IdEl, id), Leaf(PrefixEl, prefix), Leaf(StatusEl, status), FilterTree(f), ExpirationTree(e),
         TransitionTree(t), NoncurrentExpirationTree(Some(days)), NoncurrentTree(n), AbortTree(Some(abort)));
  }

  lemma {:induction false} Nine<T>(a: T, b: T, c: T, d: T, e: T, f: T, g: T, h: T, i: T)
    ensures [a] + [b] + [c] + [d] + [e] + [f] + [g] + [h] + [i] == [a, b, c, d, e] + [f, g, h, i]
  {
  }

  lemma {:induction false} OneTransition(t: Transition)
    ensures TransitionTrees([t]) == [TransitionTree(t)]
  {
    assert [t][..0] == [];
  }

  lemma {:induction false} OneNoncurrent(t: Noncurrent)
    ensures NoncurrentTrees([t]) == [NoncurrentTree(t)]
  {
    assert [t][..0] == [];
  }
}
