/** Printing a lifecycle configuration and parsing it again. */
module LifecycleRoundTrips {
  import opened Common
  import opened Lifecycle

  /** What is left of a text once printed and parsed. */
  function NormText(t: Text): Text {
    if Shown(t) == "" then NoText else Str(Shown(t))
  }

  function NormOption(o: Option<Text>): Option<Text> {
    if o.None? then None else Some(NormText(o.value))
  }

  function NormList<T>(o: Option<seq<T>>): Option<seq<T>> {
    if o.None? || o.value == [] then None else o
  }

  function NormFilter(f: Filter): Filter {
    if f.prefix.Some? then Filter(f.prefix, None, None)
    else if f.conj.Some? then Filter(None, None, Some(And(f.conj.value.prefix, NormList(f.conj.value.tags))))
    else Filter(None, f.tag, None)
  }

  function NormExpiration(e: Expiration): Expiration {
    e.(date := NormOption(e.date))
  }

  function NormTransition(t: Transition): Transition {
    t.(date := NormOption(t.date), storageClass := NormOption(t.storageClass))
  }

  function NormNoncurrent(n: Noncurrent): Noncurrent {
    n.(storageClass := NormOption(n.storageClass))
  }

  function NormTransitions(ts: seq<Transition>): (ns: seq<Transition>)
    ensures |ns| == |ts|
    ensures forall i :: 0 <= i < |ts| ==> ns[i] == NormTransition(ts[i])
  {
    seq(|ts|, i requires 0 <= i < |ts| => NormTransition(ts[i]))
  }

  function NormNoncurrents(ts: seq<Noncurrent>): (ns: seq<Noncurrent>)
    ensures |ns| == |ts|
    ensures forall i :: 0 <= i < |ts| ==> ns[i] == NormNoncurrent(ts[i])
  {
    seq(|ts|, i requires 0 <= i < |ts| => NormNoncurrent(ts[i]))
  }

  function NormRule(r: Rule): Rule {
    Rule(NormOption(r.id), r.prefix, NormOption(r.status),
         if r.filter.None? then None else Some(NormFilter(r.filter.value)),
         if r.expiration.None? then None else Some(NormExpiration(r.expiration.value)),
         NormList(Some(NormTransitions(ListOf(r.transitions)))),
         r.noncurrentExpiration,
         NormList(Some(NormNoncurrents(ListOf(r.noncurrentTransitions)))),
         r.abort)
  }

  lemma {:induction false} FoldSplit<A>(step: (A, Node) -> Option<A>, init: A, a: seq<Node>, b: seq<Node>)
    ensures Fold(step, init, a + b) ==
            var first := Fold(step, init, a);
            if first.None? then None else Fold(step, first.value, b)
  {
    if a == [] {
      assert a + b == b;
    } else {
      var first := step(init, a[0]);
      assert (a + b)[1..] == a[1..] + b;
      if first.Some? {
        FoldSplit(step, first.value, a[1..], b);
      }
    }
  }

  lemma {:induction false} FoldOne<A>(step: (A, Node) -> Option<A>, init: A, node: Node)
    ensures Fold(step, init, [node]) == step(init, node)
  {
    assert [node][1..] == [];
  }

  lemma {:induction false} IntLeafRead(name: Name, n: int)
    ensures IntOf(Leaf(name, Decimal.Show(n))) == Some(n)
  {
    Decimal.ReadShow(n);
  }

  lemma {:induction false} TagRoundTrip(tag: Tag)
    ensures ParseTag(TagTree(tag)) == Some(tag)
  {
    var key, value := Leaf(KeyEl, tag.key), Leaf(ValueEl, tag.value);
    assert [key, value] == [key] + [value];
    FoldSplit(TagStep, Tag("", ""), [key], [value]);
    FoldOne(TagStep, Tag("", ""), key);
    FoldOne(TagStep, Tag(tag.key, ""), value);
  }

  lemma {:induction false} TagsRoundTrip(acc: (Option<string>, seq<Tag>), tags: seq<Tag>)
    ensures Fold(AndStep, acc, TagTrees(tags)) == Some((acc.0, acc.1 + tags))
  {
    if tags == [] {
      assert acc.1 + tags == acc.1;
    } else {
      var n := |tags| - 1;
      TagsRoundTrip(acc, tags[..n]);
      FoldSplit(AndStep, acc, TagTrees(tags[..n]), [TagTree(tags[n])]);
      FoldOne(AndStep, (acc.0, acc.1 + tags[..n]), TagTree(tags[n]));
      TagRoundTrip(tags[n]);
      assert acc.1 + tags[..n] + [tags[n]] == acc.1 + tags;
    }
  }

  lemma {:induction false} AndRoundTrip(a: And)
    ensures ParseAnd(AndTree(a)) == Some(And(a.prefix, NormList(a.tags)))
  {
    var tags := ListOf(a.tags);
    FoldSplit(AndStep, (None, []), StringLeaf(PrefixEl, a.prefix), TagTrees(tags));
    if a.prefix.Some? {
      FoldOne(AndStep, (None, []), Leaf(PrefixEl, a.prefix.value));
    }
    TagsRoundTrip((a.prefix, []), tags);
    assert [] + tags == tags;
  }

  lemma {:induction false} FilterRoundTrip(f: Filter)
    ensures ParseFilter(FilterTree(f)) == Some(NormFilter(f))
  {
    var blank := Filter(None, None, None);
    if f.prefix.Some? {
      FoldOne(FilterStep, blank, Leaf(PrefixEl, f.prefix.value));
    } else if f.conj.Some? {
      AndRoundTrip(f.conj.value);
      FoldOne(FilterStep, blank, AndTree(f.conj.value));
    } else if f.tag.Some? {
      TagRoundTrip(f.tag.value);
      FoldOne(FilterStep, blank, TagTree(f.tag.value));
    }
  }

  lemma {:induction false} ExpirationRoundTrip(e: Expiration)
    ensures ParseExpiration(ExpirationTree(e)) == Some(NormExpiration(e))
  {
    var blank := Expiration(None, None, None);
    var days, date, marker := IntLeaf(DaysEl, e.days), TextLeaf(DateEl, e.date), BoolLeaf(MarkerEl, e.marker);
    var one := blank.(days := e.days);
    var two := one.(date := NormOption(e.date));
    assert Fold(ExpirationStep, blank, days) == Some(one) by {
      if e.days.Some? {
        IntLeafRead(DaysEl, e.days.value);
        FoldOne(ExpirationStep, blank, days[0]);
      }
    }
    assert Fold(ExpirationStep, one, date) == Some(two) by {
      if e.date.Some? {
        FoldOne(ExpirationStep, one, date[0]);
      }
    }
    assert Fold(ExpirationStep, two, marker) == Some(two.(marker := e.marker)) by {
      if e.marker.Some? {
        FoldOne(ExpirationStep, two, marker[0]);
        LowerBool();
      }
    }
    FoldSplit(ExpirationStep, blank, days, date);
    FoldSplit(ExpirationStep, blank, days + date, marker);
  }

  lemma {:induction false} LowerBool()
    ensures Lower("true") == "true" && Lower("false") == "false"
  {
  }

  lemma {:induction false} TransitionRoundTrip(t: Transition)
    ensures ParseTransition(TransitionTree(t)) == Some(NormTransition(t))
  {
    var blank := Transition(None, None, None);
    var days, date := IntLeaf(DaysEl, t.days), TextLeaf(DateEl, t.date);
    var storage := TextLeaf(StorageClassEl, t.storageClass);
    var one := blank.(days := t.days);
    var two := one.(date := NormOption(t.date));
    assert Fold(TransitionStep, blank, days) == Some(one) by {
      if t.days.Some? {
        IntLeafRead(DaysEl, t.days.value);
        FoldOne(TransitionStep, blank, days[0]);
      }
    }
    assert Fold(TransitionStep, one, date) == Some(two) by {
      if t.date.Some? {
        FoldOne(TransitionStep, one, date[0]);
      }
    }
    assert Fold(TransitionStep, two, storage) == Some(NormTransition(t)) by {
      if t.storageClass.Some? {
        FoldOne(TransitionStep, two, storage[0]);
      }
    }
    FoldSplit(TransitionStep, blank, days, date);
    FoldSplit(TransitionStep, blank, days + date, storage);
  }

  lemma {:induction false} NoncurrentRoundTrip(n: Noncurrent)
    ensures ParseNoncurrent(NoncurrentTree(n)) == Some(NormNoncurrent(n))
  {
    var blank := Noncurrent(None, None);
    var days, storage := IntLeaf(NoncurrentDaysEl, n.days), TextLeaf(StorageClassEl, n.storageClass);
    var one := blank.(days := n.days);
    assert Fold(NoncurrentStep, blank, days) == Some(one) by {
      if n.days.Some? {
        IntLeafRead(NoncurrentDaysEl, n.days.value);
        FoldOne(NoncurrentStep, blank, days[0]);
      }
    }
    assert Fold(NoncurrentStep, one, storage) == Some(NormNoncurrent(n)) by {
      if n.storageClass.Some? {
        FoldOne(NoncurrentStep, one, storage[0]);
      }
    }
    FoldSplit(NoncurrentStep, blank, days, storage);
  }

  lemma {:induction false} DaysRoundTrip(days: Option<int>)
    ensures ParseNoncurrentExpiration(NoncurrentExpirationTree(days)) == Some(days)
    ensures ParseAbort(AbortTree(days)) == Some(days)
  {
    if days.Some? {
      IntLeafRead(NoncurrentDaysEl, days.value);
      IntLeafRead(DaysAfterInitiationEl, days.value);
      FoldOne(NoncurrentExpirationStep, None, Leaf(NoncurrentDaysEl, Decimal.Show(days.value)));
      FoldOne(AbortStep, None, Leaf(DaysAfterInitiationEl, Decimal.Show(days.value)));
    }
  }

  lemma {:induction false} PieceRead(d: Draft, node: Node, piece: Piece)
    requires ParsePiece(node) == Some(piece)
    ensures RuleStep(d, node) == Some(Put(d, piece))
  {
  }

  lemma {:induction false} TransitionPieceIs(node: Node, t: Transition)
    requires node.name == TransitionEl && ParseTransition(node) == Some(t)
    ensures ParsePiece(node) == Some(TransitionPiece(t))
  {
  }

  lemma {:induction false} NoncurrentPieceIs(node: Node, t: Noncurrent)
    requires node.name == NoncurrentTransitionEl && ParseNoncurrent(node) == Some(t)
    ensures ParsePiece(node) == Some(NoncurrentTransitionPiece(t))
  {
  }

  lemma {:induction false} DaysPieceIs(node: Node, days: Option<int>)
    ensures node.name == NoncurrentExpirationEl && ParseNoncurrentExpiration(node) == Some(days) ==>
              ParsePiece(node) == Some(NoncurrentExpirationPiece(days))
    ensures node.name == AbortEl && ParseAbort(node) == Some(days) ==> ParsePiece(node) == Some(AbortPiece(days))
  {
  }

  lemma {:induction false} TransitionRead(d: Draft, t: Transition)
    ensures RuleStep(d, TransitionTree(t)) == Some(d.(transitions := d.transitions + [NormTransition(t)]))
  {
    TransitionRoundTrip(t);
    TransitionPieceIs(TransitionTree(t), NormTransition(t));
    PieceRead(d, TransitionTree(t), TransitionPiece(NormTransition(t)));
  }

  lemma {:induction false} NoncurrentRead(d: Draft, t: Noncurrent)
    ensures RuleStep(d, NoncurrentTree(t)) == Some(d.(noncurrent := d.noncurrent + [NormNoncurrent(t)]))
  {
    NoncurrentRoundTrip(t);
    NoncurrentPieceIs(NoncurrentTree(t), NormNoncurrent(t));
    PieceRead(d, NoncurrentTree(t), NoncurrentTransitionPiece(NormNoncurrent(t)));
  }

  lemma {:induction false} TransitionsRoundTrip(d: Draft, ts: seq<Transition>)
    ensures Fold(RuleStep, d, TransitionTrees(ts)) ==
            Some(d.(transitions := d.transitions + NormTransitions(ts)))
  {
    if ts == [] {
      assert d.transitions + [] == d.transitions;
    } else {
      var n := |ts| - 1;
      var e := d.(transitions := d.transitions + NormTransitions(ts[..n]));
      TransitionsRoundTrip(d, ts[..n]);
      FoldSplit(RuleStep, d, TransitionTrees(ts[..n]), [TransitionTree(ts[n])]);
      FoldOne(RuleStep, e, TransitionTree(ts[n]));
      TransitionRead(e, ts[n]);
      assert NormTransitions(ts) == NormTransitions(ts[..n]) + [NormTransition(ts[n])];
      Regroup(d.transitions, NormTransitions(ts[..n]), [NormTransition(ts[n])]);
    }
  }

  lemma {:induction false} NoncurrentsRoundTrip(d: Draft, ts: seq<Noncurrent>)
    ensures Fold(RuleStep, d, NoncurrentTrees(ts)) ==
            Some(d.(noncurrent := d.noncurrent + NormNoncurrents(ts)))
  {
    if ts == [] {
      assert d.noncurrent + [] == d.noncurrent;
    } else {
      var n := |ts| - 1;
      var e := d.(noncurrent := d.noncurrent + NormNoncurrents(ts[..n]));
      NoncurrentsRoundTrip(d, ts[..n]);
      FoldSplit(RuleStep, d, NoncurrentTrees(ts[..n]), [NoncurrentTree(ts[n])]);
      FoldOne(RuleStep, e, NoncurrentTree(ts[n]));
      NoncurrentRead(e, ts[n]);
      assert NormNoncurrents(ts) == NormNoncurrents(ts[..n]) + [NormNoncurrent(ts[n])];
      Regroup(d.noncurrent, NormNoncurrents(ts[..n]), [NormNoncurrent(ts[n])]);
    }
  }

  /** Reading `more` after `nodes` takes the draft from `before` to `after`. */
  lemma {:induction false} Then(nodes: seq<Node>, more: seq<Node>, before: Draft, after: Draft)
    requires Fold(RuleStep, BLANK, nodes) == Some(before)
    requires Fold(RuleStep, before, more) == Some(after)
    ensures Fold(RuleStep, BLANK, nodes + more) == Some(after)
  {
    FoldSplit(RuleStep, BLANK, nodes, more);
  }

  /** A child that may be absent contributes its piece or nothing. */
  lemma {:induction false} MaybeOne(nodes: seq<Node>, d: Draft, piece: Piece)
    requires nodes == [] || (|nodes| == 1 && ParsePiece(nodes[0]) == Some(piece))
    ensures Fold(RuleStep, d, nodes) == Some(if nodes == [] then d else Put(d, piece))
  {
    if nodes != [] {
      assert nodes == [nodes[0]];
      FoldOne(RuleStep, d, nodes[0]);
    }
  }

  lemma {:induction false} TransitionsThen(c: seq<Node>, d: Draft, ts: seq<Transition>)
    requires Fold(RuleStep, BLANK, c) == Some(d) && d.transitions == []
    ensures Fold(RuleStep, BLANK, c + TransitionTrees(ts)) == Some(d.(transitions := NormTransitions(ts)))
  {
    TransitionsRoundTrip(d, ts);
    assert [] + NormTransitions(ts) == NormTransitions(ts);
    Then(c, TransitionTrees(ts), d, d.(transitions := NormTransitions(ts)));
  }

  lemma {:induction false} NoncurrentsThen(c: seq<Node>, d: Draft, ts: seq<Noncurrent>)
    requires Fold(RuleStep, BLANK, c) == Some(d) && d.noncurrent == []
    ensures Fold(RuleStep, BLANK, c + NoncurrentTrees(ts)) == Some(d.(noncurrent := NormNoncurrents(ts)))
  {
    NoncurrentsRoundTrip(d, ts);
    assert [] + NormNoncurrents(ts) == NormNoncurrents(ts);
    Then(c, NoncurrentTrees(ts), d, d.(noncurrent := NormNoncurrents(ts)));
  }

  lemma {:induction false} NoncurrentExpirationThen(c: seq<Node>, d: Draft, x: Option<Option<int>>)
    requires Fold(RuleStep, BLANK, c) == Some(d) && d.rule.noncurrentExpiration.None?
    ensures Fold(RuleStep, BLANK, c + One(x, NoncurrentExpirationTree))
            == Some(d.(rule := d.rule.(noncurrentExpiration := x)))
  {
    if x.Some? {
      DaysRoundTrip(x.value);
      DaysPieceIs(NoncurrentExpirationTree(x.value), x.value);
    }
    MaybeOne(One(x, NoncurrentExpirationTree), d,
             NoncurrentExpirationPiece(if x.Some? then x.value else None));
    Then(c, One(x, NoncurrentExpirationTree), d, d.(rule := d.rule.(noncurrentExpiration := x)));
  }

  lemma {:induction false} AbortThen(c: seq<Node>, d: Draft, x: Option<Option<int>>)
    requires Fold(RuleStep, BLANK, c) == Some(d) && d.rule.abort.None?
    ensures Fold(RuleStep, BLANK, c + One(x, AbortTree)) == Some(d.(rule := d.rule.(abort := x)))
  {
    if x.Some? {
      DaysRoundTrip(x.value);
      DaysPieceIs(AbortTree(x.value), x.value);
    }
    MaybeOne(One(x, AbortTree), d, AbortPiece(if x.Some? then x.value else None));
    Then(c, One(x, AbortTree), d, d.(rule := d.rule.(abort := x)));
  }

  lemma {:induction false} FilterThen(c: seq<Node>, d: Draft, x: Option<Filter>)
    requires Fold(RuleStep, BLANK, c) == Some(d) && d.rule.filter.None?
    ensures Fold(RuleStep, BLANK, c + One(x, FilterTree))
            == Some(d.(rule := d.rule.(filter := if x.None? then None else Some(NormFilter(x.value)))))
  {
    if x.Some? {
      FilterRoundTrip(x.value);
    }
    MaybeOne(One(x, FilterTree), d,
             FilterPiece(if x.Some? then NormFilter(x.value) else Filter(None, None, None)));
    Then(c, One(x, FilterTree), d,
         d.(rule := d.rule.(filter := if x.None? then None else Some(NormFilter(x.value)))));
  }

  lemma {:induction false} ExpirationThen(c: seq<Node>, d: Draft, x: Option<Expiration>)
    requires Fold(RuleStep, BLANK, c) == Some(d) && d.rule.expiration.None?
    ensures Fold(RuleStep, BLANK, c + One(x, ExpirationTree))
            == Some(d.(rule := d.rule.(expiration := if x.None? then None else Some(NormExpiration(x.value)))))
  {
    if x.Some? {
      ExpirationRoundTrip(x.value);
    }
    MaybeOne(One(x, ExpirationTree), d,
             ExpirationPiece(if x.Some? then NormExpiration(x.value) else Expiration(None, None, None)));
    Then(c, One(x, ExpirationTree), d,
         d.(rule := d.rule.(expiration := if x.None? then None else Some(NormExpiration(x.value)))));
  }

  lemma {:induction false} LeavesThen(r: Rule)
    ensures Fold(RuleStep, BLANK,
              TextLeaf(IdEl, r.id) + StringLeaf(PrefixEl, r.prefix) + TextLeaf(StatusEl, r.status))
            == Some(BLANK.(rule := BLANK_RULE.(id := NormOption(r.id), prefix := r.prefix,
                                               status := NormOption(r.status))))
  {
    var i, p, t := TextLeaf(IdEl, r.id), StringLeaf(PrefixEl, r.prefix), TextLeaf(StatusEl, r.status);
    var d1 := BLANK.(rule := BLANK_RULE.(id := NormOption(r.id)));
    var d2 := d1.(rule := d1.rule.(prefix := r.prefix));
    MaybeOne(i, BLANK, IdPiece(if r.id.None? then NoText else NormText(r.id.value)));
    MaybeOne(p, d1, PrefixPiece(if r.prefix.None? then "" else r.prefix.value));
    Then(i, p, d1, d2);
    MaybeOne(t, d2, StatusPiece(if r.status.None? then NoText else NormText(r.status.value)));
    Then(i + p, t, d2, d2.(rule := d2.rule.(status := NormOption(r.status))));
  }

  lemma {:induction false} RuleRoundTrip(r: Rule)
    ensures ParseRule(RuleTree(r)) == Some(NormRule(r))
  {
    var n := NormRule(r);
    LeavesThen(r);
    var c := TextLeaf(IdEl, r.id) + StringLeaf(PrefixEl, r.prefix) + TextLeaf(StatusEl, r.status);
    var d := BLANK.(rule := BLANK_RULE.(id := n.id, prefix := n.prefix, status := n.status));
    FilterThen(c, d, r.filter);
    c, d := c + One(r.filter, FilterTree), d.(rule := d.rule.(filter := n.filter));
    ExpirationThen(c, d, r.expiration);
    c, d := c + One(r.expiration, ExpirationTree), d.(rule := d.rule.(expiration := n.expiration));
    TransitionsThen(c, d, ListOf(r.transitions));
    c := c + TransitionTrees(ListOf(r.transitions));
    d := d.(transitions := NormTransitions(ListOf(r.transitions)));
    NoncurrentExpirationThen(c, d, r.noncurrentExpiration);
    c := c + One(r.noncurrentExpiration, NoncurrentExpirationTree);
    d := d.(rule := d.rule.(noncurrentExpiration := r.noncurrentExpiration));
    NoncurrentsThen(c, d, ListOf(r.noncurrentTransitions));
    c := c + NoncurrentTrees(ListOf(r.noncurrentTransitions));
    d := d.(noncurrent := NormNoncurrents(ListOf(r.noncurrentTransitions)));
    AbortThen(c, d, r.abort);
  }

  lemma {:induction false} RuleAppended(acc: seq<Rule>, r: Rule)
    ensures ConfigStep(acc, RuleTree(r)) == Some(acc + [NormRule(r)])
  {
    RuleRoundTrip(r);
  }

  function NormRules(rules: seq<Rule>): (ns: seq<Rule>)
    ensures |ns| == |rules|
    ensures forall i :: 0 <= i < |rules| ==> ns[i] == NormRule(rules[i])
  {
    seq(|rules|, i requires 0 <= i < |rules| => NormRule(rules[i]))
  }

  lemma {:induction false} NormRulesLast(rules: seq<Rule>)
    requires rules != []
    ensures var n := |rules| - 1; NormRules(rules) == NormRules(rules[..n]) + [NormRule(rules[n])]
  {
  }

  /** One more rule element behind rules already parsed. */
  lemma {:induction false} RulesThen(nodes: seq<Node>, acc: seq<Rule>, r: Rule)
    requires Fold(ConfigStep, [], nodes) == Some(acc)
    ensures Fold(ConfigStep, [], nodes + [RuleTree(r)]) == Some(acc + [NormRule(r)])
  {
    FoldSplit(ConfigStep, [], nodes, [RuleTree(r)]);
    FoldOne(ConfigStep, acc, RuleTree(r));
    RuleAppended(acc, r);
  }

  lemma {:induction false} RulesRoundTrip(rules: seq<Rule>)
    ensures Fold(ConfigStep, [], RuleTrees(rules)) == Some(NormRules(rules))
  {
    if rules != [] {
      var n := |rules| - 1;
      RulesRoundTrip(rules[..n]);
      RulesThen(RuleTrees(rules[..n]), NormRules(rules[..n]), rules[n]);
      NormRulesLast(rules);
    }
  }

  // ---------------------------------------------------------------- well-formed configurations

  predicate GoodText(o: Option<Text>) {
    o.Some? ==> o.value.Str? && o.value.s != ""
  }

  predicate GoodList<T>(o: Option<seq<T>>) {
    o.Some? ==> o.value != []
  }

  predicate GoodFilter(f: Filter) {
    && (f.prefix.Some? ==> f.tag.None? && f.conj.None?)
    && (f.conj.Some? ==> f.tag.None? && GoodList(f.conj.value.tags))
  }

  predicate GoodRule(r: Rule) {
    && GoodText(r.id) && GoodText(r.status)
    && (r.filter.Some? ==> GoodFilter(r.filter.value))
    && (r.expiration.Some? ==> GoodText(r.expiration.value.date))
    && GoodList(r.transitions)
    && (forall i :: 0 <= i < |ListOf(r.transitions)| ==>
          GoodText(ListOf(r.transitions)[i].date) && GoodText(ListOf(r.transitions)[i].storageClass))
    && GoodList(r.noncurrentTransitions)
    && (forall i :: 0 <= i < |ListOf(r.noncurrentTransitions)| ==>
          GoodText(ListOf(r.noncurrentTransitions)[i].storageClass))
  }

  lemma {:induction false} Pointwise<T>(a: seq<T>, b: seq<T>)
    requires |a| == |b|
    ensures a == b <==> forall i :: 0 <= i < |a| ==> a[i] == b[i]
  {
  }

  lemma {:induction false} NormTransitionsIff(o: Option<seq<Transition>>)
    ensures NormList(Some(NormTransitions(ListOf(o)))) == o <==>
            && GoodList(o)
            && forall i :: 0 <= i < |ListOf(o)| ==>
                 GoodText(ListOf(o)[i].date) && GoodText(ListOf(o)[i].storageClass)
  {
    Pointwise(NormTransitions(ListOf(o)), ListOf(o));
  }

  lemma {:induction false} NormNoncurrentsIff(o: Option<seq<Noncurrent>>)
    ensures NormList(Some(NormNoncurrents(ListOf(o)))) == o <==>
            && GoodList(o)
            && forall i :: 0 <= i < |ListOf(o)| ==> GoodText(ListOf(o)[i].storageClass)
  {
    Pointwise(NormNoncurrents(ListOf(o)), ListOf(o));
  }

  lemma {:induction false} NormRuleIff(r: Rule)
    ensures NormRule(r) == r <==> GoodRule(r)
  {
    NormTransitionsIff(r.transitions);
    NormNoncurrentsIff(r.noncurrentTransitions);
    assert r.filter.Some? ==> (NormFilter(r.filter.value) == r.filter.value <==> GoodFilter(r.filter.value));
  }

  /** Printing and parsing gives every configuration back normalised, and gives it back unchanged
      if and only if it is well formed: one form per filter, no empty or missing texts, no empty
      lists. */
  lemma {:induction false} LifecycleRoundTrip(rules: seq<Rule>)
    ensures ParseConfig(ConfigTree(rules)) == Some(NormRules(rules))
    ensures ParseConfig(ConfigTree(rules)) == Some(rules)
            <==> forall i :: 0 <= i < |rules| ==> GoodRule(rules[i])
  {
    RulesRoundTrip(rules);
    NormRulesIff(rules);
  }

  lemma {:induction false} NormRulesIff(rules: seq<Rule>)
    ensures NormRules(rules) == rules <==> forall i :: 0 <= i < |rules| ==> GoodRule(rules[i])
  {
    Pointwise(NormRules(rules), rules);
    forall i | 0 <= i < |rules| ensures NormRules(rules)[i] == rules[i] <==> GoodRule(rules[i]) {
      NormRuleIff(rules[i]);
    }
  }

  /** Print a configuration, read the printed parts back and parse the tree they spell: every
      configuration comes back normalised, and a well-formed one unchanged. */
  method PrintAndParse(rules: seq<Rule>) returns (back: Option<seq<Rule>>)
    ensures back == Some(NormRules(rules))
    ensures back == Some(rules) <==> forall i :: 0 <= i < |rules| ==> GoodRule(rules[i])
  {
    var parts := PrintLifecycleConfiguration(rules);
    var read := ReadNodes(parts);
    LifecycleRoundTrip(rules);
    back := ParseLifecycleConfiguration(read.value.0[0]);
  }
}
