/**
 The lifecycle configuration printer and parser.  The printer emits a flat list of parts; those
 parts are the token form of an element tree; the parser walks the tree.  Names are taken without
 their namespace, as the parser cleans them.
 */
module Lifecycle {
  import opened Common
  import Decimal

  // ---------------------------------------------------------------- configurations

  /** A Python value that is a string or None. */
  datatype Text = NoText | Str(s: string)

  datatype Tag = Tag(key: string, value: string)

  datatype And = And(prefix: Option<string>, tags: Option<seq<Tag>>)

  datatype Filter = Filter(prefix: Option<string>, tag: Option<Tag>, conj: Option<And>)

  datatype Expiration = Expiration(days: Option<int>, date: Option<Text>, marker: Option<bool>)

  datatype Transition = Transition(days: Option<int>, date: Option<Text>, storageClass: Option<Text>)

  datatype Noncurrent = Noncurrent(days: Option<int>, storageClass: Option<Text>)

  /** A rule; every key of the dictionary may be absent. */
  datatype Rule = Rule(
    id: Option<Text>,
    prefix: Option<string>,
    status: Option<Text>,
    filter: Option<Filter>,
    expiration: Option<Expiration>,
    transitions: Option<seq<Transition>>,
    noncurrentExpiration: Option<Option<int>>,
    noncurrentTransitions: Option<seq<Noncurrent>>,
    abort: Option<Option<int>>)

  // ---------------------------------------------------------------- element trees and parts

  datatype Name =
    | LifecycleConfigurationEl | RuleEl | IdEl | PrefixEl | StatusEl | FilterEl | AndEl | TagEl
    | KeyEl | ValueEl | ExpirationEl | DaysEl | DateEl | MarkerEl | TransitionEl | StorageClassEl
    | NoncurrentExpirationEl | NoncurrentDaysEl | NoncurrentTransitionEl | AbortEl
    | DaysAfterInitiationEl | OtherEl(name: string)

  datatype Node = Leaf(name: Name, text: string) | Element(name: Name, children: seq<Node>)

  datatype Token = Open(name: Name) | Line(name: Name, text: string) | Close(name: Name)

  function Tokens(node: Node): seq<Token> {
    match node
    case Leaf(name, text) => [Line(name, text)]
    case Element(name, children) => [Open(name)] + AllTokens(children) + [Close(name)]
  }

  function AllTokens(nodes: seq<Node>): seq<Token> {
    if nodes == [] then [] else Tokens(nodes[0]) + AllTokens(nodes[1..])
  }

  /** Read sibling elements until a closing part or the end. */
  function ReadNodes(ts: seq<Token>): (r: Option<(seq<Node>, seq<Token>)>)
    ensures r.Some? ==> |r.value.1| <= |ts|
    decreases |ts|
  {
    if ts == [] || ts[0].Close? then Some(([], ts))
    else if ts[0].Line? then
      var r := ReadNodes(ts[1..]);
      if r.None? then None else Some(([Leaf(ts[0].name, ts[0].text)] + r.value.0, r.value.1))
    else
      var inner := ReadNodes(ts[1..]);
      if inner.None? || inner.value.1 == [] || inner.value.1[0] != Close(ts[0].name) then None
      else
        var r := ReadNodes(inner.value.1[1..]);
        if r.None? then None
        else Some(([Element(ts[0].name, inner.value.0)] + r.value.0, r.value.1))
  }

  lemma {:induction false} ReadLine(name: Name, text: string, tail: seq<Token>)
    ensures var r := ReadNodes(tail);
            ReadNodes([Line(name, text)] + tail) ==
            if r.None? then None else Some(([Leaf(name, text)] + r.value.0, r.value.1))
  {
    assert ([Line(name, text)] + tail)[1..] == tail;
  }

  lemma {:induction false} ReadElement(name: Name, children: seq<Node>, inner: seq<Token>, tail: seq<Token>)
    requires ReadNodes(inner) == Some((children, [Close(name)] + tail))
    ensures var r := ReadNodes(tail);
            ReadNodes([Open(name)] + inner) ==
            if r.None? then None else Some(([Element(name, children)] + r.value.0, r.value.1))
  {
    assert ([Open(name)] + inner)[1..] == inner;
    assert ([Close(name)] + tail)[1..] == tail;
  }

  lemma {:induction false} ElementTokens(name: Name, children: seq<Node>, tail: seq<Token>)
    ensures Tokens(Element(name, children)) + tail ==
            [Open(name)] + (AllTokens(children) + ([Close(name)] + tail))
  {
  }

  /** Reading the parts of a tree gives the tree back. */
  lemma {:induction false} ReadAllTokens(nodes: seq<Node>, rest: seq<Token>)
    requires rest == [] || rest[0].Close?
    ensures ReadNodes(AllTokens(nodes) + rest) == Some((nodes, rest))
    decreases nodes
  {
    if nodes == [] {
      assert AllTokens(nodes) + rest == rest;
    } else {
      var node, tail := nodes[0], AllTokens(nodes[1..]) + rest;
      ReadAllTokens(nodes[1..], rest);
      assert AllTokens(nodes) + rest == Tokens(node) + tail;
      assert [node] + nodes[1..] == nodes;
      match node
      case Leaf(name, text) => ReadLine(name, text, tail);
      case Element(name, children) =>
        ReadAllTokens(children, [Close(name)] + tail);
        ElementTokens(name, children, tail);
        ReadElement(name, children, AllTokens(children) + ([Close(name)] + tail), tail);
    }
  }

  // ---------------------------------------------------------------- printing

  /** The text an f-string makes of the value. */
  function Shown(t: Text): string {
    match t
    case NoText => "None"
    case Str(s) => s
  }

  function TextLeaf(name: Name, value: Option<Text>): seq<Node> {
    if value.None? then [] else [Leaf(name, Shown(value.value))]
  }

  function StringLeaf(name: Name, value: Option<string>): seq<Node> {
    if value.None? then [] else [Leaf(name, value.value)]
  }

  function IntLeaf(name: Name, value: Option<int>): seq<Node> {
    if value.None? then [] else [Leaf(name, Decimal.Show(value.value))]
  }

  function BoolLeaf(name: Name, value: Option<bool>): seq<Node> {
    if value.None? then [] else [Leaf(name, if value.value then "true" else "false")]
  }

  function TagTree(tag: Tag): Node {
    Element(TagEl, [Leaf(KeyEl, tag.key), Leaf(ValueEl, tag.value)])
  }

  function TagTrees(tags: seq<Tag>): (nodes: seq<Node>)
    ensures |nodes| == |tags|
  {
    if tags == [] then [] else TagTrees(tags[..|tags| - 1]) + [TagTree(tags[|tags| - 1])]
  }

  function ListOf<T>(value: Option<seq<T>>): seq<T> {
    if value.None? then [] else value.value
  }

  function AndTree(a: And): Node {
    Element(AndEl, StringLeaf(PrefixEl, a.prefix) + TagTrees(ListOf(a.tags)))
  }

  function FilterTree(f: Filter): Node {
    Element(FilterEl,
      if f.prefix.Some? then [Leaf(PrefixEl, f.prefix.value)]
      else if f.conj.Some? then [AndTree(f.conj.value)]
      else if f.tag.Some? then [TagTree(f.tag.value)]
      else [])
  }

  function ExpirationTree(e: Expiration): Node {
    Element(ExpirationEl, IntLeaf(DaysEl, e.days) + TextLeaf(DateEl, e.date) + BoolLeaf(MarkerEl, e.marker))
  }

  function TransitionTree(t: Transition): Node {
    Element(TransitionEl,
      IntLeaf(DaysEl, t.days) + TextLeaf(DateEl, t.date) + TextLeaf(StorageClassEl, t.storageClass))
  }

  function TransitionTrees(ts: seq<Transition>): (nodes: seq<Node>)
    ensures |nodes| == |ts|
  {
    if ts == [] then [] else TransitionTrees(ts[..|ts| - 1]) + [TransitionTree(ts[|ts| - 1])]
  }

  function NoncurrentTree(t: Noncurrent): Node {
    Element(NoncurrentTransitionEl,
      IntLeaf(NoncurrentDaysEl, t.days) + TextLeaf(StorageClassEl, t.storageClass))
  }

  function NoncurrentTrees(ts: seq<Noncurrent>): (nodes: seq<Node>)
    ensures |nodes| == |ts|
  {
    if ts == [] then [] else NoncurrentTrees(ts[..|ts| - 1]) + [NoncurrentTree(ts[|ts| - 1])]
  }

  function NoncurrentExpirationTree(days: Option<int>): Node {
    Element(NoncurrentExpirationEl, IntLeaf(NoncurrentDaysEl, days))
  }

  function AbortTree(days: Option<int>): Node {
    Element(AbortEl, IntLeaf(DaysAfterInitiationEl, days))
  }

  function One<T>(value: Option<T>, tree: T -> Node): seq<Node> {
    if value.None? then [] else [tree(value.value)]
  }

  function RuleChildren(r: Rule): seq<Node> {
    TextLeaf(IdEl, r.id)
    + StringLeaf(PrefixEl, r.prefix)
    + TextLeaf(StatusEl, r.status)
    + One(r.filter, FilterTree)
    + One(r.expiration, ExpirationTree)
    + TransitionTrees(ListOf(r.transitions))
    + One(r.noncurrentExpiration, NoncurrentExpirationTree)
    + NoncurrentTrees(ListOf(r.noncurrentTransitions))
    + One(r.abort, AbortTree)
  }

  function RuleTree(r: Rule): Node {
    Element(RuleEl, RuleChildren(r))
  }

  function RuleTrees(rules: seq<Rule>): (nodes: seq<Node>)
    ensures |nodes| == |rules|
  {
    if rules == [] then [] else RuleTrees(rules[..|rules| - 1]) + [RuleTree(rules[|rules| - 1])]
  }

  function ConfigTree(rules: seq<Rule>): Node {
    Element(LifecycleConfigurationEl, RuleTrees(rules))
  }

  // ---------------------------------------------------------------- the printer

  lemma {:induction false} AllTokensSplit(a: seq<Node>, b: seq<Node>)
    ensures AllTokens(a + b) == AllTokens(a) + AllTokens(b)
  {
    if a == [] {
      assert a + b == b;
    } else {
      AllTokensSplit(a[1..], b);
      assert (a + b)[1..] == a[1..] + b && (a + b)[0] == a[0];
      Regroup(Tokens(a[0]), AllTokens(a[1..]), AllTokens(b));
    }
  }

  lemma {:induction false} OneToken(node: Node)
    ensures AllTokens([node]) == Tokens(node)
  {
    assert [node][1..] == [];
  }

  /** `parts` is an opening part followed by the parts of `nodes`. */
  predicate Opened(parts: seq<Token>, name: Name, nodes: seq<Node>) {
    parts == [Open(name)] + AllTokens(nodes)
  }

  lemma {:induction false} Extend(parts: seq<Token>, name: Name, nodes: seq<Node>, more: seq<Node>)
    requires Opened(parts, name, nodes)
    ensures Opened(parts + AllTokens(more), name, nodes + more)
  {
    AllTokensSplit(nodes, more);
    Regroup([Open(name)], AllTokens(nodes), AllTokens(more));
  }

  /** Append the parts of at most one element. */
  method Append(parts: seq<Token>, ghost name: Name, ghost nodes: seq<Node>, present: bool,
                part: seq<Token>, ghost more: seq<Node>)
      returns (r: seq<Token>, ghost grown: seq<Node>)
    requires Opened(parts, name, nodes)
    requires if present then |more| == 1 && part == Tokens(more[0]) else more == []
    ensures grown == nodes + more && Opened(r, name, grown)
  {
    Extend(parts, name, nodes, more);
    grown := nodes + more;
    if present {
      r := parts + part;
      assert more == [more[0]];
      OneToken(more[0]);
    } else {
      r := parts;
      assert parts + [] == parts;
    }
  }

  function TextPart(name: Name, value: Option<Text>): seq<Token> {
    if value.None? then [] else [Line(name, Shown(value.value))]
  }

  function IntPart(name: Name, value: Option<int>): seq<Token> {
    if value.None? then [] else [Line(name, Decimal.Show(value.value))]
  }

  method PrintTag(tag: Tag) returns (parts: seq<Token>)
    ensures parts == Tokens(TagTree(tag))
  {
    parts := [Open(TagEl), Line(KeyEl, tag.key), Line(ValueEl, tag.value), Close(TagEl)];
    var key, value := Leaf(KeyEl, tag.key), Leaf(ValueEl, tag.value);
    assert AllTokens([key, value]) == Tokens(key) + AllTokens([value]) by { assert [key, value][1..] == [value]; }
    OneToken(value);
  }

  method PrintAnd(a: And) returns (parts: seq<Token>)
    ensures parts == Tokens(AndTree(a))
  {
    parts := [Open(AndEl)];
    ghost var nodes: seq<Node> := [];
    parts, nodes := Append(parts, AndEl, nodes, a.prefix.Some?,
                           if a.prefix.Some? then [Line(PrefixEl, a.prefix.value)] else [],
                           StringLeaf(PrefixEl, a.prefix));
    parts, nodes := PrintTags(ListOf(a.tags), parts, nodes);
    assert nodes == AndTree(a).children;
    parts := parts + [Close(AndEl)];
  }

  method PrintTags(tags: seq<Tag>, before: seq<Token>, ghost base: seq<Node>)
      returns (parts: seq<Token>, ghost nodes: seq<Node>)
    requires Opened(before, AndEl, base)
    ensures nodes == base + TagTrees(tags) && Opened(parts, AndEl, nodes)
  {
    parts, nodes := before, base;
    for i := 0 to |tags|
      invariant nodes == base + TagTrees(tags[..i]) && Opened(parts, AndEl, nodes)
    {
      var part := PrintTag(tags[i]);
      parts, nodes := Append(parts, AndEl, nodes, true, part, [TagTree(tags[i])]);
      assert tags[..i + 1][..i] == tags[..i];
      Regroup(base, TagTrees(tags[..i]), [TagTree(tags[i])]);
    }
    assert tags[..|tags|] == tags;
  }

  method PrintFilter(f: Filter) returns (parts: seq<Token>)
    ensures parts == Tokens(FilterTree(f))
  {
    parts := [Open(FilterEl)];
    ghost var nodes: seq<Node> := [];
    var part;
    if f.prefix.Some? {
      part := [Line(PrefixEl, f.prefix.value)];
    } else if f.conj.Some? {
      part := PrintAnd(f.conj.value);
    } else if f.tag.Some? {
      part := PrintTag(f.tag.value);
    } else {
      part := [];
    }
    parts, nodes := Append(parts, FilterEl, nodes, f.prefix.Some? || f.conj.Some? || f.tag.Some?,
                           part, FilterTree(f).children);
    assert nodes == FilterTree(f).children;
    parts := parts + [Close(FilterEl)];
  }

  method PrintExpiration(e: Expiration) returns (parts: seq<Token>)
    ensures parts == Tokens(ExpirationTree(e))
  {
    parts := [Open(ExpirationEl)];
    ghost var nodes: seq<Node> := [];
    parts, nodes := Append(parts, ExpirationEl, nodes, e.days.Some?, IntPart(DaysEl, e.days), IntLeaf(DaysEl, e.days));
    parts, nodes := Append(parts, ExpirationEl, nodes, e.date.Some?, TextPart(DateEl, e.date), TextLeaf(DateEl, e.date));
    parts, nodes := Append(parts, ExpirationEl, nodes, e.marker.Some?,
                           if e.marker.None? then [] else [Line(MarkerEl, if e.marker.value then "true" else "false")],
                           BoolLeaf(MarkerEl, e.marker));
    assert nodes == ExpirationTree(e).children;
    parts := parts + [Close(ExpirationEl)];
  }

  method PrintTransition(t: Transition) returns (parts: seq<Token>)
    ensures parts == Tokens(TransitionTree(t))
  {
    parts := [Open(TransitionEl)];
    ghost var nodes: seq<Node> := [];
    parts, nodes := Append(parts, TransitionEl, nodes, t.days.Some?, IntPart(DaysEl, t.days), IntLeaf(DaysEl, t.days));
    parts, nodes := Append(parts, TransitionEl, nodes, t.date.Some?, TextPart(DateEl, t.date), TextLeaf(DateEl, t.date));
    parts, nodes := Append(parts, TransitionEl, nodes, t.storageClass.Some?,
                           TextPart(StorageClassEl, t.storageClass), TextLeaf(StorageClassEl, t.storageClass));
    assert nodes == TransitionTree(t).children;
    parts := parts + [Close(TransitionEl)];
  }

  method PrintNoncurrent(t: Noncurrent) returns (parts: seq<Token>)
    ensures parts == Tokens(NoncurrentTree(t))
  {
    parts := [Open(NoncurrentTransitionEl)];
    ghost var nodes: seq<Node> := [];
    parts, nodes := Append(parts, NoncurrentTransitionEl, nodes, t.days.Some?,
                           IntPart(NoncurrentDaysEl, t.days), IntLeaf(NoncurrentDaysEl, t.days));
    parts, nodes := Append(parts, NoncurrentTransitionEl, nodes, t.storageClass.Some?,
                           TextPart(StorageClassEl, t.storageClass), TextLeaf(StorageClassEl, t.storageClass));
    assert nodes == NoncurrentTree(t).children;
    parts := parts + [Close(NoncurrentTransitionEl)];
  }

  method PrintDays(outer: Name, inner: Name, days: Option<int>) returns (parts: seq<Token>)
    ensures parts == Tokens(Element(outer, IntLeaf(inner, days)))
  {
    parts := [Open(outer)];
    ghost var nodes: seq<Node> := [];
    parts, nodes := Append(parts, outer, nodes, days.Some?, IntPart(inner, days), IntLeaf(inner, days));
    assert nodes == IntLeaf(inner, days);
    parts := parts + [Close(outer)];
  }

  /** The first part of a rule, up to and with its expiration. */
  method PrintRuleHead(r: Rule) returns (parts: seq<Token>, ghost nodes: seq<Node>)
    ensures nodes == TextLeaf(IdEl, r.id) + StringLeaf(PrefixEl, r.prefix) + TextLeaf(StatusEl, r.status)
                     + One(r.filter, FilterTree) + One(r.expiration, ExpirationTree)
    ensures Opened(parts, RuleEl, nodes)
  {
    parts, nodes := [Open(RuleEl)], [];
    var part := [];
    parts, nodes := Append(parts, RuleEl, nodes, r.id.Some?, TextPart(IdEl, r.id), TextLeaf(IdEl, r.id));
    parts, nodes := Append(parts, RuleEl, nodes, r.prefix.Some?,
                           if r.prefix.Some? then [Line(PrefixEl, r.prefix.value)] else [],
                           StringLeaf(PrefixEl, r.prefix));
    parts, nodes := Append(parts, RuleEl, nodes, r.status.Some?, TextPart(StatusEl, r.status), TextLeaf(StatusEl, r.status));
    if r.filter.Some? {
      part := PrintFilter(r.filter.value);
    }
    parts, nodes := Append(parts, RuleEl, nodes, r.filter.Some?, part, One(r.filter, FilterTree));
    if r.expiration.Some? {
      part := PrintExpiration(r.expiration.value);
    }
    parts, nodes := Append(parts, RuleEl, nodes, r.expiration.Some?, part, One(r.expiration, ExpirationTree));
    assert [] + TextLeaf(IdEl, r.id) == TextLeaf(IdEl, r.id);
  }

  method PrintRule(r: Rule) returns (parts: seq<Token>)
    ensures parts == Tokens(RuleTree(r))
  {
    ghost var nodes: seq<Node>;
    var part := [];
    parts, nodes := PrintRuleHead(r);
    parts, nodes := PrintTransitions(ListOf(r.transitions), parts, nodes);
    if r.noncurrentExpiration.Some? {
      part := PrintDays(NoncurrentExpirationEl, NoncurrentDaysEl, r.noncurrentExpiration.value);
    }
    parts, nodes := Append(parts, RuleEl, nodes, r.noncurrentExpiration.Some?, part,
                           One(r.noncurrentExpiration, NoncurrentExpirationTree));
    parts, nodes := PrintNoncurrents(ListOf(r.noncurrentTransitions), parts, nodes);
    if r.abort.Some? {
      part := PrintDays(AbortEl, DaysAfterInitiationEl, r.abort.value);
    }
    parts, nodes := Append(parts, RuleEl, nodes, r.abort.Some?, part, One(r.abort, AbortTree));
    parts := parts + [Close(RuleEl)];
  }

  method PrintTransitions(ts: seq<Transition>, before: seq<Token>, ghost base: seq<Node>)
      returns (parts: seq<Token>, ghost nodes: seq<Node>)
    requires Opened(before, RuleEl, base)
    ensures nodes == base + TransitionTrees(ts) && Opened(parts, RuleEl, nodes)
  {
    parts, nodes := before, base;
    for i := 0 to |ts|
      invariant nodes == base + TransitionTrees(ts[..i]) && Opened(parts, RuleEl, nodes)
    {
      var part := PrintTransition(ts[i]);
      parts, nodes := Append(parts, RuleEl, nodes, true, part, [TransitionTree(ts[i])]);
      assert ts[..i + 1][..i] == ts[..i];
      Regroup(base, TransitionTrees(ts[..i]), [TransitionTree(ts[i])]);
    }
    assert ts[..|ts|] == ts;
  }

  method PrintNoncurrents(ts: seq<Noncurrent>, before: seq<Token>, ghost base: seq<Node>)
      returns (parts: seq<Token>, ghost nodes: seq<Node>)
    requires Opened(before, RuleEl, base)
    ensures nodes == base + NoncurrentTrees(ts) && Opened(parts, RuleEl, nodes)
  {
    parts, nodes := before, base;
    for i := 0 to |ts|
      invariant nodes == base + NoncurrentTrees(ts[..i]) && Opened(parts, RuleEl, nodes)
    {
      var part := PrintNoncurrent(ts[i]);
      parts, nodes := Append(parts, RuleEl, nodes, true, part, [NoncurrentTree(ts[i])]);
      assert ts[..i + 1][..i] == ts[..i];
      Regroup(base, NoncurrentTrees(ts[..i]), [NoncurrentTree(ts[i])]);
    }
    assert ts[..|ts|] == ts;
  }

  /** The printed parts are well nested: they read back as the configuration's element tree. */
  method PrintLifecycleConfiguration(rules: seq<Rule>) returns (parts: seq<Token>)
    ensures parts == Tokens(ConfigTree(rules))
    ensures ReadNodes(parts) == Some(([ConfigTree(rules)], []))
  {
    parts := [Open(LifecycleConfigurationEl)];
    ghost var nodes: seq<Node> := [];
    for i := 0 to |rules|
      invariant nodes == RuleTrees(rules[..i]) && Opened(parts, LifecycleConfigurationEl, nodes)
    {
      var part := PrintRule(rules[i]);
      parts, nodes := Append(parts, LifecycleConfigurationEl, nodes, true, part, [RuleTree(rules[i])]);
      assert rules[..i + 1][..i] == rules[..i];
    }
    assert rules[..|rules|] == rules;
    parts := parts + [Close(LifecycleConfigurationEl)];
    OneToken(ConfigTree(rules));
    assert AllTokens([ConfigTree(rules)]) + [] == parts;
    ReadAllTokens([ConfigTree(rules)], []);
  }

  // ---------------------------------------------------------------- parsing

  /** One loop over child elements that updates an accumulator and may raise. */
  function Fold<A>(step: (A, Node) -> Option<A>, init: A, nodes: seq<Node>): Option<A> {
    if nodes == [] then Some(init)
    else
      var first := step(init, nodes[0]);
      if first.None? then None else Fold(step, first.value, nodes[1..])
  }

  method FoldLoop<A>(step: (A, Node) -> Option<A>, init: A, nodes: seq<Node>) returns (r: Option<A>)
    ensures r == Fold(step, init, nodes)
  {
    var acc := init;
    for i := 0 to |nodes|
      invariant Fold(step, init, nodes) == Fold(step, acc, nodes[i..])
    {
      var next := step(acc, nodes[i]);
      assert nodes[i..][1..] == nodes[i + 1..];
      if next.None? {
        return None;
      }
      acc := next.value;
    }
    r := Some(acc);
  }

  /** The `text` attribute of an element: None when there is none. */
  function TextOf(node: Node): Text {
    if node.Leaf? && node.text != "" then Str(node.text) else NoText
  }

  function StringOf(node: Node): string {
    if node.Leaf? then node.text else ""
  }

  function ChildrenOf(node: Node): seq<Node> {
    if node.Leaf? then [] else node.children
  }

  /** int(text or 0) */
  function IntOf(node: Node): Option<int> {
    var t := TextOf(node);
    if t.NoText? then Some(0) else Decimal.Read(t.s)
  }

  function LowerChar(c: char): char {
    if 'A' <= c <= 'Z' then (c as int + 32) as char else c
  }

  function Lower(s: string): (t: string)
    ensures |t| == |s|
    ensures forall i :: 0 <= i < |s| ==> t[i] == LowerChar(s[i])
  {
    seq(|s|, i requires 0 <= i < |s| => LowerChar(s[i]))
  }

  function TagStep(acc: Tag, node: Node): Option<Tag> {
    Some(match node.name
         case KeyEl => acc.(key := StringOf(node))
         case ValueEl => acc.(value := StringOf(node))
         case _ => acc)
  }

  function ParseTag(node: Node): Option<Tag> {
    Fold(TagStep, Tag("", ""), ChildrenOf(node))
  }

  /** The accumulator of an And element keeps its tags as a plain list. */
  function AndStep(acc: (Option<string>, seq<Tag>), node: Node): Option<(Option<string>, seq<Tag>)> {
    match node.name
    case PrefixEl => Some((Some(StringOf(node)), acc.1))
    case TagEl =>
      var tag := ParseTag(node);
      if tag.None? then None else Some((acc.0, acc.1 + [tag.value]))
    case _ => Some(acc)
  }

  function ParseAnd(node: Node): Option<And> {
    var r := Fold(AndStep, (None, []), ChildrenOf(node));
    if r.None? then None else Some(And(r.value.0, if r.value.1 == [] then None else Some(r.value.1)))
  }

  function FilterStep(acc: Filter, node: Node): Option<Filter> {
    match node.name
    case PrefixEl => Some(acc.(prefix := Some(StringOf(node))))
    case TagEl =>
      var tag := ParseTag(node);
      if tag.None? then None else Some(acc.(tag := tag))
    case AndEl =>
      var conj := ParseAnd(node);
      if conj.None? then None else Some(acc.(conj := conj))
    case _ => Some(acc)
  }

  function ParseFilter(node: Node): Option<Filter> {
    Fold(FilterStep, Filter(None, None, None), ChildrenOf(node))
  }

  function ExpirationStep(acc: Expiration, node: Node): Option<Expiration> {
    match node.name
    case DaysEl =>
      var n := IntOf(node);
      if n.None? then None else Some(acc.(days := n))
    case DateEl => Some(acc.(date := Some(TextOf(node))))
    case MarkerEl => Some(acc.(marker := Some(Lower(StringOf(node)) == "true")))
    case _ => Some(acc)
  }

  function ParseExpiration(node: Node): Option<Expiration> {
    Fold(ExpirationStep, Expiration(None, None, None), ChildrenOf(node))
  }

  function TransitionStep(acc: Transition, node: Node): Option<Transition> {
    match node.name
    case DaysEl =>
      var n := IntOf(node);
      if n.None? then None else Some(acc.(days := n))
    case DateEl => Some(acc.(date := Some(TextOf(node))))
    case StorageClassEl => Some(acc.(storageClass := Some(TextOf(node))))
    case _ => Some(acc)
  }

  function ParseTransition(node: Node): Option<Transition> {
    Fold(TransitionStep, Transition(None, None, None), ChildrenOf(node))
  }

  function NoncurrentStep(acc: Noncurrent, node: Node): Option<Noncurrent> {
    match node.name
    case NoncurrentDaysEl =>
      var n := IntOf(node);
      if n.None? then None else Some(acc.(days := n))
    case StorageClassEl => Some(acc.(storageClass := Some(TextOf(node))))
    case _ => Some(acc)
  }

  function ParseNoncurrent(node: Node): Option<Noncurrent> {
    Fold(NoncurrentStep, Noncurrent(None, None), ChildrenOf(node))
  }

  function NoncurrentExpirationStep(acc: Option<int>, node: Node): Option<Option<int>> {
    if node.name != NoncurrentDaysEl then Some(acc)
    else
      var n := IntOf(node);
      if n.None? then None else Some(n)
  }

  function ParseNoncurrentExpiration(node: Node): Option<Option<int>> {
    Fold(NoncurrentExpirationStep, None, ChildrenOf(node))
  }

  function AbortStep(acc: Option<int>, node: Node): Option<Option<int>> {
    if node.name != DaysAfterInitiationEl then Some(acc)
    else
      var n := IntOf(node);
      if n.None? then None else Some(n)
  }

  function ParseAbort(node: Node): Option<Option<int>> {
    Fold(AbortStep, None, ChildrenOf(node))
  }

  /** What one child of a rule contributes. */
  datatype Piece =
    | IdPiece(text: Text) | PrefixPiece(s: string) | StatusPiece(text: Text) | FilterPiece(f: Filter)
    | ExpirationPiece(e: Expiration) | TransitionPiece(t: Transition)
    | NoncurrentExpirationPiece(days: Option<int>) | NoncurrentTransitionPiece(n: Noncurrent)
    | AbortPiece(days: Option<int>) | NoPiece

  function ParsePiece(node: Node): Option<Piece> {
    match node.name
    case IdEl => Some(IdPiece(TextOf(node)))
    case PrefixEl => Some(PrefixPiece(StringOf(node)))
    case StatusEl => Some(StatusPiece(TextOf(node)))
    case FilterEl =>
      var f := ParseFilter(node);
      if f.None? then None else Some(FilterPiece(f.value))
    case ExpirationEl =>
      var e := ParseExpiration(node);
      if e.None? then None else Some(ExpirationPiece(e.value))
    case TransitionEl =>
      var t := ParseTransition(node);
      if t.None? then None else Some(TransitionPiece(t.value))
    case NoncurrentExpirationEl =>
      var d := ParseNoncurrentExpiration(node);
      if d.None? then None else Some(NoncurrentExpirationPiece(d.value))
    case NoncurrentTransitionEl =>
      var n := ParseNoncurrent(node);
      if n.None? then None else Some(NoncurrentTransitionPiece(n.value))
    case AbortEl =>
      var d := ParseAbort(node);
      if d.None? then None else Some(AbortPiece(d.value))
    case _ => Some(NoPiece)
  }

  /** The dictionary under construction, with the two lists kept beside it. */
  datatype Draft = Draft(rule: Rule, transitions: seq<Transition>, noncurrent: seq<Noncurrent>)

  const BLANK_RULE := Rule(None, None, None, None, None, None, None, None, None)
  const BLANK := Draft(BLANK_RULE, [], [])

  function Put(d: Draft, piece: Piece): Draft {
    match piece
    case IdPiece(text) => d.(rule := d.rule.(id := Some(text)))
    case PrefixPiece(s) => d.(rule := d.rule.(prefix := Some(s)))
    case StatusPiece(text) => d.(rule := d.rule.(status := Some(text)))
    case FilterPiece(f) => d.(rule := d.rule.(filter := Some(f)))
    case ExpirationPiece(e) => d.(rule := d.rule.(expiration := Some(e)))
    case TransitionPiece(t) => d.(transitions := d.transitions + [t])
    case NoncurrentExpirationPiece(days) => d.(rule := d.rule.(noncurrentExpiration := Some(days)))
    case NoncurrentTransitionPiece(n) => d.(noncurrent := d.noncurrent + [n])
    case AbortPiece(days) => d.(rule := d.rule.(abort := Some(days)))
    case NoPiece => d
  }

  function RuleStep(d: Draft, node: Node): Option<Draft> {
    var piece := ParsePiece(node);
    if piece.None? then None else Some(Put(d, piece.value))
  }

  function Finish(d: Draft): Rule {
    d.rule.(transitions := if d.transitions == [] then None else Some(d.transitions),
            noncurrentTransitions := if d.noncurrent == [] then None else Some(d.noncurrent))
  }

  function ParseRule(node: Node): Option<Rule> {
    var d := Fold(RuleStep, BLANK, ChildrenOf(node));
    if d.None? then None else Some(Finish(d.value))
  }

  function ConfigStep(acc: seq<Rule>, node: Node): Option<seq<Rule>> {
    if node.name != RuleEl then Some(acc)
    else
      var rule := ParseRule(node);
      if rule.None? then None else Some(acc + [rule.value])
  }

  function ParseConfig(root: Node): Option<seq<Rule>> {
    Fold(ConfigStep, [], ChildrenOf(root))
  }

  method ParseLifecycleConfiguration(root: Node) returns (rules: Option<seq<Rule>>)
    ensures rules == ParseConfig(root)
  {
    rules := FoldLoop(ConfigStep, [], ChildrenOf(root));
  }
}
