/** The order of differently named children of a rule does not matter to the parser. */
module LifecycleOrder {
  import opened Common
  import opened Lifecycle

  /** The children called `name`, in order. */
  function Sub(nodes: seq<Node>, name: Name): seq<Node> {
    if nodes == [] then []
    else if nodes[0].name == name then [nodes[0]] + Sub(nodes[1..], name)
    else Sub(nodes[1..], name)
  }

  /** The element a piece comes from; `RuleEl` for no piece. */
  function KindOf(p: Piece): Name {
    match p
    case IdPiece(_) => IdEl
    case PrefixPiece(_) => PrefixEl
    case StatusPiece(_) => StatusEl
    case FilterPiece(_) => FilterEl
    case ExpirationPiece(_) => ExpirationEl
    case TransitionPiece(_) => TransitionEl
    case NoncurrentExpirationPiece(_) => NoncurrentExpirationEl
    case NoncurrentTransitionPiece(_) => NoncurrentTransitionEl
    case AbortPiece(_) => AbortEl
    case NoPiece => RuleEl
  }

  lemma {:induction false} PieceKind(x: Node)
    requires ParsePiece(x).Some?
    ensures ParsePiece(x).value.NoPiece? || KindOf(ParsePiece(x).value) == x.name
  {
  }

  /** Pieces of different kinds can be put in either order. */
  lemma {:induction false} PutCommutes(d: Draft, p: Piece, q: Piece)
    requires p.NoPiece? || q.NoPiece? || KindOf(p) != KindOf(q)
    ensures Put(Put(d, p), q) == Put(Put(d, q), p)
  {
  }

  lemma {:induction false} FoldCons(d: Draft, x: Node, rest: seq<Node>)
    ensures Fold(RuleStep, d, [x] + rest) ==
            if ParsePiece(x).None? then None else Fold(RuleStep, Put(d, ParsePiece(x).value), rest)
  {
    assert ([x] + rest)[1..] == rest;
  }

  lemma {:induction false} ConsSplit<T>(s: seq<T>, t: seq<T>)
    requires s != []
    ensures s + t == [s[0]] + (s[1..] + t)
  {
  }

  /** A child moves to the front past children with other names. */
  lemma {:induction false} MoveFront(d: Draft, before: seq<Node>, x: Node, rest: seq<Node>)
    requires forall i :: 0 <= i < |before| ==> before[i].name != x.name
    ensures Fold(RuleStep, d, before + ([x] + rest)) == Fold(RuleStep, d, [x] + (before + rest))
    decreases |before|
  {
    if before == [] {
      assert before + ([x] + rest) == [x] + (before + rest);
    } else {
      var y, tail := before[0], before[1..];
      ConsSplit(before, [x] + rest);
      ConsSplit(before, rest);
      FoldCons(d, y, tail + ([x] + rest));
      FoldCons(d, x, [y] + (tail + rest));
      var p, q := ParsePiece(y), ParsePiece(x);
      if p.Some? {
        MoveFront(Put(d, p.value), tail, x, rest);
        FoldCons(Put(d, p.value), x, tail + rest);
      }
      if q.Some? {
        FoldCons(Put(d, q.value), y, tail + rest);
      }
      if p.Some? && q.Some? {
        PieceKind(x);
        PieceKind(y);
        PutCommutes(d, p.value, q.value);
      }
    }
  }

  /** Position of the first child called `name`. */
  lemma {:induction false} FindFirst(nodes: seq<Node>, name: Name) returns (k: nat)
    requires Sub(nodes, name) != []
    ensures k < |nodes| && nodes[k] == Sub(nodes, name)[0] && nodes[k].name == name
    ensures forall i :: 0 <= i < k ==> nodes[i].name != name
  {
    if nodes[0].name == name {
      k := 0;
    } else {
      k := FindFirst(nodes[1..], name);
      k := k + 1;
    }
  }

  lemma {:induction false} SubSplit(a: seq<Node>, b: seq<Node>, name: Name)
    ensures Sub(a + b, name) == Sub(a, name) + Sub(b, name)
  {
    if a == [] {
      assert a + b == b;
    } else {
      SubSplit(a[1..], b, name);
      assert (a + b)[1..] == a[1..] + b && (a + b)[0] == a[0];
    }
  }

  lemma {:induction false} SubAbsent(nodes: seq<Node>, name: Name)
    requires forall i :: 0 <= i < |nodes| ==> nodes[i].name != name
    ensures Sub(nodes, name) == []
  {
    if nodes != [] {
      SubAbsent(nodes[1..], name);
    }
  }

  /** Taking the first child of its name out of a list. */
  lemma {:induction false} SubWithout(a: seq<Node>, x: Node, b: seq<Node>, name: Name)
    requires forall i :: 0 <= i < |a| ==> a[i].name != x.name
    ensures Sub(a + ([x] + b), name) ==
            if name == x.name then [x] + Sub(a + b, name) else Sub(a + b, name)
  {
    SubSplit(a, [x] + b, name);
    SubSplit(a, b, name);
    SubCons(x, b, name);
    if name == x.name {
      SubAbsent(a, name);
    }
  }

  lemma {:induction false} SubCons(x: Node, b: seq<Node>, name: Name)
    ensures Sub([x] + b, name) == if x.name == name then [x] + Sub(b, name) else Sub(b, name)
  {
    assert ([x] + b)[1..] == b;
  }

  lemma {:induction false} SameTail(x: Node, s: seq<Node>, t: seq<Node>)
    ensures [x] + s == [x] + t ==> s == t
  {
    assert ([x] + s)[1..] == s && ([x] + t)[1..] == t;
  }

  /** Parsing a rule depends only on the order among children with the same name. */
  lemma {:induction false} OrderIrrelevant(d: Draft, a: seq<Node>, b: seq<Node>)
    requires forall name :: Sub(a, name) == Sub(b, name)
    ensures Fold(RuleStep, d, a) == Fold(RuleStep, d, b)
    decreases |a|
  {
    if a == [] {
      assert b != [] ==> Sub(b, b[0].name) != Sub(a, b[0].name);
    } else {
      var x := a[0];
      assert Sub(a, x.name) == Sub(b, x.name);
      var k := FindFirst(b, x.name);
      var front, back := b[..k], b[k + 1..];
      var rest := front + back;
      assert b == front + ([x] + back);
      assert a == [x] + a[1..];
      forall name ensures Sub(a[1..], name) == Sub(rest, name) {
        assert Sub(a, name) == Sub(b, name);
        SubWithout(front, x, back, name);
        SubCons(x, a[1..], name);
        SameTail(x, Sub(a[1..], name), Sub(rest, name));
      }
      MoveFront(d, front, x, back);
      FoldCons(d, x, rest);
      FoldCons(d, x, a[1..]);
      if ParsePiece(x).Some? {
        OrderIrrelevant(Put(d, ParsePiece(x).value), a[1..], rest);
      }
    }
  }

  /** Two rule elements whose children differ only in how different names interleave are the same
      rule to the parser. */
  lemma {:induction false} InterleavingIrrelevant(x: Node, y: Node)
    requires forall name :: Sub(ChildrenOf(x), name) == Sub(ChildrenOf(y), name)
    ensures ParseRule(x) == ParseRule(y)
  {
    OrderIrrelevant(BLANK, ChildrenOf(x), ChildrenOf(y));
  }
}
