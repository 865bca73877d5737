/** The datum AST of AST.h: leaf nodes, the empty list and cons cells, the list
    helpers, ListBuilder, the two list iterators and the list utilities of AST.cpp.

    Nodes are values; source locations are not modelled. */
module Ast {
  import opened Wrappers
  import opened Numbers

  datatype Node =
    | Boolean(value: bool)
    | Character(code: nat)
    | Str(text: seq<byte>)
    | Symbol(name: seq<byte>)
    | Num(number: Number)
    | Null
    | Pair(car: Node, cdr: Node)

  /** NodeKind, for the node kinds this reader builds. */
  datatype NodeKind = BooleanKind | CharacterKind | StringKind | SymbolKind | NumberKind | NullKind | PairKind

  /** Node::getKind. */
  function KindOf(n: Node): (k: NodeKind)
    ensures (k == PairKind) == n.Pair? && (k == NullKind) == n.Null?
    ensures (k == SymbolKind) == n.Symbol? && (k == NumberKind) == n.Num?
    ensures (k == BooleanKind) == n.Boolean? && (k == CharacterKind) == n.Character?
    ensures (k == StringKind) == n.Str?
  {
    match n
    case Boolean(_) => BooleanKind
    case Character(_) => CharacterKind
    case Str(_) => StringKind
    case Symbol(_) => SymbolKind
    case Num(_) => NumberKind
    case Null => NullKind
    case Pair(_, _) => PairKind
  }

  /** cons. */
  function Cons(a: Node, b: Node): (p: Node)
    ensures p.Pair? && p.car == a && p.cdr == b
  {
    Pair(a, b)
  }

  /** The variadic list(ctx, a1, ..., ak): a proper list of exactly a1..ak. */
  function List(xs: seq<Node>): (l: Node)
    ensures IsList(l) && (l.Null? <==> xs == [])
    decreases |xs|
  {
    if xs == [] then Null else Cons(xs[0], List(xs[1..]))
  }

  /** isList: a Pair or a Null. */
  predicate IsList(n: Node)
  {
    n.Pair? || n.Null?
  }

  /** isListEmpty, only defined on lists. */
  predicate IsListEmpty(n: Node)
    requires IsList(n)
  {
    n.Null?
  }

  /** listHead, only defined on non-empty lists. */
  function ListHead(l: Node): Node
    requires IsList(l) && !IsListEmpty(l)
  {
    l.car
  }

  /** listTail, only defined on non-empty lists. */
  function ListTail(l: Node): Node
    requires IsList(l) && !IsListEmpty(l)
  {
    l.cdr
  }

  /** A non-empty list is the pair of its head and its tail, and its elements are the
      head followed by the elements of the tail. */
  lemma HeadTail(l: Node)
    requires IsList(l) && !IsListEmpty(l)
    ensures l == Cons(ListHead(l), ListTail(l))
    ensures Elements(l) == [ListHead(l)] + Elements(ListTail(l))
  {
  }

  /** The cars of the pairs on the spine of n, up to its first cdr that is not a pair. */
  function Elements(n: Node): seq<Node>
  {
    if n.Pair? then [n.car] + Elements(n.cdr) else []
  }

  /** The first cdr on the spine of n that is not a pair (n itself when n is no pair). */
  function LastCdr(n: Node): (t: Node)
    ensures !t.Pair?
  {
    if n.Pair? then LastCdr(n.cdr) else n
  }

  /** The list of xs whose last cdr is `tail`: a dotted list when tail is not Null. */
  function ListWithTail(xs: seq<Node>, tail: Node): Node
    decreases |xs|
  {
    if xs == [] then tail else Cons(xs[0], ListWithTail(xs[1..], tail))
  }

  /** A proper list ends in Null. */
  predicate Proper(n: Node)
  {
    LastCdr(n).Null?
  }

  /** list(a1..ak) holds a1..ak in order, has k pairs on its spine and ends in Null. */
  lemma {:induction false} ListContents(xs: seq<Node>)
    ensures Elements(List(xs)) == xs && LastCdr(List(xs)) == Null && List(xs) == ListWithTail(xs, Null)
    decreases |xs|
  {
    if xs != [] {
      ListContents(xs[1..]);
    }
  }

  /** A spine with a tail that is not a pair reads back as its elements and its tail. */
  lemma {:induction false} ListWithTailContents(xs: seq<Node>, tail: Node)
    requires !tail.Pair?
    ensures Elements(ListWithTail(xs, tail)) == xs && LastCdr(ListWithTail(xs, tail)) == tail
    decreases |xs|
  {
    if xs != [] {
      ListWithTailContents(xs[1..], tail);
    }
  }

  /** Every node is the spine of its elements ending in its last cdr. */
  lemma {:induction false} SpineDecomposition(n: Node)
    ensures n == ListWithTail(Elements(n), LastCdr(n))
  {
    if n.Pair? {
      SpineDecomposition(n.cdr);
      assert Elements(n)[1..] == Elements(n.cdr);
    }
  }

  /** A node is a proper list exactly when it is the list of its elements. */
  lemma ProperIffList(n: Node)
    ensures Proper(n) <==> n == List(Elements(n))
  {
    SpineDecomposition(n);
    ListContents(Elements(n));
  }

  /** The list in the test comment of listSize, (1 2 3 . 4), has three elements. */
  lemma ImproperSize()
    ensures var l := Cons(Num(MakeExact(1)), Cons(Num(MakeExact(2)), Cons(Num(MakeExact(3)), Num(MakeExact(4)))));
      |Elements(l)| == 3 && !Proper(l)
  {
  }

  /** dyn_cast<PairNode>: the node when it is a pair. */
  function AsPair(n: Node): (r: Option<Node>)
    ensures r.Some? <==> n.Pair?
    ensures r.Some? ==> r.value == n
  {
    if n.Pair? then Some(n) else None
  }

  /** ListIterator: walks the pairs of a list and yields their cars. */
  class ListIterator {
    var pair: Option<Node>

    /** ListIterator(node) for a list; an empty list gives the end iterator. */
    constructor(list: Node)
      requires IsList(list)
      ensures pair == AsPair(list)
    {
      pair := AsPair(list);
    }

    /** The elements still to be yielded. */
    function Remaining(): seq<Node>
      reads this
    {
      if pair.Some? then Elements(pair.value) else []
    }

    predicate AtEnd()
      reads this
    {
      pair.None?
    }

    /** operator*: the current element, the head of what remains. */
    function Current(): (n: Node)
      reads this
      requires pair.Some? && pair.value.Pair?
      ensures n == Remaining()[0]
    {
      pair.value.car
    }

    /** operator++: move to the cdr when it is a pair, else to the end, so an improper
        tail is never yielded. */
    method Next()
      requires pair.Some? && pair.value.Pair?
      modifies this
      ensures pair == AsPair(old(pair.value.cdr))
      ensures Remaining() == old(Remaining())[1..]
    {
      var p := pair.value;
      assert Elements(p)[1..] == Elements(p.cdr);
      pair := AsPair(p.cdr);
    }
  }

  /** ListPairIterator: walks the pairs of a list and yields the pairs themselves. */
  class ListPairIterator {
    var pair: Option<Node>

    constructor(list: Node)
      requires IsList(list)
      ensures pair == AsPair(list)
    {
      pair := AsPair(list);
    }

    /** How many pairs are still to be yielded. */
    function Remaining(): nat
      reads this
    {
      if pair.Some? then |Elements(pair.value)| else 0
    }

    predicate AtEnd()
      reads this
    {
      pair.None?
    }

    /** operator*: the current pair. */
    function Current(): (p: Node)
      reads this
      requires pair.Some? && pair.value.Pair?
      ensures p.Pair?
    {
      pair.value
    }

    method Next()
      requires pair.Some? && pair.value.Pair?
      modifies this
      ensures pair == AsPair(old(pair.value.cdr))
      ensures Remaining() == old(Remaining()) - 1
    {
      var p := pair.value;
      assert Elements(p)[1..] == Elements(p.cdr);
      pair := AsPair(p.cdr);
    }
  }

  /** The same walk collects exactly the elements: what a loop over make_range(list) sees. */
  method CollectElements(list: Node) returns (xs: seq<Node>)
    requires IsList(list)
    ensures xs == Elements(list)
  {
    var it := new ListIterator(list);
    xs := [];
    while !it.AtEnd()
      invariant it.pair.Some? ==> it.pair.value.Pair?
      invariant xs + it.Remaining() == Elements(list)
      decreases |it.Remaining()|
    {
      xs := xs + [it.Current()];
      it.Next();
    }
  }

  /** listSize: the number of pairs on the spine; an improper tail is not counted. */
  method ListSize(list: Node) returns (size: nat)
    requires IsList(list)
    ensures size == |Elements(list)|
  {
    var it := new ListPairIterator(list);
    size := 0;
    while !it.AtEnd()
      invariant it.pair.Some? ==> it.pair.value.Pair?
      invariant size + it.Remaining() == |Elements(list)|
      decreases it.Remaining()
    {
      it.Next();
      size := size + 1;
    }
  }

  /** isProperList: a Null, or a pair whose last cdr on the spine is Null. */
  method IsProperList(list: Node) returns (b: bool)
    requires IsList(list)
    ensures b == Proper(list)
  {
    if !list.Pair? {
      return true;
    }
    var cur := list;
    while cur.cdr.Pair?
      invariant cur.Pair? && LastCdr(cur) == LastCdr(list)
      decreases cur
    {
      cur := cur.cdr;
    }
    return cur.cdr.Null?;
  }

  /** ListBuilder. The list under construction holds `items` in order; its last cdr is
      still open. */
  class ListBuilder {
    var items: seq<Node>

    constructor()
      ensures items == []
    {
      items := [];
    }

    /** append: a new last pair holding n. */
    method Append(n: Node)
      modifies this
      ensures items == old(items) + [n]
    {
      items := items + [n];
    }

    /** finishList: terminate the list with Null, return it and reset the builder; an
        empty builder returns a bare Null. */
    method FinishList() returns (l: Node)
      modifies this
      ensures l == List(old(items)) && items == []
      ensures Elements(l) == old(items) && Proper(l)
    {
      ListContents(items);
      l := List(items);
      items := [];
    }
  }

  /** deepEqual and the equal* helpers: the kinds must agree; leaves compare their
      values (numbers with Number's operator==), pairs their car and then their cdr. */
  function DeepEqual(a: Node, b: Node): bool
    decreases a
  {
    if KindOf(a) != KindOf(b) then false
    else match a
      case Boolean(x) => x == b.value
      case Character(c) => c == b.code
      case Str(t) => t == b.text
      case Symbol(name) => name == b.name
      case Num(x) => Equals(x, b.number)
      case Null => true
      case Pair(car, cdr) => DeepEqual(car, b.car) && DeepEqual(cdr, b.cdr)
  }

  /** deepEqual is structural equality of nodes. */
  lemma {:induction false} DeepEqualIsEquality(a: Node, b: Node)
    ensures DeepEqual(a, b) <==> a == b
    decreases a
  {
    match a
    case Num(x) =>
      if b.Num? {
        EqualsIsIdentity(x, b.number);
      }
    case Pair(car, cdr) =>
      if b.Pair? {
        DeepEqualIsEquality(car, b.car);
        DeepEqualIsEquality(cdr, b.cdr);
      }
    case _ =>
  }
}
