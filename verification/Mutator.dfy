/** The mutation tool's syntax-tree side: collecting the mutations a module offers, and
    replaying one of them knowing only its kind, its position and the token it replaces.
 */
module Mutator {

  datatype CmpOp = Lt | LtE | Gt | GtE | Eq | NotEq | Is | IsNot | In | NotIn

  datatype Pos = Pos(line: nat, col: nat)

  datatype Token = OpToken(op: CmpOp) | AndOr(isAnd: bool) | BoolToken(b: bool) | IntToken(n: int)

  /** What sits at a node of the tree, apart from its children. */
  datatype Kind =
    | Compare(ops: seq<CmpOp>)
    | BoolOp(isAnd: bool)
    | BoolConst(b: bool)
    | IntConst(n: int)
    | Other(what: nat)

  datatype Node = Node(kind: Kind, pos: Pos, children: seq<Node>)

  datatype MutKind = CmpMut | BoolMut | ConstMut | IntMut

  datatype Mut = Mut(kind: MutKind, pos: Pos, was: Token, next: Token)

  datatype Option<T> = None | Some(value: T)

  const INT_LIMIT := 10000

  function Swap(op: CmpOp): CmpOp {
    match op
    case Lt => LtE case LtE => Lt
    case Gt => GtE case GtE => Gt
    case Eq => NotEq case NotEq => Eq
    case Is => IsNot case IsNot => Is
    case In => NotIn case NotIn => In
  }

  function Abs(n: int): int { if n < 0 then -n else n }

  /* Collecting. */

  /** The mutation a node offers: a comparison with one operator, any `and` or `or`, a
      truth value, or an int that is not huge. */
  function Offer(n: Node): Option<Mut> {
    match n.kind
    case Compare(ops) => if |ops| == 1 then Some(Mut(CmpMut, n.pos, OpToken(ops[0]), OpToken(Swap(ops[0])))) else None
    case BoolOp(isAnd) => Some(Mut(BoolMut, n.pos, AndOr(isAnd), AndOr(!isAnd)))
    case BoolConst(b) => Some(Mut(ConstMut, n.pos, BoolToken(b), BoolToken(!b)))
    case IntConst(v) => if Abs(v) < INT_LIMIT then Some(Mut(IntMut, n.pos, IntToken(v), IntToken(v + 1))) else None
    case Other(_) => None
  }

  /** What the node becomes. */
  function Mutated(k: Kind): Kind {
    match k
    case Compare(ops) => if |ops| > 0 then Compare([Swap(ops[0])]) else k
    case BoolOp(isAnd) => BoolOp(!isAnd)
    case BoolConst(b) => BoolConst(!b)
    case IntConst(v) => IntConst(v + 1)
    case Other(_) => k
  }

  /** A place in the tree: which child to take at each level. */
  type Place = seq<nat>

  datatype Entry = Entry(place: Place, mut: Mut)

  function Under(i: nat, es: seq<Entry>): (r: seq<Entry>)
    ensures |r| == |es| && forall k :: 0 <= k < |r| ==> r[k] == Entry([i] + es[k].place, es[k].mut)
  {
    seq(|es|, k requires 0 <= k < |es| => Entry([i] + es[k].place, es[k].mut))
  }

  /** The mutations of a tree in the order of the walk, each with its place. */
  function Entries(n: Node, skip: set<MutKind>): seq<Entry>
    decreases n, 1
  {
    Own(n, skip) + ChildEntries(n, 0, skip)
  }

  function ChildEntries(n: Node, i: nat, skip: set<MutKind>): seq<Entry>
    requires i <= |n.children|
    decreases n, 0, |n.children| - i
  {
    if i == |n.children| then []
    else Under(i, Entries(n.children[i], skip)) + ChildEntries(n, i + 1, skip)
  }

  function Muts(es: seq<Entry>): (r: seq<Mut>)
    ensures |r| == |es| && forall k :: 0 <= k < |r| ==> r[k] == es[k].mut
  {
    seq(|es|, k requires 0 <= k < |es| => es[k].mut)
  }

  lemma MutsSum(a: seq<Entry>, b: seq<Entry>)
    ensures Muts(a + b) == Muts(a) + Muts(b)
  {
  }

  lemma MutsUnder(i: nat, es: seq<Entry>)
    ensures Muts(Under(i, es)) == Muts(es)
  {
  }

  /** What a node contributes before its children are walked. */
  function Own(n: Node, skip: set<MutKind>): seq<Entry> {
    if Offer(n).Some? && Offer(n).value.kind !in skip then [Entry([], Offer(n).value)] else []
  }

  /** The walk appends to one list. */
  method Visit(n: Node, skip: set<MutKind>, before: seq<Mut>) returns (out: seq<Mut>)
    ensures out == before + Muts(Entries(n, skip))
    decreases n
  {
    hide Muts, Under, Offer;
    var offer := Offer(n);
    out := before;
    if offer.Some? && offer.value.kind !in skip { out := out + [offer.value]; }
    ghost var seen := Own(n, skip);
    MutsOfOwn(n, skip);
    var i := 0;
    while i < |n.children|
      invariant 0 <= i <= |n.children|
      invariant seen + ChildEntries(n, i, skip) == Entries(n, skip)
      invariant out == before + Muts(seen)
    {
      out := Visit(n.children[i], skip, out);
      ghost var es := Entries(n.children[i], skip);
      MutsUnder(i, es);
      MutsSum(seen, Under(i, es));
      seen := seen + Under(i, es);
      i := i + 1;
    }
    assert seen == Entries(n, skip);
  }

  lemma MutsOfOwn(n: Node, skip: set<MutKind>)
    ensures Muts(Own(n, skip)) == if Offer(n).Some? && Offer(n).value.kind !in skip then [Offer(n).value] else []
  {
  }

  method Collect(tree: Node, skip: set<MutKind>) returns (out: seq<Mut>)
    ensures out == Muts(Entries(tree, skip))
  {
    out := Visit(tree, skip, []);
  }

  predicate IsPlace(n: Node, p: Place)
    decreases |p|
  {
    p == [] || (p[0] < |n.children| && IsPlace(n.children[p[0]], p[1..]))
  }

  function At(n: Node, p: Place): Node
    requires IsPlace(n, p)
    decreases |p|
  {
    if p == [] then n else At(n.children[p[0]], p[1..])
  }

  /** Every mutation is listed at the node that offers it, and no offer is missed. */
  lemma {:induction false} EntriesAreOffers(n: Node, skip: set<MutKind>, e: Entry)
    ensures e in Entries(n, skip) <==>
              IsPlace(n, e.place) && Offer(At(n, e.place)) == Some(e.mut) && e.mut.kind !in skip
    decreases n, 1
  {
    ChildEntriesAreOffers(n, 0, skip, e);
  }

  lemma {:induction false} ChildEntriesAreOffers(n: Node, i: nat, skip: set<MutKind>, e: Entry)
    requires i <= |n.children|
    ensures e in ChildEntries(n, i, skip) <==>
              e.place != [] && e.place[0] >= i && IsPlace(n, e.place) && Offer(At(n, e.place)) == Some(e.mut)
              && e.mut.kind !in skip
    decreases n, 0, |n.children| - i
  {
    if i < |n.children| {
      ChildEntriesAreOffers(n, i + 1, skip, e);
      var c := n.children[i];
      if e.place != [] && e.place[0] == i { EntriesAreOffers(c, skip, Entry(e.place[1..], e.mut)); }
      UnderMembers(i, Entries(c, skip), e);
    }
  }

  predicate PlacesOnce(es: seq<Entry>) {
    forall i, j :: 0 <= i < j < |es| ==> es[i].place != es[j].place
  }

  /** And no node is listed twice. */
  lemma {:induction false} EachPlaceOnce(n: Node, skip: set<MutKind>)
    ensures PlacesOnce(Entries(n, skip))
    decreases n, 1
  {
    var c := ChildEntries(n, 0, skip);
    ChildPlacesOnce(n, 0, skip);
    forall e | e in c ensures e.place != [] { ChildEntriesAreOffers(n, 0, skip, e); }
  }

  lemma {:induction false} ChildPlacesOnce(n: Node, i: nat, skip: set<MutKind>)
    requires i <= |n.children|
    ensures PlacesOnce(ChildEntries(n, i, skip))
    decreases n, 0, |n.children| - i
  {
    if i < |n.children| {
      var here, later := Under(i, Entries(n.children[i], skip)), ChildEntries(n, i + 1, skip);
      EachPlaceOnce(n.children[i], skip);
      ChildPlacesOnce(n, i + 1, skip);
      UnderOnce(i, Entries(n.children[i], skip));
      forall e | e in later ensures e.place != [] && e.place[0] > i { ChildEntriesAreOffers(n, i + 1, skip, e); }
      forall e | e in here ensures e.place != [] && e.place[0] == i {
        UnderMembers(i, Entries(n.children[i], skip), e);
      }
      ApartOnce(here, later, i);
    }
  }

  lemma UnderOnce(i: nat, es: seq<Entry>)
    requires PlacesOnce(es)
    ensures PlacesOnce(Under(i, es))
  {
    var r := Under(i, es);
    forall a, b | 0 <= a < b < |r| ensures r[a].place != r[b].place {
      assert r[a].place[1..] == es[a].place && r[b].place[1..] == es[b].place;
    }
  }

  lemma ApartOnce(a: seq<Entry>, b: seq<Entry>, i: nat)
    requires PlacesOnce(a) && PlacesOnce(b)
    requires forall e :: e in a ==> e.place != [] && e.place[0] == i
    requires forall e :: e in b ==> e.place != [] && e.place[0] > i
    ensures PlacesOnce(a + b)
  {
    forall x, y | 0 <= x < |a| && 0 <= y < |b| ensures a[x].place != b[y].place {
      assert a[x] in a && b[y] in b;
    }
  }

  lemma UnderMembers(i: nat, es: seq<Entry>, e: Entry)
    ensures e in Under(i, es) <==> e.place != [] && e.place[0] == i && Entry(e.place[1..], e.mut) in es
  {
    var r := Under(i, es);
    if e in r {
      var k :| 0 <= k < |r| && r[k] == e;
      assert e.place[1..] == es[k].place;
      assert es[k] == Entry(e.place[1..], e.mut);
    }
    if e.place != [] && e.place[0] == i && Entry(e.place[1..], e.mut) in es {
      var k :| 0 <= k < |es| && es[k] == Entry(e.place[1..], e.mut);
      assert e.place == [i] + e.place[1..];
      assert r[k] == e;
    }
  }

  /* What a mutation changes. */

  /** How two operands relate: by order, by identity and by membership. */
  datatype Facts = Facts(order: int, same: bool, member: bool)

  predicate Truth(op: CmpOp, f: Facts) {
    match op
    case Lt => f.order < 0 case LtE => f.order <= 0
    case Gt => f.order > 0 case GtE => f.order >= 0
    case Eq => f.order == 0 case NotEq => f.order != 0
    case Is => f.same case IsNot => !f.same
    case In => f.member case NotIn => !f.member
  }

  predicate Ordering(op: CmpOp) { op == Lt || op == LtE || op == Gt || op == GtE }

  /** What the mutant of an operator should be: one that answers differently exactly on
      equal operands for an ordering, and always for any other comparison. */
  predicate DiffersAsMeant(op: CmpOp, mutant: CmpOp, f: Facts) {
    Truth(mutant, f) != Truth(op, f) <==> (Ordering(op) ==> f.order == 0)
  }

  /** The swap does, and no other operator does. */
  lemma SwapIsTheMutant(op: CmpOp, mutant: CmpOp)
    ensures (forall f :: DiffersAsMeant(op, mutant, f)) <==> mutant == Swap(op)
  {
    if forall f :: DiffersAsMeant(op, mutant, f) {
      assert DiffersAsMeant(op, mutant, Facts(-1, true, true)) && DiffersAsMeant(op, mutant, Facts(0, true, true));
      assert DiffersAsMeant(op, mutant, Facts(1, true, true)) && DiffersAsMeant(op, mutant, Facts(0, false, true));
      assert DiffersAsMeant(op, mutant, Facts(0, true, false)) && DiffersAsMeant(op, mutant, Facts(1, false, false));
    }
  }

  /** What is offered: for a comparison of two operands its swap, for `and` and `or` each
      other, for a truth value its opposite, and for an int of fewer than five digits the
      next one up; chained comparisons and longer ints are left alone. */
  lemma OffersOneChange(n: Node)
    ensures match n.kind
            case Compare(ops) =>
              if |ops| != 1 then Offer(n).None?
              else
                && Offer(n) == Some(Mut(CmpMut, n.pos, OpToken(ops[0]), OpToken(Offer(n).value.next.op)))
                && forall f :: DiffersAsMeant(ops[0], Offer(n).value.next.op, f)
            case BoolOp(isAnd) => Offer(n) == Some(Mut(BoolMut, n.pos, AndOr(isAnd), AndOr(!isAnd)))
            case BoolConst(b) => Offer(n) == Some(Mut(ConstMut, n.pos, BoolToken(b), BoolToken(!b)))
            case IntConst(v) =>
              Offer(n) == if -10000 < v < 10000 then Some(Mut(IntMut, n.pos, IntToken(v), IntToken(v + 1))) else None
            case Other(_) => Offer(n).None?
  {
    if n.kind.Compare? && |n.kind.ops| == 1 { SwapIsTheMutant(n.kind.ops[0], Swap(n.kind.ops[0])); }
  }

  /** The token a node shows, if it is one the walk looks at. */
  function Shows(k: Kind): Option<Token> {
    match k
    case Compare(ops) => if |ops| == 1 then Some(OpToken(ops[0])) else None
    case BoolOp(isAnd) => Some(AndOr(isAnd))
    case BoolConst(b) => Some(BoolToken(b))
    case IntConst(v) => Some(IntToken(v))
    case Other(_) => None
  }

  /** The record tells the mutant: the node shows its old token, and mutated its new one. */
  lemma RecordTellsTheMutant(n: Node)
    requires Offer(n).Some?
    ensures var m := Offer(n).value;
            m.pos == n.pos && Shows(n.kind) == Some(m.was) && Shows(Mutated(n.kind)) == Some(m.next) && m.next != m.was
  {
    if n.kind.Compare? { SwapMoves(n.kind.ops[0]); }
  }

  /* Replaying. */

  /** The transformer's test at one node.  A comparison is not asked how many operators
      it has, and an `and` or `or` is not asked which of the two it is. */
  predicate Fires(k: Kind, pos: Pos, m: Mut) {
    pos == m.pos &&
    match k
    case Compare(ops) => m.kind == CmpMut && |ops| > 0 && OpToken(ops[0]) == m.was
    case BoolOp(_) => m.kind == BoolMut
    case BoolConst(b) => m.kind == ConstMut && BoolToken(b) == m.was
    case IntConst(v) => m.kind == IntMut && IntToken(v) == m.was
    case Other(_) => false
  }

  function Replayed(k: Kind, m: Mut): Kind {
    match k
    case Compare(ops) => if |ops| > 0 then Compare([Swap(ops[0])]) else k
    case BoolOp(_) => BoolOp(m.was != AndOr(true))
    case BoolConst(b) => BoolConst(!b)
    case IntConst(v) => IntConst(v + 1)
    case Other(_) => k
  }

  function NewKind(k: Kind, pos: Pos, m: Mut): Kind {
    if Fires(k, pos, m) then Replayed(k, m) else k
  }

  function Transform(n: Node, m: Mut): (r: Node)
    ensures |r.children| == |n.children|
    decreases n
  {
    Node(NewKind(n.kind, n.pos, m), n.pos,
         seq(|n.children|, i requires 0 <= i < |n.children| => Transform(n.children[i], m)))
  }

  /** How many nodes the transformer counted as done. */
  function Done(n: Node, m: Mut): nat
    decreases n, 1
  {
    (if Fires(n.kind, n.pos, m) then 1 else 0) + DoneIn(n, 0, m)
  }

  function DoneIn(n: Node, i: nat, m: Mut): nat
    requires i <= |n.children|
    decreases n, 0, |n.children| - i
  {
    if i == |n.children| then 0 else Done(n.children[i], m) + DoneIn(n, i + 1, m)
  }

  function ApplyMutation(tree: Node, m: Mut): Option<Node> {
    if Done(tree, m) == 0 then None else Some(Transform(tree, m))
  }

  /** The tree with the node at one place given another kind. */
  function WithKind(n: Node, p: Place, k: Kind): Node
    requires IsPlace(n, p)
    decreases |p|
  {
    if p == [] then n.(kind := k)
    else n.(children := n.children[p[0] := WithKind(n.children[p[0]], p[1..], k)])
  }

  predicate Alters(n: Node, m: Mut) { NewKind(n.kind, n.pos, m) != n.kind }

  ghost predicate NoneAltered(n: Node, m: Mut) {
    forall q :: IsPlace(n, q) ==> !Alters(At(n, q), m)
  }

  ghost predicate OnlyAltered(n: Node, p: Place, m: Mut) {
    forall q :: IsPlace(n, q) && q != p ==> !Alters(At(n, q), m)
  }

  lemma ChildPlace(n: Node, i: nat, q: Place)
    requires i < |n.children| && IsPlace(n.children[i], q)
    ensures IsPlace(n, [i] + q) && At(n, [i] + q) == At(n.children[i], q)
  {
    assert ([i] + q)[1..] == q;
  }

  lemma {:induction false} UnalteredIsSame(n: Node, m: Mut)
    requires NoneAltered(n, m)
    ensures Transform(n, m) == n
    decreases n
  {
    assert IsPlace(n, []) && At(n, []) == n;
    forall i | 0 <= i < |n.children| ensures Transform(n.children[i], m) == n.children[i] {
      forall q | IsPlace(n.children[i], q) ensures !Alters(At(n.children[i], q), m) { ChildPlace(n, i, q); }
      UnalteredIsSame(n.children[i], m);
    }
    assert Transform(n, m).children == n.children;
  }

  lemma {:induction false} AlteredOnlyThere(n: Node, p: Place, m: Mut)
    requires IsPlace(n, p) && OnlyAltered(n, p, m)
    ensures Transform(n, m) == WithKind(n, p, NewKind(At(n, p).kind, At(n, p).pos, m))
    decreases n
  {
    forall i, q | 0 <= i < |n.children| && IsPlace(n.children[i], q) && [i] + q != p
      ensures !Alters(At(n.children[i], q), m)
    {
      ChildPlace(n, i, q);
    }
    if p == [] {
      forall i | 0 <= i < |n.children| ensures Transform(n.children[i], m) == n.children[i] {
        UnalteredIsSame(n.children[i], m);
      }
      assert Transform(n, m).children == n.children;
    } else {
      AlteredBelow(n, p, m);
    }
  }

  lemma {:induction false} AlteredBelow(n: Node, p: Place, m: Mut)
    requires p != [] && IsPlace(n, p) && OnlyAltered(n, p, m)
    ensures Transform(n, m) == WithKind(n, p, NewKind(At(n, p).kind, At(n, p).pos, m))
    decreases n, 0
  {
    var c := n.children[p[0]];
    assert IsPlace(n, []) && At(n, []) == n;
    forall q | IsPlace(c, q) && q != p[1..] ensures !Alters(At(c, q), m) {
      ChildPlace(n, p[0], q);
      assert ([p[0]] + q)[1..] == q;
    }
    AlteredOnlyThere(c, p[1..], m);
    forall i | 0 <= i < |n.children| && i != p[0] ensures Transform(n.children[i], m) == n.children[i] {
      forall q | IsPlace(n.children[i], q) ensures !Alters(At(n.children[i], q), m) {
        ChildPlace(n, i, q);
        assert ([i] + q)[0] == i;
      }
      UnalteredIsSame(n.children[i], m);
    }
    assert Transform(n, m).children == WithKind(n, p, NewKind(At(n, p).kind, At(n, p).pos, m)).children;
  }

  lemma {:induction false} TransformAt(n: Node, q: Place, m: Mut)
    requires IsPlace(n, q)
    ensures IsPlace(Transform(n, m), q)
    ensures At(Transform(n, m), q).kind == NewKind(At(n, q).kind, At(n, q).pos, m)
    decreases |q|
  {
    if q != [] {
      assert Transform(n, m).children[q[0]] == Transform(n.children[q[0]], m);
      TransformAt(n.children[q[0]], q[1..], m);
    }
  }

  lemma {:induction false} WithKindElsewhere(n: Node, p: Place, k: Kind, q: Place)
    requires IsPlace(n, p) && IsPlace(n, q) && p != q
    ensures IsPlace(WithKind(n, p, k), q) && At(WithKind(n, p, k), q).kind == At(n, q).kind
    decreases |p|
  {
    if p == [] {
    } else if q == [] {
    } else if p[0] == q[0] {
      assert p == [p[0]] + p[1..] && q == [q[0]] + q[1..];
      WithKindElsewhere(n.children[p[0]], p[1..], k, q[1..]);
    }
  }

  lemma {:induction false} FiringIsDone(n: Node, p: Place, m: Mut)
    requires IsPlace(n, p) && Fires(At(n, p).kind, At(n, p).pos, m)
    ensures Done(n, m) > 0
    decreases n, 1
  {
    if p != [] {
      FiringIsDone(n.children[p[0]], p[1..], m);
      DoneBelow(n, 0, p[0], m);
    }
  }

  lemma {:induction false} DoneBelow(n: Node, i: nat, j: nat, m: Mut)
    requires i <= j < |n.children| && Done(n.children[j], m) > 0
    ensures DoneIn(n, i, m) > 0
    decreases j - i
  {
    if i < j { DoneBelow(n, i + 1, j, m); }
  }

  /** Same position, same kind of node and same old token. */
  predicate Clashes(n: Node, m: Mut) {
    n.pos == m.pos &&
    match n.kind
    case Compare(ops) => m.kind == CmpMut && |ops| > 0 && OpToken(ops[0]) == m.was
    case BoolOp(isAnd) => m.kind == BoolMut && AndOr(isAnd) == m.was
    case BoolConst(b) => m.kind == ConstMut && BoolToken(b) == m.was
    case IntConst(v) => m.kind == IntMut && IntToken(v) == m.was
    case Other(_) => false
  }

  /** The transformer alters exactly the clashing nodes, although it also touches an
      `and` inside an `or`, or the other way round, at the same position. */
  lemma AltersMeansClashes(from: Node, n: Node)
    requires Offer(from).Some?
    ensures Alters(n, Offer(from).value) <==> Clashes(n, Offer(from).value)
  {
    var m := Offer(from).value;
    if Clashes(n, m) && n.kind.Compare? { SwapMoves(n.kind.ops[0]); }
  }

  lemma SwapMoves(op: CmpOp)
    ensures Swap(op) != op && Swap(Swap(op)) == op
  {
  }

  lemma OfferFires(n: Node)
    requires Offer(n).Some?
    ensures Fires(n.kind, n.pos, Offer(n).value)
    ensures NewKind(n.kind, n.pos, Offer(n).value) == Mutated(n.kind) != n.kind
  {
    if n.kind.Compare? { SwapMoves(n.kind.ops[0]); }
  }

  /** Every collected mutation can be replayed from its record alone, and the result is
      the tree with exactly the collected node mutated if and only if no other node
      shares its kind, position and old token. */
  lemma ReplayIsExact(tree: Node, skip: set<MutKind>, e: Entry)
    requires e in Entries(tree, skip)
    ensures IsPlace(tree, e.place) && ApplyMutation(tree, e.mut).Some?
    ensures ApplyMutation(tree, e.mut).value == WithKind(tree, e.place, Mutated(At(tree, e.place).kind))
            <==> (forall q :: IsPlace(tree, q) && q != e.place ==> !Clashes(At(tree, q), e.mut))
    ensures WithKind(tree, e.place, Mutated(At(tree, e.place).kind)) != tree
  {
    EntriesAreOffers(tree, skip, e);
    var p, m := e.place, e.mut;
    var node := At(tree, p);
    OfferFires(node);
    FiringIsDone(tree, p, m);
    KindThere(tree, p, Mutated(node.kind));
    if forall q :: IsPlace(tree, q) && q != p ==> !Clashes(At(tree, q), m) {
      forall q | IsPlace(tree, q) && q != p ensures !Alters(At(tree, q), m) { AltersMeansClashes(node, At(tree, q)); }
      AlteredOnlyThere(tree, p, m);
    } else {
      var q :| IsPlace(tree, q) && q != p && Clashes(At(tree, q), m);
      AltersMeansClashes(node, At(tree, q));
      TransformAt(tree, q, m);
      WithKindElsewhere(tree, p, Mutated(node.kind), q);
    }
  }

  lemma {:induction false} KindThere(n: Node, p: Place, k: Kind)
    requires IsPlace(n, p)
    ensures IsPlace(WithKind(n, p, k), p) && At(WithKind(n, p, k), p).kind == k
    decreases |p|
  {
    if p != [] { KindThere(n.children[p[0]], p[1..], k); }
  }

  /** An `and` that opens an `or` starts at the same column.  Both are collected, each
      is replayed alone. */
  lemma AndInsideOr(outer: Node, inner: Node)
    requires outer.kind == BoolOp(false) && inner.kind == BoolOp(true) && outer.pos == inner.pos
    ensures Offer(outer).Some? && Offer(inner).Some?
    ensures Fires(inner.kind, inner.pos, Offer(outer).value) && !Alters(inner, Offer(outer).value)
    ensures Fires(outer.kind, outer.pos, Offer(inner).value) && !Alters(outer, Offer(inner).value)
  {
  }
}
