/** The mock backend's adapter cache: an ordered dictionary in least-recently-used
    order, capped, in front of the adapter files on disk.  Operations run one after
    another; what another thread may do between two of them is not part of this model.
 */
module AdapterCache {

  type Path(==, !new)

  type Words(==, !new)

  const CAP := 256
  const MAX_FILE := 50 * 1024 * 1024

  datatype Option<T> = None | Some(value: T)

  datatype Example = Example(input: Option<Words>, output: Option<Words>)

  /** The parts of an adapter that decide its answers. */
  datatype Content = Content(rules: map<Words, Words>, examples: seq<Example>, default: Option<Words>)

  const STUB := Content(map[], [], None)

  /** What a path names on disk: the adapter its JSON parses to, if it does and has the
      expected shape, and its size. */
  datatype Stored = Stored(parsed: Option<Content>, size: nat)

  datatype Answer = Given(text: Words) | Sentinel(input: Words) | AdapterMiss(input: Words)

  /** `touched` lists the paths used since the start or the last reset. */
  datatype State = State(
    order: seq<Path>,
    entries: map<Path, Content>,
    disk: map<Path, Stored>,
    touched: seq<Path>)

  datatype Op =
    | Compile(path: Path, content: Content, size: nat)
    | CompileUnwritten(path: Path, content: Content)
    | Infer(path: Path, input: Words)
    | RegisterRule(path: Path, input: Words, output: Words)
    | SetDefault(path: Path, output: Words)
    | GetAdapter(path: Path)
    | Reset
    | Overwrite(path: Path, file: Stored)
    | Remove(path: Path)

  const EMPTY := State([], map[], map[], [])

  /* Recency. */

  function Without(xs: seq<Path>, p: Path): seq<Path> {
    if xs == [] then []
    else
      var last := xs[|xs| - 1];
      Without(xs[..|xs| - 1], p) + if last == p then [] else [last]
  }

  /** `move_to_end`, or insertion at the end. */
  function Touch(xs: seq<Path>, p: Path): seq<Path> {
    Without(xs, p) + [p]
  }

  function Bounded(xs: seq<Path>): seq<Path> {
    if |xs| <= CAP then xs else xs[|xs| - CAP..]
  }

  /** The distinct paths of a history, each at its last use. */
  function Recency(touched: seq<Path>): seq<Path> {
    if touched == [] then []
    else Touch(Recency(touched[..|touched| - 1]), touched[|touched| - 1])
  }

  predicate Distinct(xs: seq<Path>) {
    forall i, j :: 0 <= i < j < |xs| ==> xs[i] != xs[j]
  }

  lemma {:induction false} WithoutMembers(xs: seq<Path>, p: Path, q: Path)
    ensures q in Without(xs, p) <==> q in xs && q != p
  {
    if xs != [] {
      var rest := xs[..|xs| - 1];
      WithoutMembers(rest, p, q);
      assert q in xs <==> q in rest || q == xs[|xs| - 1];
    }
  }

  lemma {:induction false} WithoutAbsent(xs: seq<Path>, p: Path)
    requires p !in xs
    ensures Without(xs, p) == xs
  {
    if xs != [] {
      assert p != xs[|xs| - 1];
      WithoutAbsent(xs[..|xs| - 1], p);
    }
  }

  lemma {:induction false} WithoutDistinct(xs: seq<Path>, p: Path)
    requires Distinct(xs)
    ensures Distinct(Without(xs, p))
    ensures p in xs ==> |Without(xs, p)| == |xs| - 1
    ensures |Without(xs, p)| <= |xs|
  {
    if xs != [] {
      var rest, last := xs[..|xs| - 1], xs[|xs| - 1];
      WithoutDistinct(rest, p);
      assert last !in rest;
      if last == p {
        WithoutAbsent(rest, p);
      } else {
        WithoutMembers(rest, p, last);
      }
    }
  }

  lemma {:induction false} WithoutSplit(a: seq<Path>, b: seq<Path>, p: Path)
    ensures Without(a + b, p) == Without(a, p) + Without(b, p)
    decreases |b|
  {
    if b == [] {
      assert a + b == a;
    } else {
      assert (a + b)[..|a + b| - 1] == a + b[..|b| - 1];
      WithoutSplit(a, b[..|b| - 1], p);
    }
  }

  lemma TouchDistinct(xs: seq<Path>, p: Path)
    requires Distinct(xs)
    ensures Distinct(Touch(xs, p))
    ensures |Touch(xs, p)| == if p in xs then |xs| else |xs| + 1
  {
    WithoutDistinct(xs, p);
    WithoutMembers(xs, p, p);
    if p !in xs { WithoutAbsent(xs, p); }
  }

  lemma {:induction false} RecencyDistinct(touched: seq<Path>)
    ensures Distinct(Recency(touched))
  {
    if touched != [] {
      RecencyDistinct(touched[..|touched| - 1]);
      TouchDistinct(Recency(touched[..|touched| - 1]), touched[|touched| - 1]);
    }
  }

  /** Evicting at every use leaves what evicting once at the end would leave. */
  lemma BoundedTouch(xs: seq<Path>, p: Path)
    requires Distinct(xs)
    ensures Bounded(Touch(Bounded(xs), p)) == Bounded(Touch(xs, p))
  {
    if |xs| > CAP {
      var n := |xs| - CAP;
      var a, b := xs[..n], xs[n..];
      assert xs == a + b;
      WithoutSplit(a, b, p);
      assert Distinct(b);
      TailTouch(Without(a, p), b, p);
    }
  }

  lemma TailTouch(a: seq<Path>, b: seq<Path>, p: Path)
    requires Distinct(b) && |b| == CAP
    ensures Bounded(Touch(b, p)) == Bounded(a + Without(b, p) + [p])
  {
    TouchDistinct(b, p);
    assert a + Without(b, p) + [p] == a + Touch(b, p);
    TailOf(a, Touch(b, p));
  }

  lemma TailOf(a: seq<Path>, t: seq<Path>)
    requires |t| >= CAP
    ensures Bounded(a + t) == Bounded(t)
  {
  }

  /* What a history says about its recency order. */

  function LastUse(touched: seq<Path>, p: Path): (i: nat)
    requires p in touched
    ensures i < |touched| && touched[i] == p
    ensures forall j :: i < j < |touched| ==> touched[j] != p
  {
    if touched[|touched| - 1] == p then |touched| - 1
    else LastUse(touched[..|touched| - 1], p)
  }

  lemma {:induction false} RecencyMembers(touched: seq<Path>, p: Path)
    ensures p in Recency(touched) <==> p in touched
  {
    if touched != [] {
      var rest, last := touched[..|touched| - 1], touched[|touched| - 1];
      RecencyMembers(rest, p);
      WithoutMembers(Recency(rest), last, p);
      assert p in touched <==> p in rest || p == last;
    }
  }

  /** The order is that of last uses. */
  lemma {:induction false} RecencySorted(touched: seq<Path>, i: nat, j: nat)
    requires i < j < |Recency(touched)|
    ensures var r := Recency(touched);
            r[i] in touched && r[j] in touched && LastUse(touched, r[i]) < LastUse(touched, r[j])
  {
    var r := Recency(touched);
    RecencyMembers(touched, r[i]);
    RecencyMembers(touched, r[j]);
    RecencyDistinct(touched);
    var rest, last := touched[..|touched| - 1], touched[|touched| - 1];
    if j == |r| - 1 {
      assert r[j] == last && r[i] != last;
    } else {
      var q := Recency(rest);
      RecencyDistinct(rest);
      var i', j' := WithoutKeepsOrder(q, last, i, j);
      RecencySorted(rest, i', j');
      LastUseBefore(touched, r[i]);
      LastUseBefore(touched, r[j]);
    }
  }

  lemma LastUseBefore(touched: seq<Path>, p: Path)
    requires touched != [] && p in touched && p != touched[|touched| - 1]
    ensures p in touched[..|touched| - 1] && LastUse(touched, p) == LastUse(touched[..|touched| - 1], p)
  {
  }

  lemma {:induction false} WithoutKeepsOrder(xs: seq<Path>, p: Path, i: nat, j: nat) returns (i': nat, j': nat)
    requires Distinct(xs) && i < j < |Without(xs, p)|
    ensures i' < j' < |xs| && xs[i'] == Without(xs, p)[i] && xs[j'] == Without(xs, p)[j]
    ensures Without(xs, p)[i] != p && Without(xs, p)[j] != p
  {
    var rest, last := xs[..|xs| - 1], xs[|xs| - 1];
    if j < |Without(rest, p)| {
      i', j' := WithoutKeepsOrder(rest, p, i, j);
    } else {
      j' := |xs| - 1;
      i' := WithoutAt(rest, p, i);
    }
  }

  lemma {:induction false} WithoutAt(xs: seq<Path>, p: Path, i: nat) returns (k: nat)
    requires i < |Without(xs, p)|
    ensures k < |xs| && xs[k] == Without(xs, p)[i] != p
  {
    var rest := xs[..|xs| - 1];
    if i < |Without(rest, p)| { k := WithoutAt(rest, p, i); } else { k := |xs| - 1; }
  }

  /* The operations. */

  /** A file that is too large, or does not parse to the right shape, counts as absent. */
  function Load(disk: map<Path, Stored>, p: Path): Option<Content> {
    if p in disk && disk[p].size <= MAX_FILE then disk[p].parsed else None
  }

  function Keep(entries: map<Path, Content>, order: seq<Path>): map<Path, Content> {
    map k | k in entries && k in order :: entries[k]
  }

  function Put(s: State, p: Path, c: Content): State {
    var order := Bounded(Touch(s.order, p));
    s.(order := order, entries := Keep(s.entries[p := c], order), touched := s.touched + [p])
  }

  function MoveToEnd(s: State, p: Path): State {
    s.(order := Touch(s.order, p), touched := s.touched + [p])
  }

  /** A resident adapter moves to the end; another one is read from disk, if it can be. */
  function Fetch(s: State, p: Path): State {
    if p in s.entries then MoveToEnd(s, p)
    else if Load(s.disk, p).Some? then Put(s, p, Load(s.disk, p).value)
    else s
  }

  function Found(s: State, p: Path): Option<Content> {
    if p in s.entries then Some(s.entries[p]) else Load(s.disk, p)
  }

  function GetOrCreate(s: State, p: Path): State {
    if Found(s, p).Some? then Fetch(s, p) else Put(s, p, STUB)
  }

  /** Editing the resident adapter in place. */
  function Edit(s: State, p: Path, c: Content): State {
    MoveToEnd(s, p).(entries := s.entries[p := c])
  }

  function ContentAt(s: State, p: Path): Content {
    if p in s.entries then s.entries[p] else STUB
  }

  function WithRule(c: Content, x: Words, y: Words): Content { c.(rules := c.rules[x := y]) }

  function WithDefault(c: Content, y: Words): Content { c.(default := Some(y)) }

  function Registering(s: State, p: Path, x: Words, y: Words): State {
    var t := GetOrCreate(s, p);
    Edit(t, p, WithRule(ContentAt(t, p), x, y))
  }

  function Defaulting(s: State, p: Path, y: Words): State {
    var t := GetOrCreate(s, p);
    Edit(t, p, WithDefault(ContentAt(t, p), y))
  }

  function Apply(s: State, op: Op): State {
    match op
    case Compile(p, c, size) => Put(s, p, c).(disk := s.disk[p := Stored(Some(c), size)])
    case CompileUnwritten(p, c) => Put(s, p, c)
    case Infer(p, _) => Fetch(s, p)
    case RegisterRule(p, x, y) => Registering(s, p, x, y)
    case SetDefault(p, y) => Defaulting(s, p, y)
    case GetAdapter(p) => if p in s.entries then MoveToEnd(s, p) else s
    case Reset => s.(order := [], entries := map[], touched := [])
    case Overwrite(p, file) => s.(disk := s.disk[p := file])
    case Remove(p) => s.(disk := s.disk - {p})
  }

  function Exec(s: State, ops: seq<Op>): State
    decreases |ops|
  {
    if ops == [] then s else Exec(Apply(s, ops[0]), ops[1..])
  }

  /* Residents are the most recently used. */

  /** The resident keys, in order, are the last uses of the most recent distinct paths. */
  ghost predicate Inv(s: State) {
    && s.order == Bounded(Recency(s.touched))
    && (forall p :: p in s.entries <==> p in s.order)
  }

  lemma UseOrder(s: State, p: Path)
    requires Inv(s)
    ensures Bounded(Touch(s.order, p)) == Bounded(Recency(s.touched + [p]))
  {
    RecencyDistinct(s.touched);
    BoundedTouch(Recency(s.touched), p);
    assert (s.touched + [p])[..|s.touched|] == s.touched;
  }

  lemma ResidentOrder(s: State, p: Path)
    requires Inv(s) && p in s.order
    ensures |Touch(s.order, p)| == |s.order| <= CAP
  {
    RecencyDistinct(s.touched);
    TouchDistinct(s.order, p);
  }

  lemma TouchMembers(xs: seq<Path>, p: Path, q: Path)
    ensures q in Touch(xs, p) <==> q in xs || q == p
  {
    WithoutMembers(xs, p, q);
  }

  lemma BoundedMembers(xs: seq<Path>, q: Path)
    requires q in Bounded(xs)
    ensures q in xs
  {
  }

  lemma PutInv(s: State, p: Path, c: Content)
    requires Inv(s)
    ensures Inv(Put(s, p, c)) && p in Put(s, p, c).entries && Put(s, p, c).entries[p] == c
  {
    UseOrder(s, p);
    var t := Put(s, p, c);
    forall q ensures q in t.entries <==> q in t.order {
      TouchMembers(s.order, p, q);
      if q in t.order { BoundedMembers(Touch(s.order, p), q); }
    }
    var xs := Touch(s.order, p);
    assert Bounded(xs)[|Bounded(xs)| - 1] == p;
  }

  lemma MoveInv(s: State, p: Path)
    requires Inv(s) && p in s.entries
    ensures Inv(MoveToEnd(s, p))
  {
    UseOrder(s, p);
    ResidentOrder(s, p);
    forall q ensures q in Touch(s.order, p) <==> q in s.order { TouchMembers(s.order, p, q); }
  }

  lemma FetchInv(s: State, p: Path)
    requires Inv(s)
    ensures Inv(Fetch(s, p)) && (Found(s, p).Some? ==> p in Fetch(s, p).entries && Fetch(s, p).entries[p] == Found(s, p).value)
  {
    if p in s.entries {
      MoveInv(s, p);
    } else if Load(s.disk, p).Some? {
      PutInv(s, p, Load(s.disk, p).value);
    }
  }

  lemma GetOrCreateInv(s: State, p: Path)
    requires Inv(s)
    ensures Inv(GetOrCreate(s, p)) && p in GetOrCreate(s, p).entries
  {
    if Found(s, p).Some? { FetchInv(s, p); } else { PutInv(s, p, STUB); }
  }

  lemma EditInv(s: State, p: Path, c: Content)
    requires Inv(s) && p in s.entries
    ensures Inv(Edit(s, p, c))
  {
    MoveInv(s, p);
  }

  lemma StepInv(s: State, op: Op)
    requires Inv(s)
    ensures Inv(Apply(s, op))
  {
    match op
    case Compile(p, c, _) => PutInv(s, p, c);
    case CompileUnwritten(p, c) => PutInv(s, p, c);
    case Infer(p, _) => FetchInv(s, p);
    case RegisterRule(p, x, y) =>
      GetOrCreateInv(s, p);
      var t := GetOrCreate(s, p);
      EditInv(t, p, WithRule(ContentAt(t, p), x, y));
    case SetDefault(p, y) =>
      GetOrCreateInv(s, p);
      var t := GetOrCreate(s, p);
      EditInv(t, p, WithDefault(ContentAt(t, p), y));
    case GetAdapter(p) => if p in s.entries { MoveInv(s, p); }
    case Reset =>
    case Overwrite(_, _) =>
    case Remove(_) =>
  }

  lemma {:induction false} RunInv(s: State, ops: seq<Op>)
    requires Inv(s)
    ensures Inv(Exec(s, ops))
    decreases |ops|
  {
    if ops != [] {
      StepInv(s, ops[0]);
      RunInv(Apply(s, ops[0]), ops[1..]);
    }
  }

  /** The operation works on the path's adapter: it makes or edits it, or finds it. */
  predicate Uses(s: State, op: Op, p: Path) {
    match op
    case Compile(q, _, _) => q == p
    case CompileUnwritten(q, _) => q == p
    case RegisterRule(q, _, _) => q == p
    case SetDefault(q, _) => q == p
    case Infer(q, _) => q == p && (p in s.entries || Load(s.disk, p).Some?)
    case GetAdapter(q) => q == p && p in s.entries
    case Reset => false
    case Overwrite(_, _) => false
    case Remove(_) => false
  }

  /** Touching the most recent path again changes nothing. */
  lemma TouchLast(xs: seq<Path>, p: Path)
    requires Distinct(xs) && xs != [] && xs[|xs| - 1] == p
    ensures Touch(xs, p) == xs
  {
    var front := xs[..|xs| - 1];
    assert p !in front;
    WithoutAbsent(front, p);
  }

  lemma TouchTwice(xs: seq<Path>, p: Path)
    requires Distinct(xs)
    ensures Touch(Touch(xs, p), p) == Touch(xs, p)
    ensures Touch(Bounded(Touch(xs, p)), p) == Bounded(Touch(xs, p))
  {
    hide Without;
    TouchDistinct(xs, p);
    TouchLast(Touch(xs, p), p);
    TouchLast(Bounded(Touch(xs, p)), p);
  }

  /** Every use makes a path the most recent one, evicting the least recent past the cap;
      nothing else changes the order, except that a reset empties it. */
  lemma UsesMakeRecent(s: State, op: Op, p: Path)
    requires Inv(s)
    ensures Uses(s, op, p) ==> Apply(s, op).order == Bounded(Touch(s.order, p))
    ensures (forall q :: !Uses(s, op, q)) ==> Apply(s, op).order == if op.Reset? then [] else s.order
  {
    if Uses(s, op, p) {
      RecencyDistinct(s.touched);
      TouchTwice(s.order, p);
      if p in s.entries { ResidentOrder(s, p); }
    }
    if forall q :: !Uses(s, op, q) { Unused(s, op); }
  }

  lemma Unused(s: State, op: Op)
    requires forall q :: !Uses(s, op, q)
    ensures Apply(s, op).order == if op.Reset? then [] else s.order
  {
    if !op.Reset? { assert !Uses(s, op, op.path); }
  }

  ghost predicate UsedBefore(touched: seq<Path>, p: Path, q: Path) {
    p in touched && q in touched && LastUse(touched, p) < LastUse(touched, q)
  }

  /** Whatever is done, the resident adapters are those of the at most 256 distinct
      paths used last, ordered by their last use. */
  lemma ResidentsAreTheMostRecent(ops: seq<Op>)
    ensures var t := Exec(EMPTY, ops);
            && t.order == Bounded(Recency(t.touched)) && |t.order| <= CAP
            && (forall p :: p in t.entries <==> p in t.order)
            && (forall i, j :: 0 <= i < j < |t.order| ==> UsedBefore(t.touched, t.order[i], t.order[j]))
  {
    RunInv(EMPTY, ops);
    var t := Exec(EMPTY, ops);
    forall i, j | 0 <= i < j < |t.order| ensures UsedBefore(t.touched, t.order[i], t.order[j]) {
      ResidentsSorted(t, i, j);
    }
  }

  lemma ResidentsSorted(t: State, i: nat, j: nat)
    requires t.order == Bounded(Recency(t.touched)) && i < j < |t.order|
    ensures UsedBefore(t.touched, t.order[i], t.order[j])
  {
    var n := |Recency(t.touched)| - |t.order|;
    RecencySorted(t.touched, n + i, n + j);
  }

  /** And a path that was used but is not resident was last used before all of them. */
  lemma EvictedAreOlder(ops: seq<Op>, p: Path, j: nat)
    requires var t := Exec(EMPTY, ops); p in t.touched && p !in t.entries && j < |t.order|
    ensures var t := Exec(EMPTY, ops); |t.order| == CAP && UsedBefore(t.touched, p, t.order[j])
  {
    RunInv(EMPTY, ops);
    EvictedFirst(Exec(EMPTY, ops), p, j);
  }

  lemma EvictedFirst(t: State, p: Path, j: nat)
    requires t.order == Bounded(Recency(t.touched)) && p in t.touched && p !in t.order && j < |t.order|
    ensures |t.order| == CAP && UsedBefore(t.touched, p, t.order[j])
  {
    var r := Recency(t.touched);
    RecencyMembers(t.touched, p);
    var i := CutOff(r, p);
    RecencySorted(t.touched, i, |r| - CAP + j);
  }

  lemma CutOff(r: seq<Path>, p: Path) returns (i: nat)
    requires p in r && p !in Bounded(r)
    ensures |r| > CAP && i < |r| - CAP && r[i] == p
  {
    i :| 0 <= i < |r| && r[i] == p;
    assert forall k :: |r| - |Bounded(r)| <= k < |r| ==> r[k] in Bounded(r);
  }

  /* Answers. */

  function FirstOutput(examples: seq<Example>, x: Words): Option<Words> {
    if examples == [] then None
    else if examples[0].input == Some(x) && examples[0].output.Some? then examples[0].output
    else FirstOutput(examples[1..], x)
  }

  /** Rules first, then examples, then the default. */
  function AnswerOf(c: Content, x: Words): Option<Words> {
    if x in c.rules then Some(c.rules[x])
    else if FirstOutput(c.examples, x).Some? then FirstOutput(c.examples, x)
    else c.default
  }

  function Reply(found: Option<Content>, x: Words, strict: bool): Answer {
    if found.Some? && AnswerOf(found.value, x).Some? then Given(AnswerOf(found.value, x).value)
    else if strict then AdapterMiss(x) else Sentinel(x)
  }

  /** The example that answers is the earliest one with this input and an output. */
  lemma {:induction false} FirstOutputIsFirst(examples: seq<Example>, x: Words)
    ensures match FirstOutput(examples, x)
            case None => forall i :: 0 <= i < |examples| ==> examples[i].input != Some(x) || examples[i].output.None?
            case Some(y) =>
              exists i :: 0 <= i < |examples| && examples[i] == Example(Some(x), Some(y))
                          && forall j :: 0 <= j < i ==> examples[j].input != Some(x) || examples[j].output.None?
  {
    if examples != [] {
      if examples[0].input == Some(x) && examples[0].output.Some? {
        assert examples[0] == Example(Some(x), examples[0].output);
      } else {
        var rest := examples[1..];
        FirstOutputIsFirst(rest, x);
        if FirstOutput(rest, x).Some? {
          var y := FirstOutput(rest, x).value;
          var i :| 0 <= i < |rest| && rest[i] == Example(Some(x), Some(y))
                   && forall j :: 0 <= j < i ==> rest[j].input != Some(x) || rest[j].output.None?;
          assert examples[i + 1] == Example(Some(x), Some(y));
          forall j | 0 <= j < i + 1 ensures examples[j].input != Some(x) || examples[j].output.None? {
            if j > 0 { assert examples[j] == rest[j - 1]; }
          }
        } else {
          forall j | 0 <= j < |examples| ensures examples[j].input != Some(x) || examples[j].output.None? {
            if j > 0 { assert examples[j] == rest[j - 1]; }
          }
        }
      }
    }
  }

  /** An example that answers this input. */
  predicate Answers(e: Example, x: Words) {
    e.input == Some(x) && e.output.Some?
  }

  /** Example `i` answers, and none before it does. */
  predicate FirstAnswers(examples: seq<Example>, x: Words, i: nat) {
    i < |examples| && Answers(examples[i], x) && forall j :: 0 <= j < i ==> !Answers(examples[j], x)
  }

  /** What answers an input: its rule before any example, the first example that has an
      output before the default, the default before giving up; and with nothing, a strict
      backend raises and another one says so in its reply. */
  lemma RepliesInOrder(c: Content, x: Words, strict: bool)
    ensures var r := Reply(Some(c), x, strict);
            && (x in c.rules ==> r == Given(c.rules[x]))
            && (x !in c.rules ==> forall i: nat :: FirstAnswers(c.examples, x, i) ==> r == Given(c.examples[i].output.value))
            && (x !in c.rules && (forall i :: 0 <= i < |c.examples| ==> !Answers(c.examples[i], x)) ==>
                  match c.default
                  case Some(y) => r == Given(y)
                  case None => r == if strict then AdapterMiss(x) else Sentinel(x))
    ensures Reply(None, x, strict) == if strict then AdapterMiss(x) else Sentinel(x)
  {
    FirstOutputIsFirst(c.examples, x);
    forall i: nat | FirstAnswers(c.examples, x, i) ensures FirstOutput(c.examples, x) == c.examples[i].output {
      if FirstOutput(c.examples, x).Some? {
        var k :| 0 <= k < |c.examples| && c.examples[k] == Example(Some(x), FirstOutput(c.examples, x))
                 && forall j :: 0 <= j < k ==> c.examples[j].input != Some(x) || c.examples[j].output.None?;
        assert Answers(c.examples[k], x);
      }
    }
  }

  /** Neither compiles this path nor edits its adapter or its file. */
  predicate LeavesAlone(op: Op, p: Path) {
    match op
    case Compile(q, _, _) => q != p
    case CompileUnwritten(q, _) => q != p
    case RegisterRule(q, _, _) => q != p
    case SetDefault(q, _) => q != p
    case Overwrite(q, _) => q != p
    case Remove(q) => q != p
    case Infer(_, _) => true
    case GetAdapter(_) => true
    case Reset => true
  }

  ghost predicate Holds(s: State, p: Path, c: Content, size: nat) {
    && (p in s.entries ==> s.entries[p] == c)
    && p in s.disk && s.disk[p] == Stored(Some(c), size)
  }

  lemma PutHolds(s: State, q: Path, d: Content, p: Path, c: Content, size: nat)
    requires Holds(s, p, c, size) && (q == p ==> d == c)
    ensures Holds(Put(s, q, d), p, c, size)
  {
  }

  lemma StepHolds(s: State, op: Op, p: Path, c: Content, size: nat)
    requires Holds(s, p, c, size) && LeavesAlone(op, p)
    ensures Holds(Apply(s, op), p, c, size)
  {
    match op
    case Compile(q, d, _) => PutHolds(s, q, d, p, c, size);
    case CompileUnwritten(q, d) => PutHolds(s, q, d, p, c, size);
    case Infer(q, _) => FetchHolds(s, q, p, c, size);
    case RegisterRule(q, x, y) => GetOrCreateHolds(s, q, p, c, size);
    case SetDefault(q, y) => GetOrCreateHolds(s, q, p, c, size);
    case GetAdapter(_) =>
    case Reset =>
    case Overwrite(_, _) =>
    case Remove(_) =>
  }

  lemma FetchHolds(s: State, q: Path, p: Path, c: Content, size: nat)
    requires Holds(s, p, c, size)
    ensures Holds(Fetch(s, q), p, c, size)
  {
    if q !in s.entries && Load(s.disk, q).Some? { PutHolds(s, q, Load(s.disk, q).value, p, c, size); }
  }

  lemma GetOrCreateHolds(s: State, q: Path, p: Path, c: Content, size: nat)
    requires Holds(s, p, c, size) && q != p
    ensures Holds(GetOrCreate(s, q), p, c, size)
  {
    if Found(s, q).Some? { FetchHolds(s, q, p, c, size); } else { PutHolds(s, q, STUB, p, c, size); }
  }

  lemma {:induction false} RunHolds(s: State, ops: seq<Op>, p: Path, c: Content, size: nat)
    requires Holds(s, p, c, size) && forall i :: 0 <= i < |ops| ==> LeavesAlone(ops[i], p)
    ensures Holds(Exec(s, ops), p, c, size)
    decreases |ops|
  {
    if ops != [] {
      StepHolds(s, ops[0], p, c, size);
      RunHolds(Apply(s, ops[0]), ops[1..], p, c, size);
    }
  }

  /** After a compile, and until the path is compiled, edited or its file changed by
      someone else, inference answers as that compile dictates, whatever was used,
      evicted or reset in between; only an adapter whose file is over the size limit
      is lost with its eviction. */
  lemma InferAnswersTheLastCompile(s: State, p: Path, c: Content, size: nat, ops: seq<Op>, x: Words, strict: bool)
    requires forall i :: 0 <= i < |ops| ==> LeavesAlone(ops[i], p)
    ensures var t := Exec(Apply(s, Compile(p, c, size)), ops);
            Reply(Found(t, p), x, strict) ==
            Reply(if size <= MAX_FILE || p in t.entries then Some(c) else None, x, strict)
  {
    var s' := Apply(s, Compile(p, c, size));
    RunHolds(s', ops, p, c, size);
  }

  /** Rules and defaults registered by hand live in memory only: once the adapter is
      evicted, or the cache reset, the file decides again. */
  lemma RulesAreForgotten(s: State, p: Path, x: Words, y: Words, ops: seq<Op>)
    requires Inv(s)
    requires forall i :: 0 <= i < |ops| ==> LeavesAlone(ops[i], p)
    ensures var t := Apply(s, RegisterRule(p, x, y));
            && Reply(Found(t, p), x, true) == Given(y)
            && (p !in Exec(t, ops).entries ==> Found(Exec(t, ops), p) == Load(s.disk, p))
  {
    GetOrCreateInv(s, p);
    var t := Apply(s, RegisterRule(p, x, y));
    RunDisk(t, ops, p);
  }

  /** The path is resident in every state. */
  predicate StaysResident(s: State, ops: seq<Op>, p: Path)
    decreases |ops|
  {
    p in s.entries && (ops == [] || StaysResident(Apply(s, ops[0]), ops[1..], p))
  }

  lemma PutElsewhere(s: State, q: Path, d: Content, p: Path)
    requires q != p && p in s.entries && p in Put(s, q, d).entries
    ensures Put(s, q, d).entries[p] == s.entries[p]
  {
  }

  lemma ResidentStep(s: State, op: Op, p: Path)
    requires p in s.entries && p in Apply(s, op).entries && LeavesAlone(op, p)
    ensures Apply(s, op).entries[p] == s.entries[p]
  {
    match op
    case Compile(q, d, _) => PutElsewhere(s, q, d, p);
    case CompileUnwritten(q, d) => PutElsewhere(s, q, d, p);
    case Infer(q, _) => FetchElsewhere(s, q, p);
    case RegisterRule(q, x, y) => CreateElsewhere(s, q, p);
    case SetDefault(q, y) => CreateElsewhere(s, q, p);
    case GetAdapter(_) =>
    case Reset =>
    case Overwrite(_, _) =>
    case Remove(_) =>
  }

  lemma FetchElsewhere(s: State, q: Path, p: Path)
    requires p in s.entries && p in Fetch(s, q).entries
    ensures Fetch(s, q).entries[p] == s.entries[p]
  {
    if q !in s.entries && Load(s.disk, q).Some? { PutElsewhere(s, q, Load(s.disk, q).value, p); }
  }

  lemma CreateElsewhere(s: State, q: Path, p: Path)
    requires q != p && p in s.entries && p in GetOrCreate(s, q).entries
    ensures GetOrCreate(s, q).entries[p] == s.entries[p]
  {
    if Found(s, q).Some? { FetchElsewhere(s, q, p); } else { PutElsewhere(s, q, STUB, p); }
  }

  lemma {:induction false} ResidentKeepsContent(s: State, ops: seq<Op>, p: Path)
    requires StaysResident(s, ops, p) && forall i :: 0 <= i < |ops| ==> LeavesAlone(ops[i], p)
    ensures p in Exec(s, ops).entries && Exec(s, ops).entries[p] == s.entries[p]
    decreases |ops|
  {
    if ops != [] {
      ResidentStep(s, ops[0], p);
      ResidentKeepsContent(Apply(s, ops[0]), ops[1..], p);
    }
  }

  /** A default set by hand is the answer, for as long as the adapter stays resident, to
      every input that has neither a rule nor an example there; the others are answered
      as before. */
  lemma DefaultAnswersWhileResident(s: State, p: Path, y: Words, ops: seq<Op>, x: Words, strict: bool)
    requires Inv(s) && StaysResident(Apply(s, SetDefault(p, y)), ops, p)
    requires forall i :: 0 <= i < |ops| ==> LeavesAlone(ops[i], p)
    ensures var c := if Found(s, p).Some? then Found(s, p).value else STUB;
            var t := Exec(Apply(s, SetDefault(p, y)), ops);
            if x !in c.rules && forall i :: 0 <= i < |c.examples| ==> !Answers(c.examples[i], x)
            then Reply(Found(t, p), x, strict) == Given(y)
            else Reply(Found(t, p), x, strict) == Reply(Found(s, p), x, strict)
  {
    var c := if Found(s, p).Some? then Found(s, p).value else STUB;
    var t := Apply(s, SetDefault(p, y));
    DefaultSet(s, p, y);
    ResidentKeepsContent(t, ops, p);
    RepliesInOrder(t.entries[p], x, strict);
    RepliesInOrder(c, x, strict);
    FirstOutputIsFirst(c.examples, x);
  }

  lemma DefaultSet(s: State, p: Path, y: Words)
    requires Inv(s)
    ensures var t := Apply(s, SetDefault(p, y));
            var c := if Found(s, p).Some? then Found(s, p).value else STUB;
            p in t.entries && t.entries[p] == Content(c.rules, c.examples, Some(y))
  {
    if Found(s, p).Some? { FetchInv(s, p); } else { PutInv(s, p, STUB); }
  }

  /** The same goes for a compile whose file could not be written: it answers while it
      is resident, and after that the file that was there before does. */
  lemma UnwrittenIsForgotten(s: State, p: Path, c: Content, ops: seq<Op>, x: Words, strict: bool)
    requires Inv(s)
    requires forall i :: 0 <= i < |ops| ==> LeavesAlone(ops[i], p)
    ensures var t := Apply(s, CompileUnwritten(p, c));
            && Reply(Found(t, p), x, strict) == Reply(Some(c), x, strict)
            && (p !in Exec(t, ops).entries ==> Found(Exec(t, ops), p) == Load(s.disk, p))
  {
    PutInv(s, p, c);
    RunDisk(Put(s, p, c), ops, p);
  }

  lemma {:induction false} RunDisk(s: State, ops: seq<Op>, p: Path)
    requires forall i :: 0 <= i < |ops| ==> LeavesAlone(ops[i], p)
    ensures Load(Exec(s, ops).disk, p) == Load(s.disk, p)
    decreases |ops|
  {
    if ops != [] {
      assert LeavesAlone(ops[0], p);
      RunDisk(Apply(s, ops[0]), ops[1..], p);
    }
  }

  /* The backend object. */

  class MockBackend {
    const strictMisses: bool
    var order: seq<Path>
    var entries: map<Path, Content>
    var disk: map<Path, Stored>
    ghost var touched: seq<Path>

    ghost function Snapshot(): State
      reads this
    {
      State(order, entries, disk, touched)
    }

    constructor (strictMisses: bool)
      ensures Snapshot() == EMPTY && Inv(Snapshot()) && this.strictMisses == strictMisses
    {
      this.strictMisses := strictMisses;
      order, entries, disk, touched := [], map[], map[], [];
    }

    /** Insert or replace, move to the end, and pop from the front while over the cap. */
    method PutAdapter(p: Path, c: Content)
      requires Inv(Snapshot())
      modifies this`order, this`entries, this`touched
      ensures Snapshot() == Put(old(Snapshot()), p, c) && Inv(Snapshot())
    {
      PutInv(Snapshot(), p, c);
      FullKeys(Snapshot(), p, c);
      entries := entries[p := c];
      order := Touch(order, p);
      touched := touched + [p];
      Evict();
    }

    method Evict()
      requires Distinct(order) && Keep(entries, order) == entries
      modifies this`order, this`entries
      ensures order == Bounded(old(order)) && entries == Keep(old(entries), order)
    {
      ghost var all, full := entries, order;
      while |order| > CAP
        invariant |order| <= |full| && order == full[|full| - |order|..]
        invariant if |full| > CAP then |order| >= CAP else order == full
        invariant Distinct(order) && entries == Keep(all, order)
      {
        PopFront(all, order);
        entries := entries - {order[0]};
        order := order[1..];
      }
    }

    method LoadAdapterFromDisk(p: Path) returns (c: Option<Content>)
      ensures c == Load(disk, p)
    {
      if p !in disk || disk[p].size > MAX_FILE { return None; }
      c := disk[p].parsed;
    }

    /** `size` is that of the file, which replaces whatever was there.  The adapter is
        cached first, so a failing write leaves it cached. */
    method Compile(p: Path, c: Content, size: nat, writeFails: bool) returns (raised: bool)
      requires Inv(Snapshot())
      modifies this
      ensures Snapshot() == Apply(old(Snapshot()), if writeFails then Op.CompileUnwritten(p, c) else Op.Compile(p, c, size))
      ensures raised == writeFails && Inv(Snapshot())
    {
      PutAdapter(p, c);
      raised := writeFails;
      if raised { return; }
      disk := disk[p := Stored(Some(c), size)];
    }

    method MoveToTheEnd(p: Path)
      requires Inv(Snapshot()) && p in entries
      modifies this`order, this`touched
      ensures Snapshot() == MoveToEnd(old(Snapshot()), p) && Inv(Snapshot())
    {
      MoveInv(Snapshot(), p);
      order, touched := Touch(order, p), touched + [p];
    }

    method Infer(p: Path, x: Words) returns (r: Answer)
      requires Inv(Snapshot())
      modifies this`order, this`entries, this`touched
      ensures Snapshot() == Fetch(old(Snapshot()), p) && Inv(Snapshot())
      ensures r == Reply(Found(old(Snapshot()), p), x, strictMisses)
    {
      var adapter: Option<Content> := None;
      if p in entries {
        adapter := Some(entries[p]);
        MoveToTheEnd(p);
      } else {
        adapter := LoadAdapterFromDisk(p);
        if adapter.Some? { PutAdapter(p, adapter.value); }
      }
      if adapter.Some? {
        var y := Lookup(adapter.value, x);
        if y.Some? { return Given(y.value); }
      }
      if strictMisses { return AdapterMiss(x); }
      r := Sentinel(x);
    }

    method Lookup(c: Content, x: Words) returns (y: Option<Words>)
      ensures y == AnswerOf(c, x)
    {
      if x in c.rules { return Some(c.rules[x]); }
      var i := 0;
      while i < |c.examples|
        invariant 0 <= i <= |c.examples| && FirstOutput(c.examples, x) == FirstOutput(c.examples[i..], x)
      {
        var ex := c.examples[i];
        assert c.examples[i..][0] == ex && c.examples[i..][1..] == c.examples[i + 1..];
        if ex.input == Some(x) && ex.output.Some? { return ex.output; }
        i := i + 1;
      }
      y := c.default;
    }

    method GetOrCreateAdapter(p: Path)
      requires Inv(Snapshot())
      modifies this`order, this`entries, this`touched
      ensures Snapshot() == GetOrCreate(old(Snapshot()), p) && Inv(Snapshot()) && p in entries
    {
      GetOrCreateInv(Snapshot(), p);
      if p in entries {
        MoveToTheEnd(p);
        return;
      }
      var loaded := LoadAdapterFromDisk(p);
      PutAdapter(p, if loaded.Some? then loaded.value else STUB);
    }

    /** The adapter just fetched is edited in place. */
    method EditAdapter(p: Path, c: Content)
      requires Inv(Snapshot()) && p in entries
      modifies this`order, this`entries, this`touched
      ensures Snapshot() == Edit(old(Snapshot()), p, c) && Inv(Snapshot())
    {
      EditInv(Snapshot(), p, c);
      entries := entries[p := c];
      if p in entries { MoveToTheEnd(p); }
    }

    method RegisterRule(p: Path, x: Words, y: Words)
      requires Inv(Snapshot())
      modifies this`order, this`entries, this`touched
      ensures Snapshot() == Registering(old(Snapshot()), p, x, y) && Inv(Snapshot())
    {
      GetOrCreateAdapter(p);
      EditAdapter(p, WithRule(entries[p], x, y));
    }

    method SetDefaultResponse(p: Path, y: Words)
      requires Inv(Snapshot())
      modifies this`order, this`entries, this`touched
      ensures Snapshot() == Defaulting(old(Snapshot()), p, y) && Inv(Snapshot())
    {
      GetOrCreateAdapter(p);
      EditAdapter(p, WithDefault(entries[p], y));
    }

    method GetAdapter(p: Path) returns (c: Option<Content>)
      requires Inv(Snapshot())
      modifies this`order, this`touched
      ensures Snapshot() == Apply(old(Snapshot()), Op.GetAdapter(p)) && Inv(Snapshot())
      ensures c == if p in old(entries) then Some(old(entries)[p]) else None
    {
      if p !in entries { return None; }
      MoveToTheEnd(p);
      c := Some(entries[p]);
    }

    method Clear()
      modifies this`order, this`entries, this`touched
      ensures Snapshot() == Apply(old(Snapshot()), Reset) && Inv(Snapshot())
    {
      order, entries, touched := [], map[], [];
    }
  }

  lemma FullKeys(s: State, p: Path, c: Content)
    requires Inv(s)
    ensures Keep(s.entries[p := c], Touch(s.order, p)) == s.entries[p := c]
    ensures Distinct(Touch(s.order, p))
  {
    forall q ensures q in Touch(s.order, p) <==> q in s.order || q == p { TouchMembers(s.order, p, q); }
    RecencyDistinct(s.touched);
    TouchDistinct(s.order, p);
  }

  lemma PopFront(m: map<Path, Content>, order: seq<Path>)
    requires order != [] && Distinct(order)
    ensures Keep(m, order) - {order[0]} == Keep(m, order[1..])
  {
    forall q ensures q in order[1..] <==> q in order && q != order[0] {
      if q in order && q != order[0] {
        var i :| 0 <= i < |order| && order[i] == q;
        assert order[1..][i - 1] == q;
      }
    }
  }
}
