/** The structural comparison of a teacher answer with an adapter answer, and the
    agreement function that tolerates differences in named numeric fields.
 */
module Agreement {

  const MAX_DEPTH := 8

  /** Keys and texts are only ever compared, once normalised. */
  type Label(==, !new)

  /** The entries of a dict in insertion order, which matters only for its text. */
  datatype Entries<V> = Entries(order: seq<Label>, at: map<Label, V>)

  predicate Lists(order: seq<Label>, keys: set<Label>) {
    && (forall k :: k in keys ==> k in order)
    && (forall k :: k in order ==> k in keys)
  }

  type Fields<V> = f: Entries<V> | Lists(f.order, f.at.Keys) witness Entries([], map[])

  /** What an answer can be.  The fields of a model are what dumping it returns, so a
      model nested in a model is already a dict there.  `Other` is any value of
      another type. */
  datatype Value =
    | Null
    | Bool(flag: bool)
    | Int(n: int)
    | Float(r: real)
    | Str(text: Label)
    | List(items: seq<Value>)
    | Tuple(items: seq<Value>)
    | Dict(fields: Fields<Value>)
    | Model(cls: nat, fields: Fields<Value>)
    | Other(id: nat)

  /** How texts are normalised, and how a structured answer is written out, which may
      fail. */
  datatype Text = Text(normalize: Label -> Label, write: Value -> Written)

  datatype Written = Wrote(text: Label) | Failed

  datatype Outcome = Says(same: bool) | Raises

  predicate Structured(v: Value) { v.List? || v.Tuple? || v.Dict? || v.Model? }

  predicate Numeric(v: Value) { v.Int? || v.Float? }

  predicate IsSequence(v: Value) { v.List? || v.Tuple? }

  function AsReal(v: Value): real
    requires Numeric(v)
  {
    if v.Int? then v.n as real else v.r
  }

  function Abs(x: real): real { if x < 0.0 then -x else x }

  /** `math.isclose` at a relative tolerance of one in a thousand million. */
  predicate IsClose(x: real, y: real) {
    x == y || Abs(x - y) * 1000000000.0 <= (if Abs(x) < Abs(y) then Abs(y) else Abs(x))
  }

  /* The comparison. */

  function SameText(t: Text, a: Label, w: Written): Outcome {
    if w.Failed? then Raises else Says(t.normalize(a) == t.normalize(w.text))
  }

  /** The rules in the order they are tried. */
  function Compare(t: Text, a: Value, b: Value, depth: nat): Outcome
    decreases MAX_DEPTH + 1 - depth, 1
  {
    if depth > MAX_DEPTH then Says(false)
    else if a.Null? || b.Null? then Says(a.Null? && b.Null?)
    else if a.Bool? || b.Bool? then Says(a.Bool? && b.Bool? && a.flag == b.flag)
    else if a.Str? && b.Str? then Says(t.normalize(a.text) == t.normalize(b.text))
    else if Numeric(a) && Numeric(b) then
      Says(if a.Int? && b.Int? then a.n == b.n else IsClose(AsReal(a), AsReal(b)))
    else if a.Str? && Structured(b) then SameText(t, a.text, t.write(b))
    else if b.Str? && Structured(a) then SameText(t, b.text, t.write(a))
    else if IsSequence(a) && IsSequence(b) then
      if |a.items| != |b.items| then Says(false) else AllItems(t, a.items, b.items, depth + 1)
    else if a.Dict? && b.Dict? then CompareDicts(t, a.fields, b.fields, depth)
    else if a.Model? && b.Model? then
      if a.cls != b.cls then Says(false) else CompareDumps(t, a.fields, b.fields, depth + 1)
    else Says(false)
  }

  /** Two dicts at a depth within the budget. */
  function CompareDicts(t: Text, a: Fields<Value>, b: Fields<Value>, depth: nat): Outcome
    requires depth <= MAX_DEPTH
    decreases MAX_DEPTH + 1 - depth, 0
  {
    if a.at.Keys != b.at.Keys then Says(false) else AllFields(t, a.order, a.at, b.at, depth + 1)
  }

  /** A model is compared by comparing its dump one level further down. */
  function CompareDumps(t: Text, a: Fields<Value>, b: Fields<Value>, depth: nat): Outcome
    requires depth <= MAX_DEPTH + 1
    decreases MAX_DEPTH + 1 - depth, 1
  {
    if depth > MAX_DEPTH then Says(false) else CompareDicts(t, a, b, depth)
  }

  /** `all` over pairs: the first answer that is not a plain yes is the answer. */
  function AllItems(t: Text, xs: seq<Value>, ys: seq<Value>, depth: nat): Outcome
    requires |xs| == |ys| && depth <= MAX_DEPTH + 1
    decreases MAX_DEPTH + 1 - depth, 2 + |xs|
  {
    if xs == [] then Says(true)
    else
      var first := Compare(t, xs[0], ys[0], depth);
      if first == Says(true) then AllItems(t, xs[1..], ys[1..], depth) else first
  }

  function AllFields(t: Text, ks: seq<Label>, a: map<Label, Value>, b: map<Label, Value>, depth: nat): Outcome
    requires Within(ks, a) && Within(ks, b) && depth <= MAX_DEPTH + 1
    decreases MAX_DEPTH + 1 - depth, 2 + |ks|
  {
    if ks == [] then Says(true)
    else
      assert ks[0] in ks;
      var first := Compare(t, a[ks[0]], b[ks[0]], depth);
      if first == Says(true) then AllFields(t, ks[1..], a, b, depth) else first
  }

  predicate Within(ks: seq<Label>, m: map<Label, Value>) {
    forall k :: k in ks ==> k in m
  }

  /** An exception anywhere is a disagreement. */
  predicate Agree(t: Text, a: Value, b: Value, depth: nat) {
    Compare(t, a, b, depth) == Says(true)
  }

  predicate DefaultAgreement(t: Text, teacher: Value, adapter: Value) {
    Agree(t, teacher, adapter, 0)
  }

  /* What agreement means one level at a time. */

  ghost predicate FieldsAgree(t: Text, a: Fields<Value>, b: Fields<Value>, depth: nat) {
    a.at.Keys == b.at.Keys && forall k :: k in a.at ==> Agree(t, a.at[k], b.at[k], depth)
  }

  lemma {:induction false} AllItemsMeans(t: Text, xs: seq<Value>, ys: seq<Value>, depth: nat)
    requires |xs| == |ys| && depth <= MAX_DEPTH + 1
    ensures AllItems(t, xs, ys, depth) == Says(true) <==> (forall i :: 0 <= i < |xs| ==> Agree(t, xs[i], ys[i], depth))
    decreases |xs|
  {
    if xs != [] {
      var xs', ys' := xs[1..], ys[1..];
      AllItemsMeans(t, xs', ys', depth);
      assert Agree(t, xs[0], ys[0], depth) == (Compare(t, xs[0], ys[0], depth) == Says(true));
      if AllItems(t, xs, ys, depth) == Says(true) {
        forall i | 0 <= i < |xs| ensures Agree(t, xs[i], ys[i], depth) {
          if i > 0 { assert Agree(t, xs'[i - 1], ys'[i - 1], depth); }
        }
      } else if Agree(t, xs[0], ys[0], depth) {
        var i :| 0 <= i < |xs'| && !Agree(t, xs'[i], ys'[i], depth);
        assert !Agree(t, xs[i + 1], ys[i + 1], depth);
      }
    }
  }

  lemma {:induction false} AllFieldsMeans(t: Text, ks: seq<Label>, a: map<Label, Value>, b: map<Label, Value>, depth: nat)
    requires Within(ks, a) && Within(ks, b) && depth <= MAX_DEPTH + 1
    ensures AllFields(t, ks, a, b, depth) == Says(true) <==> (forall k :: k in ks ==> Agree(t, a[k], b[k], depth))
    decreases |ks|
  {
    if ks != [] {
      assert ks[0] in ks;
      AllFieldsMeans(t, ks[1..], a, b, depth);
      forall k ensures k in ks <==> k == ks[0] || k in ks[1..] {}
    }
  }

  lemma DictFieldsMean(t: Text, a: Fields<Value>, b: Fields<Value>, depth: nat)
    requires depth <= MAX_DEPTH
    ensures CompareDicts(t, a, b, depth) == Says(true) <==> FieldsAgree(t, a, b, depth + 1)
  {
    if a.at.Keys == b.at.Keys { AllFieldsMeans(t, a.order, a.at, b.at, depth + 1); }
  }

  ghost predicate ItemsAgree(t: Text, xs: seq<Value>, ys: seq<Value>, depth: nat) {
    |xs| == |ys| && forall i :: 0 <= i < |xs| ==> Agree(t, xs[i], ys[i], depth)
  }

  lemma SequencesMean(t: Text, a: Value, b: Value, depth: nat)
    requires IsSequence(a) && IsSequence(b)
    ensures Agree(t, a, b, depth) <==> depth <= MAX_DEPTH && ItemsAgree(t, a.items, b.items, depth + 1)
  {
    if depth <= MAX_DEPTH && |a.items| == |b.items| { AllItemsMeans(t, a.items, b.items, depth + 1); }
  }

  lemma DictsMean(t: Text, a: Value, b: Value, depth: nat)
    requires a.Dict? && b.Dict?
    ensures Agree(t, a, b, depth) <==> depth <= MAX_DEPTH && FieldsAgree(t, a.fields, b.fields, depth + 1)
  {
    if depth <= MAX_DEPTH { DictFieldsMean(t, a.fields, b.fields, depth); }
  }

  lemma DumpsMean(t: Text, a: Fields<Value>, b: Fields<Value>, depth: nat)
    requires depth <= MAX_DEPTH + 1
    ensures CompareDumps(t, a, b, depth) == Says(true) <==> depth <= MAX_DEPTH && FieldsAgree(t, a, b, depth + 1)
  {
    if depth <= MAX_DEPTH { DictFieldsMean(t, a, b, depth); }
  }

  lemma ModelsMean(t: Text, a: Value, b: Value, depth: nat)
    requires a.Model? && b.Model? && depth <= MAX_DEPTH
    ensures Agree(t, a, b, depth)
            <==> depth < MAX_DEPTH && a.cls == b.cls && FieldsAgree(t, a.fields, b.fields, depth + 2)
  {
    DumpsMean(t, a.fields, b.fields, depth + 1);
  }

  predicate BothSequences(a: Value, b: Value) { IsSequence(a) && IsSequence(b) }

  predicate BothKeyed(a: Value, b: Value) { (a.Dict? && b.Dict?) || (a.Model? && b.Model?) }

  /* Symmetry. */

  /** The order of the arguments never matters, although which exception or which
      difference is met first may. */
  lemma {:induction false} Symmetric(t: Text, a: Value, b: Value, depth: nat)
    ensures Agree(t, a, b, depth) <==> Agree(t, b, a, depth)
    decreases MAX_DEPTH + 1 - depth, 1
  {
    if depth <= MAX_DEPTH {
      if BothSequences(a, b) {
        SequencesMean(t, a, b, depth);
        SequencesMean(t, b, a, depth);
        if |a.items| == |b.items| {
          forall i | 0 <= i < |a.items|
            ensures Agree(t, a.items[i], b.items[i], depth + 1) <==> Agree(t, b.items[i], a.items[i], depth + 1)
          {
            Symmetric(t, a.items[i], b.items[i], depth + 1);
          }
        }
      } else if a.Dict? && b.Dict? {
        SymmetricDicts(t, a, b, depth);
      } else if a.Model? && b.Model? {
        SymmetricModels(t, a, b, depth);
      } else {
        SymmetricLeaves(t, a, b, depth);
      }
    }
  }

  lemma {:induction false} SymmetricDicts(t: Text, a: Value, b: Value, depth: nat)
    requires a.Dict? && b.Dict? && depth <= MAX_DEPTH
    ensures Agree(t, a, b, depth) <==> Agree(t, b, a, depth)
    decreases MAX_DEPTH + 1 - depth, 0
  {
    DictsMean(t, a, b, depth);
    DictsMean(t, b, a, depth);
    SymmetricFields(t, a.fields, b.fields, depth + 1);
  }

  lemma {:induction false} SymmetricModels(t: Text, a: Value, b: Value, depth: nat)
    requires a.Model? && b.Model? && depth <= MAX_DEPTH
    ensures Agree(t, a, b, depth) <==> Agree(t, b, a, depth)
    decreases MAX_DEPTH + 1 - depth, 0
  {
    ModelsMean(t, a, b, depth);
    ModelsMean(t, b, a, depth);
    if depth < MAX_DEPTH { SymmetricFields(t, a.fields, b.fields, depth + 2); }
  }

  lemma {:induction false} SymmetricFields(t: Text, a: Fields<Value>, b: Fields<Value>, depth: nat)
    requires depth <= MAX_DEPTH + 1
    ensures FieldsAgree(t, a, b, depth) <==> FieldsAgree(t, b, a, depth)
    decreases MAX_DEPTH + 1 - depth, 2
  {
    forall k | k in a.at && k in b.at
      ensures Agree(t, a.at[k], b.at[k], depth) <==> Agree(t, b.at[k], a.at[k], depth)
    {
      Symmetric(t, a.at[k], b.at[k], depth);
    }
  }

  lemma SymmetricLeaves(t: Text, a: Value, b: Value, depth: nat)
    requires !BothSequences(a, b) && !BothKeyed(a, b)
    ensures Agree(t, a, b, depth) <==> Agree(t, b, a, depth)
  {
  }

  /* Depth. */

  /** A larger remaining budget never loses an agreement. */
  lemma {:induction false} DepthMonotone(t: Text, a: Value, b: Value, depth: nat, less: nat)
    requires Agree(t, a, b, depth) && less <= depth
    ensures Agree(t, a, b, less)
    decreases MAX_DEPTH + 1 - depth, 1
  {
    if BothSequences(a, b) {
      SequencesMean(t, a, b, depth);
      SequencesMean(t, a, b, less);
      forall i | 0 <= i < |a.items| ensures Agree(t, a.items[i], b.items[i], less + 1) {
        DepthMonotone(t, a.items[i], b.items[i], depth + 1, less + 1);
      }
    } else if BothKeyed(a, b) {
      MonotoneKeyed(t, a, b, depth, less);
    } else {
      MonotoneLeaves(t, a, b, depth, less);
    }
  }

  lemma {:induction false} MonotoneKeyed(t: Text, a: Value, b: Value, depth: nat, less: nat)
    requires Agree(t, a, b, depth) && less <= depth <= MAX_DEPTH && BothKeyed(a, b)
    ensures Agree(t, a, b, less)
    decreases MAX_DEPTH + 1 - depth, 0
  {
    if a.Dict? {
      DictsMean(t, a, b, depth);
      DictsMean(t, a, b, less);
      MonotoneFields(t, a.fields, b.fields, depth + 1, less + 1);
    } else {
      ModelsMean(t, a, b, depth);
      ModelsMean(t, a, b, less);
      MonotoneFields(t, a.fields, b.fields, depth + 2, less + 2);
    }
  }

  lemma {:induction false} MonotoneFields(t: Text, a: Fields<Value>, b: Fields<Value>, depth: nat, less: nat)
    requires FieldsAgree(t, a, b, depth) && less <= depth <= MAX_DEPTH + 1
    ensures FieldsAgree(t, a, b, less)
    decreases MAX_DEPTH + 1 - depth, 2
  {
    forall k | k in a.at ensures Agree(t, a.at[k], b.at[k], less) {
      DepthMonotone(t, a.at[k], b.at[k], depth, less);
    }
  }

  lemma MonotoneLeaves(t: Text, a: Value, b: Value, depth: nat, less: nat)
    requires !BothSequences(a, b) && !BothKeyed(a, b) && Agree(t, a, b, depth) && less <= depth
    ensures Agree(t, a, b, less)
  {
  }

  /* Agreement refines equality of normal forms. */

  datatype Normal =
    | NNull
    | NBool(flag: bool)
    | NInt(n: int)
    | NStr(text: Label)
    | NList(items: seq<Normal>)
    | NDict(fields: map<Label, Normal>)
    | NModel(cls: nat, fields: map<Label, Normal>)

  /** Built from null, flags, ints, texts, lists, tuples, dicts and models only. */
  predicate Exact(v: Value)
    decreases v
  {
    match v
    case Float(_) => false
    case Other(_) => false
    case List(items) => forall i :: 0 <= i < |items| ==> Exact(items[i])
    case Tuple(items) => forall i :: 0 <= i < |items| ==> Exact(items[i])
    case Dict(f) => forall k :: k in f.at ==> Exact(f.at[k])
    case Model(_, f) => forall k :: k in f.at ==> Exact(f.at[k])
    case _ => true
  }

  function NormalForm(t: Text, v: Value): Normal
    requires Exact(v)
    decreases v
  {
    match v
    case Null => NNull
    case Bool(x) => NBool(x)
    case Int(n) => NInt(n)
    case Str(x) => NStr(t.normalize(x))
    case List(items) => NList(NormalSeq(t, items))
    case Tuple(items) => NList(NormalSeq(t, items))
    case Dict(f) => NDict(NormalMap(t, f))
    case Model(c, f) => NModel(c, NormalMap(t, f))
  }

  function NormalSeq(t: Text, xs: seq<Value>): seq<Normal>
    requires forall i :: 0 <= i < |xs| ==> Exact(xs[i])
    decreases xs
  {
    seq(|xs|, i requires 0 <= i < |xs| => NormalForm(t, xs[i]))
  }

  function NormalMap(t: Text, f: Fields<Value>): map<Label, Normal>
    requires forall k :: k in f.at ==> Exact(f.at[k])
    decreases f
  {
    map k | k in f.at :: NormalForm(t, f.at[k])
  }

  /** Nested at most `n` levels deep; a model takes one level more than a dict. */
  predicate Fits(v: Value, n: int)
    decreases v
  {
    n >= 0 &&
    match v
    case List(items) => forall i :: 0 <= i < |items| ==> Fits(items[i], n - 1)
    case Tuple(items) => forall i :: 0 <= i < |items| ==> Fits(items[i], n - 1)
    case Dict(f) => forall k :: k in f.at ==> Fits(f.at[k], n - 1)
    case Model(_, f) => n >= 1 && forall k :: k in f.at ==> Fits(f.at[k], n - 2)
    case _ => true
  }

  /** Nowhere does a text stand opposite a structure. */
  predicate TextsMatchTexts(a: Value, b: Value)
    decreases a
  {
    && !(a.Str? && Structured(b))
    && !(b.Str? && Structured(a))
    && (BothSequences(a, b) && |a.items| == |b.items| ==>
          forall i :: 0 <= i < |a.items| ==> TextsMatchTexts(a.items[i], b.items[i]))
    && (BothKeyed(a, b) && a.fields.at.Keys == b.fields.at.Keys ==>
          forall k :: k in a.fields.at ==> TextsMatchTexts(a.fields.at[k], b.fields.at[k]))
  }

  /** Where no text stands opposite a structure, two answers agree exactly when their
      normal forms are equal and their nesting is within the budget. */
  lemma {:induction false} AgreementIsNormalEquality(t: Text, a: Value, b: Value, depth: nat)
    requires Exact(a) && Exact(b) && TextsMatchTexts(a, b)
    ensures Agree(t, a, b, depth) <==> NormalForm(t, a) == NormalForm(t, b) && Fits(a, MAX_DEPTH - depth)
    decreases a, 1
  {
    if BothSequences(a, b) {
      NormalItems(t, a, b, depth);
    } else if a.Dict? && b.Dict? {
      NormalDicts(t, a, b, depth);
    } else if a.Model? && b.Model? {
      NormalModels(t, a, b, depth);
    } else {
      NormalLeaves(t, a, b, depth);
    }
  }

  lemma {:induction false} NormalDicts(t: Text, a: Value, b: Value, depth: nat)
    requires Exact(a) && Exact(b) && TextsMatchTexts(a, b) && a.Dict? && b.Dict?
    ensures Agree(t, a, b, depth) <==> NormalForm(t, a) == NormalForm(t, b) && Fits(a, MAX_DEPTH - depth)
    decreases a, 0, 2
  {
    DictsByFields(t, a, b, depth);
    KeyedFits(a, MAX_DEPTH - depth);
  }

  lemma {:induction false} DictsByFields(t: Text, a: Value, b: Value, depth: nat)
    requires Exact(a) && Exact(b) && TextsMatchTexts(a, b) && a.Dict? && b.Dict?
    ensures Agree(t, a, b, depth)
            <==> depth <= MAX_DEPTH && NormalMap(t, a.fields) == NormalMap(t, b.fields)
                 && FieldsFit(a.fields, MAX_DEPTH - depth - 1)
    decreases a, 0, 1
  {
    var same := FieldsAgree(t, a.fields, b.fields, depth + 1);
    NormalFields(t, a, b, depth + 1);
    if same {
      DictsMean(t, a, b, depth);
    } else {
      DictsMean(t, a, b, depth);
    }
  }

  lemma {:induction false} NormalModels(t: Text, a: Value, b: Value, depth: nat)
    requires Exact(a) && Exact(b) && TextsMatchTexts(a, b) && a.Model? && b.Model?
    ensures Agree(t, a, b, depth) <==> NormalForm(t, a) == NormalForm(t, b) && Fits(a, MAX_DEPTH - depth)
    decreases a, 0, 2
  {
    ModelsByFields(t, a, b, depth);
    KeyedFits(a, MAX_DEPTH - depth);
  }

  lemma {:induction false} ModelsByFields(t: Text, a: Value, b: Value, depth: nat)
    requires Exact(a) && Exact(b) && TextsMatchTexts(a, b) && a.Model? && b.Model?
    ensures Agree(t, a, b, depth)
            <==> depth < MAX_DEPTH && a.cls == b.cls && NormalMap(t, a.fields) == NormalMap(t, b.fields)
                 && FieldsFit(a.fields, MAX_DEPTH - depth - 2)
    decreases a, 0, 1
  {
    if depth < MAX_DEPTH && a.cls == b.cls {
      NormalFields(t, a, b, depth + 2);
      if FieldsAgree(t, a.fields, b.fields, depth + 2) {
        ModelsAgree(t, a, b, depth);
      } else {
        ModelsDiffer(t, a, b, depth);
      }
    } else {
      ModelsDiffer(t, a, b, depth);
    }
  }

  lemma ModelsAgree(t: Text, a: Value, b: Value, depth: nat)
    requires a.Model? && b.Model? && depth < MAX_DEPTH && a.cls == b.cls && FieldsAgree(t, a.fields, b.fields, depth + 2)
    ensures Agree(t, a, b, depth)
  {
    ModelsMean(t, a, b, depth);
  }

  lemma ModelsDiffer(t: Text, a: Value, b: Value, depth: nat)
    requires a.Model? && b.Model?
    requires !(depth < MAX_DEPTH && a.cls == b.cls && FieldsAgree(t, a.fields, b.fields, depth + 2))
    ensures !Agree(t, a, b, depth)
  {
    if depth <= MAX_DEPTH { ModelsMean(t, a, b, depth); }
  }

  lemma NormalLeaves(t: Text, a: Value, b: Value, depth: nat)
    requires Exact(a) && Exact(b) && TextsMatchTexts(a, b)
    requires !BothSequences(a, b) && !BothKeyed(a, b)
    ensures Agree(t, a, b, depth) <==> NormalForm(t, a) == NormalForm(t, b) && Fits(a, MAX_DEPTH - depth)
  {
  }

  lemma KeyedFits(v: Value, n: int)
    requires v.Dict? || v.Model?
    ensures Fits(v, n) <==> n >= (if v.Dict? then 0 else 1) && FieldsFit(v.fields, if v.Dict? then n - 1 else n - 2)
  {
  }

  ghost predicate FieldsFit(f: Fields<Value>, n: int) {
    forall k :: k in f.at ==> Fits(f.at[k], n)
  }

  lemma {:induction false} NormalFields(t: Text, a: Value, b: Value, depth: nat)
    requires Exact(a) && Exact(b) && TextsMatchTexts(a, b) && BothKeyed(a, b)
    ensures FieldsAgree(t, a.fields, b.fields, depth)
            <==> NormalMap(t, a.fields) == NormalMap(t, b.fields) && FieldsFit(a.fields, MAX_DEPTH - depth)
    decreases a, 0, 0
  {
    var x, y := a.fields.at, b.fields.at;
    var nx, ny := NormalMap(t, a.fields), NormalMap(t, b.fields);
    assert nx.Keys == x.Keys && ny.Keys == y.Keys;
    if x.Keys == y.Keys {
      forall k | k in x
        ensures Agree(t, x[k], y[k], depth) <==> nx[k] == ny[k] && Fits(x[k], MAX_DEPTH - depth)
      {
        AgreementIsNormalEquality(t, x[k], y[k], depth);
      }
    }
  }

  lemma NormalSeqEqual(t: Text, xs: seq<Value>, ys: seq<Value>)
    requires forall i :: 0 <= i < |xs| ==> Exact(xs[i])
    requires forall i :: 0 <= i < |ys| ==> Exact(ys[i])
    ensures NormalSeq(t, xs) == NormalSeq(t, ys)
            <==> |xs| == |ys| && forall i :: 0 <= i < |xs| ==> NormalForm(t, xs[i]) == NormalForm(t, ys[i])
  {
    var nx, ny := NormalSeq(t, xs), NormalSeq(t, ys);
    if nx == ny {
      forall i | 0 <= i < |xs| ensures NormalForm(t, xs[i]) == NormalForm(t, ys[i]) {
        assert nx[i] == ny[i];
      }
    }
  }

  lemma {:induction false} NormalItems(t: Text, a: Value, b: Value, depth: nat)
    requires Exact(a) && Exact(b) && TextsMatchTexts(a, b) && BothSequences(a, b)
    ensures Agree(t, a, b, depth) <==> NormalForm(t, a) == NormalForm(t, b) && Fits(a, MAX_DEPTH - depth)
    decreases a, 0, 1
  {
    SequencesMean(t, a, b, depth);
    NormalItemsSide(t, a, b, depth);
  }

  lemma {:induction false} NormalItemsSide(t: Text, a: Value, b: Value, depth: nat)
    requires Exact(a) && Exact(b) && TextsMatchTexts(a, b) && BothSequences(a, b)
    ensures depth <= MAX_DEPTH && ItemsAgree(t, a.items, b.items, depth + 1)
            <==> NormalForm(t, a) == NormalForm(t, b) && Fits(a, MAX_DEPTH - depth)
    decreases a, 0, 0
  {
    NormalSeqEqual(t, a.items, b.items);
    if |a.items| == |b.items| {
      forall i | 0 <= i < |a.items|
        ensures Agree(t, a.items[i], b.items[i], depth + 1)
                <==> NormalForm(t, a.items[i]) == NormalForm(t, b.items[i]) && Fits(a.items[i], MAX_DEPTH - (depth + 1))
      {
        AgreementIsNormalEquality(t, a.items[i], b.items[i], depth + 1);
      }
    }
  }

  lemma {:induction false} OwnTextsMatch(a: Value)
    ensures TextsMatchTexts(a, a)
    decreases a
  {
    if IsSequence(a) {
      forall i | 0 <= i < |a.items| ensures TextsMatchTexts(a.items[i], a.items[i]) { OwnTextsMatch(a.items[i]); }
    } else if a.Dict? || a.Model? {
      forall k | k in a.fields.at ensures TextsMatchTexts(a.fields.at[k], a.fields.at[k]) {
        OwnTextsMatch(a.fields.at[k]);
      }
    }
  }

  /** An exact answer agrees with itself exactly when it is not nested too deeply. */
  lemma AgreesWithItself(t: Text, a: Value)
    requires Exact(a)
    ensures DefaultAgreement(t, a, a) <==> Fits(a, MAX_DEPTH)
  {
    OwnTextsMatch(a);
    AgreementIsNormalEquality(t, a, a, 0);
  }

  /* Tolerances on named fields. */

  /** The fields of a dict or a model; anything else has none. */
  predicate HasFields(v: Value) { v.Dict? || v.Model? }

  predicate FieldOk(t: Text, tolerances: map<Label, real>, k: Label, x: Value, y: Value) {
    if k in tolerances && !x.Bool? && !y.Bool? && Numeric(x) && Numeric(y)
    then Abs(AsReal(x) - AsReal(y)) <= tolerances[k]
    else DefaultAgreement(t, x, y)
  }

  predicate AllFieldsOk(t: Text, tolerances: map<Label, real>, ks: seq<Label>, a: map<Label, Value>, b: map<Label, Value>)
    requires Within(ks, a) && Within(ks, b)
  {
    if ks == [] then true
    else
      assert ks[0] in ks;
      FieldOk(t, tolerances, ks[0], a[ks[0]], b[ks[0]]) && AllFieldsOk(t, tolerances, ks[1..], a, b)
  }

  /** With the default comparison as the base.  A model and a dict with the same keys
      are compared field by field here, although the default tells them apart. */
  predicate ToleranceAgreement(t: Text, tolerances: map<Label, real>, teacher: Value, adapter: Value) {
    if !HasFields(teacher) || !HasFields(adapter) then DefaultAgreement(t, teacher, adapter)
    else if teacher.Model? && adapter.Model? && teacher.cls != adapter.cls then false
    else if teacher.fields.at.Keys != adapter.fields.at.Keys then false
    else AllFieldsOk(t, tolerances, teacher.fields.order, teacher.fields.at, adapter.fields.at)
  }

  lemma {:induction false} AllFieldsOkMeans(t: Text, tol: map<Label, real>, ks: seq<Label>,
                                            a: map<Label, Value>, b: map<Label, Value>)
    requires Within(ks, a) && Within(ks, b)
    ensures AllFieldsOk(t, tol, ks, a, b) <==> (forall k :: k in ks ==> FieldOk(t, tol, k, a[k], b[k]))
  {
    if ks != [] {
      assert ks[0] in ks;
      AllFieldsOkMeans(t, tol, ks[1..], a, b);
      forall k ensures k in ks <==> k == ks[0] || k in ks[1..] {}
    }
  }

  ghost predicate SameShape(a: Value, b: Value) {
    && HasFields(a) && HasFields(b)
    && (a.Model? && b.Model? ==> a.cls == b.cls)
    && a.fields.at.Keys == b.fields.at.Keys
  }

  lemma ToleranceMeans(t: Text, tol: map<Label, real>, a: Value, b: Value)
    requires HasFields(a) && HasFields(b)
    ensures ToleranceAgreement(t, tol, a, b)
            <==> SameShape(a, b) && forall k :: k in a.fields.at ==> FieldOk(t, tol, k, a.fields.at[k], b.fields.at[k])
  {
    if SameShape(a, b) { AllFieldsOkMeans(t, tol, a.fields.order, a.fields.at, b.fields.at); }
  }

  /** The tolerated fields that hold two numbers differ by no more than allowed. */
  ghost predicate WithinTolerance(tol: map<Label, real>, a: Value, b: Value)
    requires SameShape(a, b)
  {
    forall k :: k in tol && k in a.fields.at ==>
      var x, y := a.fields.at[k], b.fields.at[k];
      Numeric(x) && Numeric(y) ==> Abs(AsReal(x) - AsReal(y)) <= tol[k]
  }

  /** Fields that agreed further down agree at the top. */
  lemma DefaultFields(t: Text, a: Value, b: Value)
    requires DefaultAgreement(t, a, b) && BothKeyed(a, b)
    ensures SameShape(a, b)
    ensures forall k :: k in a.fields.at ==> DefaultAgreement(t, a.fields.at[k], b.fields.at[k])
  {
    if a.Dict? {
      DictsMean(t, a, b, 0);
      MonotoneFields(t, a.fields, b.fields, 1, 0);
    } else {
      ModelsMean(t, a, b, 0);
      MonotoneFields(t, a.fields, b.fields, 2, 0);
    }
  }

  /** Where the default agrees, the tolerant form agrees exactly when the tolerated
      numbers are within tolerance. */
  lemma ToleranceWidens(t: Text, tol: map<Label, real>, a: Value, b: Value)
    requires DefaultAgreement(t, a, b) && BothKeyed(a, b)
    ensures SameShape(a, b)
    ensures ToleranceAgreement(t, tol, a, b) <==> WithinTolerance(tol, a, b)
  {
    DefaultFields(t, a, b);
    ToleranceMeans(t, tol, a, b);
  }

  predicate IntsWhereTolerated(tol: map<Label, real>, v: Value)
    requires HasFields(v)
  {
    forall k :: k in tol && k in v.fields.at ==> !v.fields.at[k].Float?
  }

  /** So on whole numbers a tolerance of zero or more never loses an agreement. */
  lemma ToleranceOnlyWidens(t: Text, tol: map<Label, real>, a: Value, b: Value)
    requires DefaultAgreement(t, a, b) && BothKeyed(a, b)
    requires forall k :: k in tol ==> tol[k] >= 0.0
    requires IntsWhereTolerated(tol, a) && IntsWhereTolerated(tol, b)
    ensures ToleranceAgreement(t, tol, a, b)
  {
    ToleranceWidens(t, tol, a, b);
    DefaultFields(t, a, b);
    forall k | k in tol && k in a.fields.at
      ensures var x, y := a.fields.at[k], b.fields.at[k];
              Numeric(x) && Numeric(y) ==> Abs(AsReal(x) - AsReal(y)) <= tol[k]
    {
      IntsAgreeExactly(t, a.fields.at[k], b.fields.at[k]);
    }
  }

  lemma IntsAgreeExactly(t: Text, x: Value, y: Value)
    requires DefaultAgreement(t, x, y)
    ensures x.Int? && y.Int? ==> x.n == y.n
  {
  }

  /** On floats it can: the default's relative tolerance may exceed the named one. */
  lemma FloatsCanNarrow(t: Text, k: Label)
    ensures var a := Dict(Entries([k], map[k := Float(10000000000.0)]));
            var b := Dict(Entries([k], map[k := Float(10000000001.0)]));
            DefaultAgreement(t, a, b) && !ToleranceAgreement(t, map[k := 0.0], a, b)
  {
    var x, y := Float(10000000000.0), Float(10000000001.0);
    var f, g := Entries([k], map[k := x]), Entries([k], map[k := y]);
    assert Agree(t, x, y, 1);
    DictsMean(t, Dict(f), Dict(g), 0);
    ToleranceWidens(t, map[k := 0.0], Dict(f), Dict(g));
    assert k in f.at;
  }

  /** Raising tolerances keeps every agreement. */
  lemma LargerTolerances(t: Text, tol: map<Label, real>, more: map<Label, real>, a: Value, b: Value)
    requires tol.Keys == more.Keys && forall k :: k in tol ==> tol[k] <= more[k]
    requires ToleranceAgreement(t, tol, a, b)
    ensures ToleranceAgreement(t, more, a, b)
  {
    if HasFields(a) && HasFields(b) {
      ToleranceMeans(t, tol, a, b);
      ToleranceMeans(t, more, a, b);
      forall k | k in a.fields.at ensures FieldOk(t, more, k, a.fields.at[k], b.fields.at[k]) {
        assert FieldOk(t, tol, k, a.fields.at[k], b.fields.at[k]);
      }
    }
  }

  /** A tolerant agreement bounds every tolerated difference, and every other field
      agrees by default. */
  lemma AgreementBounds(t: Text, tol: map<Label, real>, a: Value, b: Value, k: Label)
    requires ToleranceAgreement(t, tol, a, b) && HasFields(a) && HasFields(b) && k in a.fields.at
    ensures SameShape(a, b)
    ensures var x, y := a.fields.at[k], b.fields.at[k];
            if k in tol && Numeric(x) && Numeric(y) then Abs(AsReal(x) - AsReal(y)) <= tol[k]
            else DefaultAgreement(t, x, y)
  {
    ToleranceMeans(t, tol, a, b);
  }

  /** Two answers of one shape agree tolerantly exactly when every tolerated pair of
      numbers, flags not counted, is within its tolerance and every other pair of fields
      agrees by default; without fields on both sides tolerances do not matter. */
  lemma ToleranceIsFieldwise(t: Text, tol: map<Label, real>, a: Value, b: Value)
    ensures HasFields(a) && HasFields(b) ==>
              (ToleranceAgreement(t, tol, a, b)
               <==> && SameShape(a, b)
                    && (forall k :: k in a.fields.at && k in tol && Numeric(a.fields.at[k]) && Numeric(b.fields.at[k]) ==>
                          -tol[k] <= AsReal(a.fields.at[k]) - AsReal(b.fields.at[k]) <= tol[k])
                    && (forall k :: k in a.fields.at && !(k in tol && Numeric(a.fields.at[k]) && Numeric(b.fields.at[k])) ==>
                          DefaultAgreement(t, a.fields.at[k], b.fields.at[k])))
    ensures !HasFields(a) || !HasFields(b) ==> (ToleranceAgreement(t, tol, a, b) <==> DefaultAgreement(t, a, b))
  {
    if HasFields(a) && HasFields(b) {
      ToleranceMeans(t, tol, a, b);
      if SameShape(a, b) {
        forall k | k in a.fields.at
          ensures var x, y := a.fields.at[k], b.fields.at[k];
                  FieldOk(t, tol, k, x, y) <==>
                    if k in tol && Numeric(x) && Numeric(y) then -tol[k] <= AsReal(x) - AsReal(y) <= tol[k]
                    else DefaultAgreement(t, x, y)
        {
        }
      }
    }
  }

  /** A tolerance admits what the default refuses: whole numbers in field `k` that differ,
      by no more than the tolerance, when every other field agrees by default. */
  lemma ToleranceAdmits(t: Text, tol: map<Label, real>, a: Value, b: Value, k: Label)
    requires SameShape(a, b) && k in a.fields.at && k in tol
    requires var x, y := a.fields.at[k], b.fields.at[k];
             x.Int? && y.Int? && x.n != y.n && -tol[k] <= (x.n - y.n) as real <= tol[k]
    requires forall j :: j in a.fields.at && j != k ==> FieldOk(t, tol, j, a.fields.at[j], b.fields.at[j])
    ensures ToleranceAgreement(t, tol, a, b) && !DefaultAgreement(t, a, b)
  {
    ToleranceMeans(t, tol, a, b);
    if DefaultAgreement(t, a, b) {
      if BothKeyed(a, b) {
        DefaultFields(t, a, b);
        IntsAgreeExactly(t, a.fields.at[k], b.fields.at[k]);
      }
      assert false;
    }
  }

  /** The documented use: with a tolerance on a whole-number field, two dicts of that one
      field agree exactly when the numbers are that close, and by default only when they
      are equal. */
  lemma OneNumberWithin(t: Text, k: Label, n: int, m: int, tolerance: real)
    ensures var a := Dict(Entries([k], map[k := Int(n)]));
            var b := Dict(Entries([k], map[k := Int(m)]));
            && (ToleranceAgreement(t, map[k := tolerance], a, b) <==> -tolerance <= (n - m) as real <= tolerance)
            && (DefaultAgreement(t, a, b) <==> n == m)
  {
    var f, g := Entries([k], map[k := Int(n)]), Entries([k], map[k := Int(m)]);
    var a, b := Dict(f), Dict(g);
    ToleranceIsFieldwise(t, map[k := tolerance], a, b);
    DictsMean(t, a, b, 0);
    assert k in f.at && Agree(t, f.at[k], g.at[k], 1) == (n == m);
  }

  /* Single answers. */

  /** Of two floats that differ the smaller is at least 999999999 parts in a thousand
      million of the larger, or they disagree; floats of different sign always do. */
  lemma FloatsAgreeToNineDigits(t: Text, x: real, y: real, depth: nat)
    requires depth <= MAX_DEPTH && x < y
    ensures 0.0 < x ==> (Agree(t, Float(x), Float(y), depth) <==> 999999999.0 * y <= 1000000000.0 * x)
    ensures y < 0.0 ==> (Agree(t, Float(x), Float(y), depth) <==> 1000000000.0 * y <= 999999999.0 * x)
    ensures x <= 0.0 <= y ==> !Agree(t, Float(x), Float(y), depth)
  {
  }

  /** A whole number beside a float is compared as one, and beside a flag never agrees. */
  lemma NumbersAreNotFlags(t: Text, n: int, v: Value, depth: nat)
    ensures v.Float? ==> (Agree(t, Int(n), v, depth) <==> Agree(t, Float(n as real), v, depth))
    ensures v.Bool? ==> !Agree(t, Int(n), v, depth)
    ensures v.Other? || v.Null? || v.Str? || Structured(v) ==> !Agree(t, Int(n), v, depth) && !Agree(t, v, Int(n), depth)
  {
  }

  /** A text agrees with a structure exactly when it agrees with what the structure is
      written as; one that cannot be written agrees with no text. */
  lemma TextOppositeStructure(t: Text, text: Label, v: Value, depth: nat)
    requires Structured(v)
    ensures Agree(t, Str(text), v, depth)
            <==> t.write(v).Wrote? && Agree(t, Str(text), Str(t.write(v).text), depth)
    ensures t.write(v).Wrote? && depth <= MAX_DEPTH ==> Agree(t, Str(t.write(v).text), v, depth)
  {
  }
}
