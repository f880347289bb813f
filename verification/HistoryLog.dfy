/** The lineage sidecar: appended to under `O_APPEND` and moved aside when the next line
    would take it past its cap, by any number of processes and without a lock.
 */
module HistoryLog {

  type Byte(==, !new)

  const CAP := 1048576

  datatype Option<T> = None | Some(value: T)

  /** Where a call of `append_history_entry` stands. */
  datatype Pc = Arrived | Full | Ready | Opened(file: nat) | Done(file: nat)

  datatype Call = Call(line: seq<Byte>, pc: Pc)

  /** `files[f]` is the content of inode `f`; `wrote[f]` lists the calls whose lines
      went into it, and `order` all calls in the order they wrote. */
  datatype State = State(
    live: Option<nat>,
    rotated: Option<nat>,
    files: seq<seq<Byte>>,
    calls: seq<Call>,
    wrote: seq<seq<nat>>,
    order: seq<nat>)

  datatype Action =
    | Arrive(line: seq<Byte>)
    | Size(i: nat)
    | Rotate(i: nat)
    | Open(i: nat)
    | Write(i: nat)

  const START := State(None, None, [], [], [], [])

  predicate At(s: State, i: nat, pc: Pc) {
    i < |s.calls| && s.calls[i].pc == pc
  }

  predicate Enabled(s: State, a: Action) {
    match a
    case Arrive(_) => true
    case Size(i) => At(s, i, Arrived)
    case Rotate(i) => At(s, i, Full)
    case Open(i) => At(s, i, Ready)
    case Write(i) =>
      i < |s.calls| && s.calls[i].pc.Opened? && s.calls[i].pc.file < |s.files| && |s.wrote| == |s.files|
  }

  function LiveSize(s: State): nat {
    if s.live.Some? && s.live.value < |s.files| then |s.files[s.live.value]| else 0
  }

  function SetPc(s: State, i: nat, pc: Pc): State
    requires i < |s.calls|
  {
    s.(calls := s.calls[i := s.calls[i].(pc := pc)])
  }

  /** With no file there is nothing to rotate. */
  function Sizing(s: State, i: nat): State
    requires i < |s.calls|
  {
    SetPc(s, i, if s.live.Some? && LiveSize(s) + |s.calls[i].line| > CAP then Full else Ready)
  }

  /** The live name moves over the rotated one, whatever it names by now. */
  function Rotating(s: State, i: nat): State
    requires i < |s.calls|
  {
    var t := SetPc(s, i, Ready);
    if s.live.Some? then t.(live := None, rotated := s.live) else t
  }

  function Opening(s: State, i: nat): State
    requires i < |s.calls|
  {
    if s.live.Some? then SetPc(s, i, Opened(s.live.value))
    else
      SetPc(s, i, Opened(|s.files|))
      .(live := Some(|s.files|), files := s.files + [[]], wrote := s.wrote + [[]])
  }

  /** One `write` at the end of the file the descriptor is open on. */
  function Writing(s: State, i: nat): State
    requires Enabled(s, Write(i))
  {
    var f := s.calls[i].pc.file;
    SetPc(s, i, Done(f))
    .(files := s.files[f := s.files[f] + s.calls[i].line],
      wrote := s.wrote[f := s.wrote[f] + [i]],
      order := s.order + [i])
  }

  function Apply(s: State, a: Action): State
    requires Enabled(s, a)
  {
    match a
    case Arrive(line) => s.(calls := s.calls + [Call(line, Arrived)])
    case Size(i) => Sizing(s, i)
    case Rotate(i) => Rotating(s, i)
    case Open(i) => Opening(s, i)
    case Write(i) => Writing(s, i)
  }

  predicate Runs(s: State, acts: seq<Action>)
    decreases |acts|
  {
    acts == [] || (Enabled(s, acts[0]) && Runs(Apply(s, acts[0]), acts[1..]))
  }

  function Exec(s: State, acts: seq<Action>): State
    requires Runs(s, acts)
    decreases |acts|
  {
    if acts == [] then s else Exec(Apply(s, acts[0]), acts[1..])
  }

  /* Whole lines, each in one file. */

  function Flat(calls: seq<Call>, ids: seq<nat>): seq<Byte>
    requires forall j :: 0 <= j < |ids| ==> ids[j] < |calls|
  {
    if ids == [] then [] else Flat(calls, ids[..|ids| - 1]) + calls[ids[|ids| - 1]].line
  }

  predicate Distinct(ids: seq<nat>) {
    forall i, j :: 0 <= i < j < |ids| ==> ids[i] != ids[j]
  }

  /** A file is the lines of distinct calls, whole and in the order they were written,
      and a call's line is in the file it ended with and no other. */
  ghost predicate FileOk(s: State, f: nat)
    requires f < |s.files| == |s.wrote|
  {
    && (forall j :: 0 <= j < |s.wrote[f]| ==> s.wrote[f][j] < |s.calls|)
    && s.files[f] == Flat(s.calls, s.wrote[f])
    && Distinct(s.wrote[f])
    && (forall i :: 0 <= i < |s.calls| ==> (i in s.wrote[f] <==> s.calls[i].pc == Done(f)))
  }

  ghost predicate Inv(s: State) {
    && |s.files| == |s.wrote|
    && (s.live.Some? ==> s.live.value < |s.files|)
    && (s.rotated.Some? ==> s.rotated.value < |s.files|)
    && (s.live.Some? && s.rotated.Some? ==> s.live.value != s.rotated.value)
    && (forall i :: 0 <= i < |s.calls| && (s.calls[i].pc.Opened? || s.calls[i].pc.Done?) ==> s.calls[i].pc.file < |s.files|)
    && (forall f :: 0 <= f < |s.files| ==> FileOk(s, f))
  }

  ghost predicate SameLines(a: seq<Call>, b: seq<Call>) {
    |a| <= |b| && forall i :: 0 <= i < |a| ==> b[i].line == a[i].line
  }

  lemma {:induction false} FlatSame(a: seq<Call>, b: seq<Call>, ids: seq<nat>)
    requires forall j :: 0 <= j < |ids| ==> ids[j] < |a|
    requires SameLines(a, b)
    ensures Flat(b, ids) == Flat(a, ids)
  {
    if ids != [] { FlatSame(a, b, ids[..|ids| - 1]); }
  }

  /** A step that neither writes nor changes which calls are done. */
  lemma FileStays(s: State, t: State, f: nat)
    requires |s.files| == |s.wrote| && f < |s.files| && FileOk(s, f)
    requires f < |t.files| == |t.wrote| && t.files[f] == s.files[f] && t.wrote[f] == s.wrote[f]
    requires SameLines(s.calls, t.calls)
    requires forall i :: 0 <= i < |t.calls| ==> (t.calls[i].pc == Done(f) <==> i < |s.calls| && s.calls[i].pc == Done(f))
    ensures FileOk(t, f)
  {
    FlatSame(s.calls, t.calls, s.wrote[f]);
    forall i | 0 <= i < |t.calls| ensures i in t.wrote[f] <==> t.calls[i].pc == Done(f) {
      if i >= |s.calls| && i in s.wrote[f] { assert false; }
    }
  }

  lemma WriteFile(s: State, i: nat)
    requires Inv(s) && Enabled(s, Write(i))
    ensures FileOk(Writing(s, i), s.calls[i].pc.file)
  {
    var f := s.calls[i].pc.file;
    var t := Writing(s, i);
    assert FileOk(s, f);
    var ids := s.wrote[f];
    FlatSame(s.calls, t.calls, ids);
    assert t.wrote[f][..|ids|] == ids;
    assert i !in ids;
    forall m | 0 <= m < |t.calls| ensures m in t.wrote[f] <==> t.calls[m].pc == Done(f) {
      assert m in t.wrote[f] <==> m in ids || m == i;
    }
  }

  lemma WriteInv(s: State, i: nat)
    requires Inv(s) && Enabled(s, Write(i))
    ensures Inv(Writing(s, i))
  {
    var t := Writing(s, i);
    forall f | 0 <= f < |t.files| ensures FileOk(t, f) {
      if f == s.calls[i].pc.file { WriteFile(s, i); } else { FileStays(s, t, f); }
    }
  }

  lemma OpenInv(s: State, i: nat)
    requires Inv(s) && Enabled(s, Open(i))
    ensures Inv(Opening(s, i))
  {
    var t := Opening(s, i);
    forall f | 0 <= f < |t.files| ensures FileOk(t, f) {
      if f < |s.files| {
        FileStays(s, t, f);
      } else {
        assert t.wrote[f] == [];
      }
    }
  }

  lemma StepInv(s: State, a: Action)
    requires Inv(s) && Enabled(s, a)
    ensures Inv(Apply(s, a))
  {
    if a.Write? {
      WriteInv(s, a.i);
    } else if a.Open? {
      OpenInv(s, a.i);
    } else {
      var t := Apply(s, a);
      forall f | 0 <= f < |t.files| ensures FileOk(t, f) { FileStays(s, t, f); }
    }
  }

  lemma {:induction false} RunInv(s: State, acts: seq<Action>)
    requires Inv(s) && Runs(s, acts)
    ensures Inv(Exec(s, acts))
    decreases |acts|
  {
    if acts != [] {
      StepInv(s, acts[0]);
      RunInv(Apply(s, acts[0]), acts[1..]);
    }
  }

  /** However many processes append and rotate at once, every file that still has a
      name is a sequence of whole lines of distinct calls, and no line is in two files. */
  lemma WholeLines(acts: seq<Action>, f: nat, g: nat)
    requires Runs(START, acts) && f < |Exec(START, acts).files| && g < |Exec(START, acts).files|
    ensures var t := Exec(START, acts);
            && |t.wrote| == |t.files| && FileOk(t, f) && FileOk(t, g)
            && (f != g ==> forall i :: i in t.wrote[f] ==> i !in t.wrote[g])
  {
    RunInv(START, acts);
    var t := Exec(START, acts);
    assert FileOk(t, f) && FileOk(t, g);
    if f != g {
      forall i | i in t.wrote[f] ensures i !in t.wrote[g] {
        assert t.calls[i].pc == Done(f);
      }
    }
  }

  /* How large a file can get. */

  /** Past its size check and not yet written. */
  predicate Underway(c: Call) { c.pc.Ready? || c.pc.Opened? }

  function Count(calls: seq<Call>): nat {
    if calls == [] then 0
    else Count(calls[..|calls| - 1]) + if Underway(calls[|calls| - 1]) then 1 else 0
  }

  /** Going to write to this file unless it is moved aside first. */
  predicate Aims(c: Call, live: Option<nat>, f: nat) {
    c.pc == Opened(f) || (c.pc == Ready && live == Some(f))
  }

  function Share(c: Call, live: Option<nat>, f: nat): nat {
    if Aims(c, live, f) then |c.line| else 0
  }

  function Pending(calls: seq<Call>, live: Option<nat>, f: nat): nat {
    if calls == [] then 0
    else Pending(calls[..|calls| - 1], live, f) + Share(calls[|calls| - 1], live, f)
  }

  predicate Short(calls: seq<Call>, l: nat) {
    forall i :: 0 <= i < |calls| ==> |calls[i].line| <= l
  }

  lemma Step(n: nat, l: nat)
    ensures (n + 1) * l == n * l + l
  {
  }

  lemma {:induction false} PendingBound(calls: seq<Call>, live: Option<nat>, f: nat, l: nat)
    requires Short(calls, l)
    ensures Pending(calls, live, f) <= Count(calls) * l
  {
    if calls != [] {
      PendingBound(calls[..|calls| - 1], live, f, l);
      Step(Count(calls[..|calls| - 1]), l);
    }
  }

  lemma {:induction false} PendingUpdate(calls: seq<Call>, i: nat, c: Call, live: Option<nat>, f: nat)
    requires i < |calls|
    ensures Pending(calls[i := c], live, f) == Pending(calls, live, f) - Share(calls[i], live, f) + Share(c, live, f)
    decreases |calls|
  {
    var n := |calls| - 1;
    if i < n {
      assert calls[i := c][..n] == calls[..n][i := c];
      PendingUpdate(calls[..n], i, c, live, f);
    } else {
      assert calls[i := c][..n] == calls[..n];
    }
  }

  lemma {:induction false} CountUpdate(calls: seq<Call>, i: nat, c: Call)
    requires i < |calls|
    ensures Count(calls[i := c]) + (if Underway(calls[i]) then 1 else 0) == Count(calls) + (if Underway(c) then 1 else 0)
    decreases |calls|
  {
    var n := |calls| - 1;
    if i < n {
      assert calls[i := c][..n] == calls[..n][i := c];
      CountUpdate(calls[..n], i, c);
    } else {
      assert calls[i := c][..n] == calls[..n];
    }
  }

  /** Without a live name, or with another one, only open descriptors aim at a file. */
  lemma {:induction false} PendingUnnamed(calls: seq<Call>, live: Option<nat>, other: Option<nat>, f: nat)
    requires other != Some(f)
    ensures Pending(calls, other, f) <= Pending(calls, live, f)
  {
    if calls != [] { PendingUnnamed(calls[..|calls| - 1], live, other, f); }
  }

  /** At most `m` calls are underway at once, each with a line of at most `l` bytes. */
  predicate Calm(s: State, m: nat, l: nat) {
    Count(s.calls) <= m && Short(s.calls, l)
  }

  predicate RunsCalmly(s: State, acts: seq<Action>, m: nat, l: nat)
    decreases |acts|
  {
    && Calm(s, m, l)
    && (acts == [] || (Enabled(s, acts[0]) && RunsCalmly(Apply(s, acts[0]), acts[1..], m, l)))
  }

  function Limit(m: nat, l: nat): nat
    requires m > 0
  {
    CAP + (m - 1) * l
  }

  ghost predicate Fits(s: State, f: nat, m: nat, l: nat)
    requires f < |s.files| && m > 0
  {
    |s.files[f]| + Pending(s.calls, s.live, f) <= Limit(m, l)
  }

  ghost predicate AllFit(s: State, m: nat, l: nat)
    requires m > 0
  {
    forall f :: 0 <= f < |s.files| ==> Fits(s, f, m, l)
  }

  lemma Fewer(a: nat, b: nat, l: nat)
    requires a <= b
    ensures a * l <= b * l
  {
  }

  lemma SizeFits(s: State, i: nat, m: nat, l: nat, f: nat)
    requires Inv(s) && Enabled(s, Size(i)) && m > 0 && AllFit(s, m, l) && Calm(s, m, l) && Calm(Sizing(s, i), m, l)
    requires f < |s.files|
    ensures Fits(Sizing(s, i), f, m, l)
  {
    var t := Sizing(s, i);
    var c := t.calls[i];
    assert Fits(s, f, m, l);
    PendingUpdate(s.calls, i, c, s.live, f);
    if Aims(c, s.live, f) {
      CountUpdate(s.calls, i, c);
      PendingBound(s.calls, s.live, f, l);
      Fewer(Count(s.calls), m - 1, l);
    }
  }

  lemma RotateFits(s: State, i: nat, m: nat, l: nat, f: nat)
    requires Inv(s) && Enabled(s, Rotate(i)) && m > 0 && AllFit(s, m, l) && f < |s.files|
    ensures Fits(Rotating(s, i), f, m, l)
  {
    assert Fits(s, f, m, l);
    var t := Rotating(s, i);
    PendingUpdate(s.calls, i, t.calls[i], t.live, f);
    PendingUnnamed(s.calls, s.live, t.live, f);
  }

  lemma OpenFits(s: State, i: nat, m: nat, l: nat, f: nat)
    requires Inv(s) && Enabled(s, Open(i)) && m > 0 && AllFit(s, m, l) && l <= CAP
    requires Calm(Opening(s, i), m, l) && f < |Opening(s, i).files|
    ensures Fits(Opening(s, i), f, m, l)
  {
    var t := Opening(s, i);
    if f < |s.files| {
      assert Fits(s, f, m, l);
      PendingUpdate(s.calls, i, t.calls[i], t.live, f);
      if s.live.None? { PendingUnnamed(s.calls, s.live, t.live, f); }
    } else {
      PendingBound(t.calls, t.live, f, l);
      Fewer(Count(t.calls), m, l);
      Step(m - 1, l);
    }
  }

  lemma WriteFits(s: State, i: nat, m: nat, l: nat, f: nat)
    requires Inv(s) && Enabled(s, Write(i)) && m > 0 && AllFit(s, m, l) && f < |s.files|
    ensures Fits(Writing(s, i), f, m, l)
  {
    assert Fits(s, f, m, l);
    PendingUpdate(s.calls, i, Writing(s, i).calls[i], s.live, f);
  }

  lemma ArriveFits(s: State, line: seq<Byte>, m: nat, l: nat, f: nat)
    requires m > 0 && AllFit(s, m, l) && f < |s.files|
    ensures Fits(Apply(s, Arrive(line)), f, m, l)
  {
    assert Fits(s, f, m, l);
    var t := Apply(s, Arrive(line));
    assert t.calls[..|s.calls|] == s.calls;
  }

  lemma StepFits(s: State, a: Action, m: nat, l: nat)
    requires Inv(s) && Enabled(s, a) && m > 0 && AllFit(s, m, l) && l <= CAP
    requires Calm(s, m, l) && Calm(Apply(s, a), m, l)
    ensures AllFit(Apply(s, a), m, l)
  {
    var t := Apply(s, a);
    forall f | 0 <= f < |t.files| ensures Fits(t, f, m, l) {
      match a
      case Arrive(line) => ArriveFits(s, line, m, l, f);
      case Size(i) => SizeFits(s, i, m, l, f);
      case Rotate(i) => RotateFits(s, i, m, l, f);
      case Open(i) => OpenFits(s, i, m, l, f);
      case Write(i) => WriteFits(s, i, m, l, f);
    }
  }

  lemma {:induction false} RunFits(s: State, acts: seq<Action>, m: nat, l: nat)
    requires Inv(s) && m > 0 && l <= CAP && RunsCalmly(s, acts, m, l) && AllFit(s, m, l)
    ensures Runs(s, acts) && AllFit(Exec(s, acts), m, l)
    decreases |acts|
  {
    if acts != [] {
      StepInv(s, acts[0]);
      StepFits(s, acts[0], m, l);
      RunFits(Apply(s, acts[0]), acts[1..], m, l);
    }
  }

  /** No file ever holds more than the cap and one line for every other call that may be
      past its size check at the same time: the cap itself when calls come one by one. */
  lemma FilesStayBounded(acts: seq<Action>, m: nat, l: nat, f: nat)
    requires m > 0 && l <= CAP && RunsCalmly(START, acts, m, l)
    ensures Runs(START, acts)
    ensures f < |Exec(START, acts).files| ==> |Exec(START, acts).files[f]| <= CAP + (m - 1) * l
  {
    RunFits(START, acts, m, l);
    if f < |Exec(START, acts).files| { assert Fits(Exec(START, acts), f, m, l); }
  }

  /* One call after another. */

  /** A whole `append_history_entry` with nothing else running. */
  function Appending(s: State, line: seq<Byte>): State
    requires |s.files| == |s.wrote| && (s.live.Some? ==> s.live.value < |s.files|)
  {
    var i := |s.calls|;
    Writing(Opened1(s, line), i)
  }

  function Opened1(s: State, line: seq<Byte>): (t: State)
    requires |s.files| == |s.wrote| && (s.live.Some? ==> s.live.value < |s.files|)
    ensures Enabled(t, Write(|s.calls|))
  {
    var i := |s.calls|;
    var a := Sizing(Apply(s, Arrive(line)), i);
    Opening(if a.calls[i].pc == Full then Rotating(a, i) else a, i)
  }

  function Ids(s: State, name: Option<nat>): seq<nat> {
    if name.Some? && name.value < |s.wrote| then s.wrote[name.value] else []
  }

  /** The order in which the entries are read back: the rotated file, then the live one. */
  function Reading(s: State): seq<nat> {
    Ids(s, s.rotated) + Ids(s, s.live)
  }

  predicate IsSuffix(a: seq<nat>, b: seq<nat>) {
    |a| <= |b| && a == b[|b| - |a|..]
  }

  /** What is read back is an unbroken tail of everything ever appended, and the newest
      line is in the live file. */
  ghost predicate InOrder(s: State) {
    && Inv(s)
    && IsSuffix(Reading(s), s.order)
    && (s.live.None? ==> s.order == [] && s.rotated.None?)
    && (s.live.Some? ==> Ids(s, s.live) != [])
  }

  lemma SuffixSnoc(a: seq<nat>, b: seq<nat>, i: nat)
    requires IsSuffix(a, b)
    ensures IsSuffix(a + [i], b + [i])
  {
  }

  lemma TailSuffix(a: seq<nat>, b: seq<nat>, c: seq<nat>)
    requires IsSuffix(a + b, c)
    ensures IsSuffix(b, c)
  {
    assert c[|c| - |b|..] == (a + b)[|a|..];
  }

  predicate Rotates(s: State, line: seq<Byte>) {
    s.live.Some? && LiveSize(s) + |line| > CAP
  }

  lemma AppendingReads(s: State, line: seq<Byte>)
    requires Inv(s)
    ensures var t := Appending(s, line);
            && t.order == s.order + [|s.calls|]
            && t.live.Some?
            && Ids(t, t.live) == (if Rotates(s, line) then [] else Ids(s, s.live)) + [|s.calls|]
            && Ids(t, t.rotated) == if Rotates(s, line) then Ids(s, s.live) else Ids(s, s.rotated)
  {
  }

  lemma AppendingInv(s: State, line: seq<Byte>)
    requires Inv(s)
    ensures Inv(Appending(s, line))
  {
    var i := |s.calls|;
    StepInv(s, Arrive(line));
    var a := Apply(s, Arrive(line));
    StepInv(a, Size(i));
    var b := Sizing(a, i);
    if b.calls[i].pc == Full { StepInv(b, Rotate(i)); }
    var c := if b.calls[i].pc == Full then Rotating(b, i) else b;
    StepInv(c, Open(i));
    StepInv(Opening(c, i), Write(i));
  }

  lemma AppendingInOrder(s: State, line: seq<Byte>)
    requires InOrder(s)
    ensures InOrder(Appending(s, line))
  {
    var t, i := Appending(s, line), |s.calls|;
    AppendingInv(s, line);
    AppendingReads(s, line);
    if Rotates(s, line) {
      TailSuffix(Ids(s, s.rotated), Ids(s, s.live), s.order);
      SuffixSnoc(Ids(s, s.live), s.order, i);
    } else {
      SuffixSnoc(Reading(s), s.order, i);
      assert Reading(t) == Reading(s) + [i];
    }
  }

  function AppendAll(s: State, lines: seq<seq<Byte>>): (t: State)
    requires Inv(s)
    ensures Inv(t)
    decreases |lines|
  {
    if lines == [] then s
    else
      AppendingInv(s, lines[0]);
      AppendAll(Appending(s, lines[0]), lines[1..])
  }

  /** From an empty log, appending any lines one after another reads back an unbroken
      tail of them that ends with the newest. */
  lemma {:induction false} ReadsBackATail(s: State, lines: seq<seq<Byte>>)
    requires InOrder(s)
    ensures var t := AppendAll(s, lines);
            && InOrder(t)
            && (lines != [] ==> Ids(t, t.live) != [] && t.order != []
                                && Ids(t, t.live)[|Ids(t, t.live)| - 1] == t.order[|t.order| - 1])
    decreases |lines|
  {
    if lines != [] {
      AppendingInOrder(s, lines[0]);
      var s' := Appending(s, lines[0]);
      AppendingReads(s, lines[0]);
      ReadsBackATail(s', lines[1..]);
      LastIsNewest(s');
    }
  }

  lemma LastIsNewest(s: State)
    requires InOrder(s) && s.live.Some?
    ensures Ids(s, s.live) != [] && s.order != [] && Ids(s, s.live)[|Ids(s, s.live)| - 1] == s.order[|s.order| - 1]
  {
    var r := Reading(s);
    assert r[|r| - 1] == s.order[|s.order| - 1];
  }

  /** One append, alone, is a run of the machine. */
  lemma AppendingIsARun(s: State, line: seq<Byte>, m: nat, l: nat) returns (acts: seq<Action>)
    requires Inv(s) && Count(s.calls) == 0 && Short(s.calls, l) && |line| <= l && m > 0
    ensures RunsCalmly(s, acts, m, l) && Runs(s, acts) && Exec(s, acts) == Appending(s, line)
    ensures Count(Appending(s, line).calls) == 0 && Short(Appending(s, line).calls, l)
  {
    var i := |s.calls|;
    var a := Apply(s, Arrive(line));
    assert a.calls[..i] == s.calls;
    var b := Sizing(a, i);
    var rest := OpensAndWrites(if b.calls[i].pc == Full then Rotating(b, i) else b, a, m, l);
    OneUnderway(a, b.calls[i]);
    assert b.calls == a.calls[i := b.calls[i]];
    if b.calls[i].pc == Full {
      CalmStep(b, Rotate(i), rest, m, l);
      rest := [Rotate(i)] + rest;
    }
    CalmStep(a, Size(i), rest, m, l);
    CalmStep(s, Arrive(line), [Size(i)] + rest, m, l);
    acts := [Arrive(line)] + ([Size(i)] + rest);
  }

  /** From past the size check on; `a` is the state in which the call arrived. */
  lemma OpensAndWrites(c: State, a: State, m: nat, l: nat) returns (acts: seq<Action>)
    requires a.calls != [] && a.calls[|a.calls| - 1].pc == Arrived && Count(a.calls) == 0 && Short(a.calls, l) && m > 0
    requires var i := |a.calls| - 1; c.calls == a.calls[i := a.calls[i].(pc := Ready)]
    requires |c.files| == |c.wrote| && (c.live.Some? ==> c.live.value < |c.files|)
    ensures RunsCalmly(c, acts, m, l) && Runs(c, acts)
    ensures var i := |a.calls| - 1;
            && Exec(c, acts) == Writing(Opening(c, i), i)
            && Count(Exec(c, acts).calls) == 0 && Short(Exec(c, acts).calls, l)
  {
    var i := |a.calls| - 1;
    var d := Opening(c, i);
    var e := Writing(d, i);
    OneUnderway(a, c.calls[i]);
    OneUnderway(a, d.calls[i]);
    OneUnderway(a, e.calls[i]);
    assert d.calls == a.calls[i := d.calls[i]] && e.calls == a.calls[i := e.calls[i]];
    CalmCons(e, m, l);
    CalmStep(d, Write(i), [], m, l);
    CalmStep(c, Open(i), [Write(i)] + [], m, l);
    acts := [Open(i)] + ([Write(i)] + []);
  }

  lemma OneUnderway(a: State, c: Call)
    requires a.calls != [] && !Underway(a.calls[|a.calls| - 1]) && Count(a.calls) == 0
    ensures Count(a.calls[|a.calls| - 1 := c]) == if Underway(c) then 1 else 0
  {
    CountUpdate(a.calls, |a.calls| - 1, c);
  }

  lemma CalmCons(s: State, m: nat, l: nat)
    requires Calm(s, m, l)
    ensures RunsCalmly(s, [], m, l) && Runs(s, []) && Exec(s, []) == s
  {
  }

  lemma CalmStep(s: State, a: Action, rest: seq<Action>, m: nat, l: nat)
    requires Calm(s, m, l) && Enabled(s, a) && RunsCalmly(Apply(s, a), rest, m, l) && Runs(Apply(s, a), rest)
    ensures RunsCalmly(s, [a] + rest, m, l) && Runs(s, [a] + rest) && Exec(s, [a] + rest) == Exec(Apply(s, a), rest)
  {
    assert ([a] + rest)[1..] == rest;
  }

  lemma {:induction false} CalmOn(s: State, a: seq<Action>, b: seq<Action>, m: nat, l: nat)
    requires RunsCalmly(s, a, m, l) && Runs(s, a) && RunsCalmly(Exec(s, a), b, m, l) && Runs(Exec(s, a), b)
    ensures RunsCalmly(s, a + b, m, l) && Runs(s, a + b) && Exec(s, a + b) == Exec(Exec(s, a), b)
    decreases |a|
  {
    if a == [] {
      assert a + b == b;
    } else {
      assert (a + b)[1..] == a[1..] + b;
      CalmOn(Apply(s, a[0]), a[1..], b, m, l);
    }
  }

  lemma {:induction false} AppendAllIsARun(s: State, lines: seq<seq<Byte>>, l: nat) returns (acts: seq<Action>)
    requires Inv(s) && Count(s.calls) == 0 && Short(s.calls, l)
    requires forall i :: 0 <= i < |lines| ==> |lines[i]| <= l
    ensures RunsCalmly(s, acts, 1, l) && Runs(s, acts) && Exec(s, acts) == AppendAll(s, lines)
    decreases |lines|
  {
    if lines == [] {
      CalmCons(s, 1, l);
      acts := [];
    } else {
      var first := AppendingIsARun(s, lines[0], 1, l);
      AppendingInv(s, lines[0]);
      var rest := AppendAllIsARun(Appending(s, lines[0]), lines[1..], l);
      CalmOn(s, first, rest, 1, l);
      acts := first + rest;
    }
  }

  function SizeOf(s: State, name: Option<nat>): nat {
    if name.Some? && name.value < |s.files| then |s.files[name.value]| else 0
  }

  /** Appending lines that each fit under the cap, one after another, the two files
      together never hold more than twice the cap. */
  lemma TwiceTheCap(lines: seq<seq<Byte>>)
    requires forall i :: 0 <= i < |lines| ==> |lines[i]| <= CAP
    ensures var t := AppendAll(START, lines); SizeOf(t, t.live) + SizeOf(t, t.rotated) <= 2 * CAP
  {
    hide RunsCalmly;
    var acts := AppendAllIsARun(START, lines, CAP);
    var t := AppendAll(START, lines);
    if t.live.Some? { FilesStayBounded(acts, 1, CAP, t.live.value); }
    if t.rotated.Some? { FilesStayBounded(acts, 1, CAP, t.rotated.value); }
  }

  /* What is kept. */

  function Bytes(s: State, name: Option<nat>): seq<Byte> {
    if name.Some? && name.value < |s.files| then s.files[name.value] else []
  }

  function Concat(lines: seq<seq<Byte>>): seq<Byte> {
    if lines == [] then [] else Concat(lines[..|lines| - 1]) + lines[|lines| - 1]
  }

  /** One append only ever extends the live file, unless the line would take a file that
      is there past the cap: then that whole file becomes the rotated one and the line
      starts a new one. */
  lemma AppendRotatesOnlyPastTheCap(s: State, line: seq<Byte>)
    requires Inv(s)
    ensures var t := Appending(s, line);
            && t.live.Some?
            && if s.live.Some? && |Bytes(s, s.live)| + |line| > CAP then
                 t.rotated == s.live && Bytes(t, t.rotated) == Bytes(s, s.live) && Bytes(t, t.live) == line
               else
                 && t.rotated == s.rotated && Bytes(t, t.rotated) == Bytes(s, s.rotated)
                 && (s.live.Some? ==> t.live == s.live) && Bytes(t, t.live) == Bytes(s, s.live) + line
  {
  }

  /** The live file holds the lines from `k` on and the rotated one those from `j` to
      `k`; a generation ended only when its next line would have passed the cap. */
  ghost predicate Packed(s: State, lines: seq<seq<Byte>>, j: nat, k: nat) {
    && j <= k <= |lines|
    && Bytes(s, s.live) == Concat(lines[k..]) && Bytes(s, s.rotated) == Concat(lines[j..k])
    && (s.live.None? <==> lines == []) && (s.rotated.None? <==> k == 0)
    && (k > 0 ==> k < |lines| && |Concat(lines[j..k])| + |lines[k]| > CAP)
  }

  lemma ConcatSnoc(lines: seq<seq<Byte>>, k: nat, line: seq<Byte>)
    requires k <= |lines|
    ensures Concat((lines + [line])[k..]) == Concat(lines[k..]) + line
  {
    assert (lines + [line])[k..] == lines[k..] + [line];
    ConcatLast(lines[k..], line);
  }

  lemma StaysPacked(s: State, lines: seq<seq<Byte>>, line: seq<Byte>, j: nat, k: nat) returns (j': nat, k': nat)
    requires Inv(s) && Packed(s, lines, j, k)
    ensures Packed(Appending(s, line), lines + [line], j', k')
  {
    var all := lines + [line];
    AppendRotatesOnlyPastTheCap(s, line);
    if s.live.Some? && |Bytes(s, s.live)| + |line| > CAP {
      j', k' := k, |lines|;
      assert all[k'..] == [line] && [line][..0] == [] && all[j'..k'] == lines[k..];
    } else {
      j', k' := j, k;
      ConcatSnoc(lines, k, line);
      assert all[j..k] == lines[j..k];
    }
  }

  lemma {:induction false} RunStaysPacked(s: State, done: seq<seq<Byte>>, lines: seq<seq<Byte>>, j: nat, k: nat)
      returns (j': nat, k': nat)
    requires Inv(s) && Packed(s, done, j, k)
    ensures Packed(AppendAll(s, lines), done + lines, j', k')
    decreases |lines|
  {
    hide Packed, Appending;
    if lines == [] {
      j', k' := j, k;
      assert done + lines == done;
    } else {
      j', k' := StaysPacked(s, done, lines[0], j, k);
      AppendingInv(s, lines[0]);
      j', k' := RunStaysPacked(Appending(s, lines[0]), done + [lines[0]], lines[1..], j', k');
      assert done + [lines[0]] + lines[1..] == done + lines;
    }
  }

  /** Appending any lines to an empty log one after another: the live file holds the last
      of them and the rotated file the ones just before, byte for byte, and the live one
      was moved aside only when the next line would have taken it past the cap. */
  lemma GenerationsAreFull(lines: seq<seq<Byte>>) returns (j: nat, k: nat)
    ensures Packed(AppendAll(START, lines), lines, j, k)
  {
    assert Packed(START, [], 0, 0);
    j, k := RunStaysPacked(START, [], lines, 0, 0);
    assert [] + lines == lines;
  }

  lemma {:induction false} ConcatSplit(a: seq<seq<Byte>>, b: seq<seq<Byte>>)
    ensures Concat(a + b) == Concat(a) + Concat(b)
    decreases |b|
  {
    if b == [] {
      assert a + b == a;
    } else {
      assert (a + b)[..|a + b| - 1] == a + b[..|b| - 1];
      ConcatSplit(a, b[..|b| - 1]);
    }
  }

  lemma ConcatLast(lines: seq<seq<Byte>>, line: seq<Byte>)
    ensures Concat(lines + [line]) == Concat(lines) + line
  {
    assert (lines + [line])[..|lines|] == lines;
  }

  /** So lines that fit under the cap together are all kept in the live file. */
  lemma KeepsAllThatFits(lines: seq<seq<Byte>>)
    requires |Concat(lines)| <= CAP
    ensures var t := AppendAll(START, lines); t.rotated.None? && Bytes(t, t.live) == Concat(lines)
  {
    var j, k := GenerationsAreFull(lines);
    if k > 0 { PartFits(lines, j, k); }
    assert lines[0..] == lines;
  }

  lemma PartFits(lines: seq<seq<Byte>>, j: nat, k: nat)
    requires j <= k < |lines|
    ensures |Concat(lines[j..k])| + |lines[k]| <= |Concat(lines)|
  {
    hide Concat;
    var a, b, c := lines[..j], lines[j..k + 1], lines[k + 1..];
    assert lines == a + (b + c);
    ConcatSplit(a, b + c);
    ConcatSplit(b, c);
    assert b == lines[j..k] + [lines[k]];
    ConcatLast(lines[j..k], lines[k]);
  }

  function Total(calls: seq<Call>): nat {
    if calls == [] then 0 else Total(calls[..|calls| - 1]) + |calls[|calls| - 1].line|
  }

  lemma {:induction false} TotalUpdate(calls: seq<Call>, i: nat, c: Call)
    requires i < |calls|
    ensures Total(calls[i := c]) == Total(calls) - |calls[i].line| + |c.line|
    decreases |calls|
  {
    var n := |calls| - 1;
    if i < n {
      assert calls[i := c][..n] == calls[..n][i := c];
      TotalUpdate(calls[..n], i, c);
    } else {
      assert calls[i := c][..n] == calls[..n];
    }
  }

  /** Lines of distinct calls are part of the total. */
  lemma {:induction false} FlatWithinTotal(calls: seq<Call>, ids: seq<nat>)
    requires (forall j :: 0 <= j < |ids| ==> ids[j] < |calls|) && Distinct(ids)
    ensures |Flat(calls, ids)| <= Total(calls)
    decreases |ids|
  {
    if ids != [] {
      var rest, last := ids[..|ids| - 1], ids[|ids| - 1];
      var without := calls[last := Call([], Arrived)];
      TotalUpdate(calls, last, Call([], Arrived));
      FlatElsewhere(calls, without, rest, last);
      FlatWithinTotal(without, rest);
    }
  }

  lemma {:induction false} FlatElsewhere(a: seq<Call>, b: seq<Call>, ids: seq<nat>, except: nat)
    requires |a| == |b| && (forall j :: 0 <= j < |ids| ==> ids[j] < |a| && ids[j] != except)
    requires forall i :: 0 <= i < |a| && i != except ==> a[i] == b[i]
    ensures Flat(a, ids) == Flat(b, ids)
    decreases |ids|
  {
    if ids != [] { FlatElsewhere(a, b, ids[..|ids| - 1], except); }
  }

  /** One file, never moved aside, with every line written so far in it. */
  ghost predicate OneFile(s: State) {
    && Inv(s) && s.rotated.None? && |s.files| <= 1
    && s.live == (if s.files == [] then None else Some(0))
    && (if s.files == [] then s.order == [] else s.wrote[0] == s.order)
    && (forall i :: 0 <= i < |s.calls| ==> !s.calls[i].pc.Full?)
  }

  lemma NotYetFull(s: State, i: nat)
    requires OneFile(s) && At(s, i, Arrived) && Total(s.calls) <= CAP
    ensures LiveSize(s) + |s.calls[i].line| <= CAP
  {
    if s.files != [] {
      assert FileOk(s, 0);
      var ids := s.wrote[0] + [i];
      assert ids[..|s.wrote[0]|] == s.wrote[0];
      FlatWithinTotal(s.calls, ids);
    } else {
      assert [i][..0] == [] && Flat(s.calls, [i]) == [] + s.calls[i].line;
      FlatWithinTotal(s.calls, [i]);
    }
  }

  lemma StepOneFile(s: State, a: Action)
    requires OneFile(s) && Enabled(s, a) && Total(s.calls) <= CAP
    ensures OneFile(Apply(s, a))
  {
    StepInv(s, a);
    if a.Size? { NotYetFull(s, a.i); }
  }

  lemma StepTotal(s: State, a: Action)
    requires Enabled(s, a)
    ensures Total(s.calls) <= Total(Apply(s, a).calls)
  {
    if a.Arrive? {
      assert Apply(s, a).calls[..|s.calls|] == s.calls;
    } else {
      TotalUpdate(s.calls, a.i, Apply(s, a).calls[a.i]);
    }
  }

  lemma {:induction false} RunTotal(s: State, acts: seq<Action>)
    requires Runs(s, acts)
    ensures Total(s.calls) <= Total(Exec(s, acts).calls)
    decreases |acts|
  {
    if acts != [] {
      StepTotal(s, acts[0]);
      RunTotal(Apply(s, acts[0]), acts[1..]);
    }
  }

  lemma {:induction false} RunOneFile(s: State, acts: seq<Action>)
    requires OneFile(s) && Runs(s, acts) && Total(Exec(s, acts).calls) <= CAP
    ensures OneFile(Exec(s, acts))
    decreases |acts|
  {
    if acts != [] {
      RunTotal(s, acts);
      StepOneFile(s, acts[0]);
      RunOneFile(Apply(s, acts[0]), acts[1..]);
    }
  }

  /** However many processes append at once: as long as all their lines together fit under
      the cap nothing is ever moved aside, and the live file holds every line written. */
  lemma NothingIsLostBelowTheCap(acts: seq<Action>)
    requires Runs(START, acts) && Total(Exec(START, acts).calls) <= CAP
    ensures var t := Exec(START, acts);
            && t.rotated.None? && (forall j :: 0 <= j < |t.order| ==> t.order[j] < |t.calls|)
            && Bytes(t, t.live) == Flat(t.calls, t.order)
  {
    RunOneFile(START, acts);
    var t := Exec(START, acts);
    if t.files != [] { assert FileOk(t, 0); }
  }

  /* When the reading order is right under concurrency. */

  /** A line lands where it cannot be read back last: in the rotated file while the
      live one has lines, or in a file that has lost its name while there is anything
      to read back. */
  predicate Misplaces(s: State, a: Action)
    requires Enabled(s, a)
  {
    a.Write? &&
    var f := s.calls[a.i].pc.file;
    && s.live != Some(f)
    && if s.rotated == Some(f) then Ids(s, s.live) != [] else Reading(s) != []
  }

  predicate NeverMisplaces(s: State, acts: seq<Action>)
    requires Runs(s, acts)
    decreases |acts|
  {
    acts == [] || (!Misplaces(s, acts[0]) && NeverMisplaces(Apply(s, acts[0]), acts[1..]))
  }

  predicate ReadsTail(s: State) { IsSuffix(Reading(s), s.order) }

  predicate AlwaysReadsTail(s: State, acts: seq<Action>)
    requires Runs(s, acts)
    decreases |acts|
  {
    ReadsTail(s) && (acts == [] || AlwaysReadsTail(Apply(s, acts[0]), acts[1..]))
  }

  lemma NotRead(s: State, i: nat)
    requires Inv(s) && Enabled(s, Write(i))
    ensures i !in Ids(s, s.live) && i !in Ids(s, s.rotated)
  {
    if s.live.Some? { assert FileOk(s, s.live.value); }
    if s.rotated.Some? { assert FileOk(s, s.rotated.value); }
  }

  lemma WriteReads(s: State, i: nat)
    requires Inv(s) && Enabled(s, Write(i))
    ensures var t, f := Writing(s, i), s.calls[i].pc.file;
            && t.order == s.order + [i]
            && Ids(t, t.live) == Ids(s, s.live) + (if s.live == Some(f) then [i] else [])
            && Ids(t, t.rotated) == Ids(s, s.rotated) + (if s.rotated == Some(f) then [i] else [])
  {
  }

  lemma SuffixBroken(a: seq<nat>, b: seq<nat>, i: nat)
    requires a != [] && a[|a| - 1] != i
    ensures !IsSuffix(a, b + [i])
  {
  }

  lemma WriteTail(s: State, i: nat)
    requires Inv(s) && Enabled(s, Write(i)) && ReadsTail(s)
    ensures ReadsTail(Writing(s, i)) <==> !Misplaces(s, Write(i))
  {
    var t, f := Writing(s, i), s.calls[i].pc.file;
    var r, l := Ids(s, s.rotated), Ids(s, s.live);
    NotRead(s, i);
    WriteReads(s, i);
    SuffixSnoc(Reading(s), s.order, i);
    if s.live == Some(f) {
      assert Reading(t) == Reading(s) + [i];
    } else if s.rotated == Some(f) {
      if l == [] {
        assert Reading(t) == Reading(s) + [i];
      } else {
        assert Reading(t)[|Reading(t)| - 1] == l[|l| - 1] && l[|l| - 1] in l;
        SuffixBroken(Reading(t), s.order, i);
      }
    } else if Reading(s) != [] {
      var x := Reading(s)[|Reading(s)| - 1];
      assert x in r || x in l;
      SuffixBroken(Reading(t), s.order, i);
    }
  }

  lemma RotateTail(s: State, i: nat)
    requires Inv(s) && Enabled(s, Rotate(i)) && ReadsTail(s)
    ensures ReadsTail(Rotating(s, i))
  {
    if s.live.Some? {
      TailSuffix(Ids(s, s.rotated), Ids(s, s.live), s.order);
      assert Reading(Rotating(s, i)) == Ids(s, s.live) + [];
      assert Ids(s, s.live) + [] == Ids(s, s.live);
    }
  }

  lemma OpenTail(s: State, i: nat)
    requires Inv(s) && Enabled(s, Open(i)) && ReadsTail(s)
    ensures ReadsTail(Opening(s, i))
  {
    assert Reading(Opening(s, i)) == Reading(s);
  }

  /** One step: what is read back stays an unbroken tail of everything written exactly
      when the step does not misplace a line. */
  lemma StepTail(s: State, a: Action)
    requires Inv(s) && Enabled(s, a) && ReadsTail(s)
    ensures ReadsTail(Apply(s, a)) <==> !Misplaces(s, a)
  {
    match a
    case Arrive(_) =>
    case Size(_) =>
    case Rotate(i) => RotateTail(s, i);
    case Open(i) => OpenTail(s, i);
    case Write(i) => WriteTail(s, i);
  }

  lemma {:induction false} RunTail(s: State, acts: seq<Action>)
    requires Inv(s) && ReadsTail(s) && Runs(s, acts)
    ensures AlwaysReadsTail(s, acts) <==> NeverMisplaces(s, acts)
    decreases |acts|
  {
    if acts != [] {
      StepInv(s, acts[0]);
      StepTail(s, acts[0]);
      if Misplaces(s, acts[0]) {
        assert !AlwaysReadsTail(Apply(s, acts[0]), acts[1..]);
      } else {
        RunTail(Apply(s, acts[0]), acts[1..]);
      }
    }
  }

  /** In every run of any number of processes: rotated file then live file read back an
      unbroken tail of everything written, in the order it was written, in every state,
      exactly when no line is ever misplaced. */
  lemma ReadsInOrderUnlessMisplaced(acts: seq<Action>)
    requires Runs(START, acts)
    ensures AlwaysReadsTail(START, acts) <==> NeverMisplaces(START, acts)
  {
    RunTail(START, acts);
  }

  /* The rotated file alone. */

  /** A line is written into the rotated file while the live one has lines. */
  predicate WritesBehind(s: State, a: Action)
    requires Enabled(s, a)
  {
    a.Write? && s.rotated == Some(s.calls[a.i].pc.file) && Ids(s, s.live) != []
  }

  predicate NeverWritesBehind(s: State, acts: seq<Action>)
    requires Runs(s, acts)
    decreases |acts|
  {
    acts == [] || (!WritesBehind(s, acts[0]) && NeverWritesBehind(Apply(s, acts[0]), acts[1..]))
  }

  /** Everything in the rotated file was written before everything in the live one. */
  ghost predicate Predates(s: State) {
    forall x, y | 0 <= x < |s.order| && 0 <= y < |s.order| ::
      s.order[x] in Ids(s, s.rotated) && s.order[y] in Ids(s, s.live) ==> x < y
  }

  ghost predicate AlwaysPredates(s: State, acts: seq<Action>)
    requires Runs(s, acts)
    decreases |acts|
  {
    Predates(s) && (acts == [] || AlwaysPredates(Apply(s, acts[0]), acts[1..]))
  }

  /** `order` lists the calls that have written, each once. */
  ghost predicate OrderOk(s: State) {
    && Distinct(s.order)
    && (forall i :: i in s.order ==> i < |s.calls|)
    && (forall i :: 0 <= i < |s.calls| ==> (i in s.order <==> s.calls[i].pc.Done?))
  }

  lemma StepOrderOk(s: State, a: Action)
    requires OrderOk(s) && Enabled(s, a)
    ensures OrderOk(Apply(s, a))
  {
    var t := Apply(s, a);
    if a.Write? {
      assert a.i !in s.order;
      forall i | 0 <= i < |t.calls| ensures i in t.order <==> t.calls[i].pc.Done? {
        assert i in t.order <==> i in s.order || i == a.i;
      }
    } else if a.Arrive? {
      forall i | 0 <= i < |t.calls| ensures i in t.order <==> t.calls[i].pc.Done? {
        if i == |s.calls| { assert i !in s.order; }
      }
    }
  }

  lemma WritePredates(s: State, i: nat)
    requires Inv(s) && OrderOk(s) && Enabled(s, Write(i)) && Predates(s)
    ensures Predates(Writing(s, i)) <==> !WritesBehind(s, Write(i))
  {
    var t, n := Writing(s, i), |s.order|;
    NotRead(s, i);
    WriteReads(s, i);
    assert t.order[n] == i;
    if WritesBehind(s, Write(i)) {
      var l := Ids(s, s.live);
      assert FileOk(s, s.live.value);
      assert l[0] in l && l[0] in s.order;
      var y :| 0 <= y < n && s.order[y] == l[0];
      assert t.order[y] == l[0] && i in Ids(t, t.rotated) && l[0] in Ids(t, t.live);
    } else {
      forall x, y | 0 <= x <= n && 0 <= y <= n && t.order[x] in Ids(t, t.rotated) && t.order[y] in Ids(t, t.live)
        ensures x < y
      {
        if x < n { assert t.order[x] == s.order[x] && t.order[x] != i; }
        if y < n { assert t.order[y] == s.order[y] && t.order[y] != i; }
      }
    }
  }

  lemma StepPredates(s: State, a: Action)
    requires Inv(s) && OrderOk(s) && Enabled(s, a) && Predates(s)
    ensures Predates(Apply(s, a)) <==> !WritesBehind(s, a)
  {
    if a.Write? { WritePredates(s, a.i); }
  }

  lemma {:induction false} RunPredates(s: State, acts: seq<Action>)
    requires Inv(s) && OrderOk(s) && Predates(s) && Runs(s, acts)
    ensures AlwaysPredates(s, acts) <==> NeverWritesBehind(s, acts)
    decreases |acts|
  {
    if acts != [] {
      StepInv(s, acts[0]);
      StepOrderOk(s, acts[0]);
      StepPredates(s, acts[0]);
      if WritesBehind(s, acts[0]) {
        assert !AlwaysPredates(Apply(s, acts[0]), acts[1..]);
      } else {
        RunPredates(Apply(s, acts[0]), acts[1..]);
      }
    }
  }

  /** In every run: the rotated file predates the live one in every state exactly when
      no line is written into the rotated file while the live one has lines. */
  lemma RotatedPredatesLive(acts: seq<Action>)
    requires Runs(START, acts)
    ensures AlwaysPredates(START, acts) <==> NeverWritesBehind(START, acts)
  {
    RunPredates(START, acts);
  }

  /* What concurrency costs. */

  /** A descriptor opened before a rotation writes into the file that was moved aside:
      read back, its line comes before one that was written earlier. */
  lemma LateLineReadsEarly(s: State, i: nat, j: nat, f: nat)
    requires Inv(s) && i != j && At(s, i, Opened(f)) && s.live == Some(f)
    requires At(s, j, Arrived) && |s.files[f]| + |s.calls[j].line| > CAP
    ensures var acts := [Size(j), Rotate(j), Open(j), Write(j), Write(i)];
            && Runs(s, acts)
            && var t := Exec(s, acts);
               && t.rotated == Some(f) && i in Ids(t, t.rotated) && Ids(t, t.live) == [j]
               && t.order == s.order + [j, i]
  {
    StartsAfresh(s, j, f);
    var d := Rotated4(s, j);
    assert d.calls[i] == s.calls[i] && d.wrote[f] == s.wrote[f];
    FiveSteps(s, Size(j), Rotate(j), Open(j), Write(j), Write(i));
  }

  /** Call `j` on its own, from its size check on, when the file turns out full. */
  function Rotated4(s: State, j: nat): State
    requires Inv(s) && At(s, j, Arrived)
  {
    var c := Opening(Rotating(SetPc(s, j, Full), j), j);
    Writing(c, j)
  }

  lemma StartsAfresh(s: State, j: nat, f: nat)
    requires Inv(s) && At(s, j, Arrived) && s.live == Some(f) && |s.files[f]| + |s.calls[j].line| > CAP
    ensures var d, g := Rotated4(s, j), |s.files|;
            && Sizing(s, j) == SetPc(s, j, Full)
            && d.live == Some(g) && d.rotated == Some(f) && d.wrote == s.wrote + [[j]]
            && d.order == s.order + [j] && |d.files| == |s.files| + 1
            && d.calls == s.calls[j := s.calls[j].(pc := Done(g))]
  {
    var c := Opening(Rotating(SetPc(s, j, Full), j), j);
    assert c.calls == s.calls[j := s.calls[j].(pc := Opened(|s.files|))];
    assert c.wrote == s.wrote + [[]];
    var none: seq<nat> := [];
    assert c.wrote[|s.files|] == none && none + [j] == [j];
  }

  lemma Cons(s: State, a: Action, rest: seq<Action>)
    requires Enabled(s, a) && Runs(Apply(s, a), rest)
    ensures Runs(s, [a] + rest) && Exec(s, [a] + rest) == Exec(Apply(s, a), rest)
  {
    assert ([a] + rest)[1..] == rest;
  }

  lemma FiveSteps(s: State, a: Action, b: Action, c: Action, d: Action, e: Action)
    requires Enabled(s, a) && Enabled(Apply(s, a), b) && Enabled(Apply(Apply(s, a), b), c)
    requires var t := Apply(Apply(Apply(s, a), b), c); Enabled(t, d) && Enabled(Apply(t, d), e)
    ensures Runs(s, [a, b, c, d, e])
    ensures Exec(s, [a, b, c, d, e]) == Apply(Apply(Apply(Apply(Apply(s, a), b), c), d), e)
  {
    var s1 := Apply(s, a);
    var s2 := Apply(s1, b);
    var s3 := Apply(s2, c);
    var s4 := Apply(s3, d);
    Cons(s4, e, []);
    Cons(s3, d, [e]);
    Cons(s2, c, [d, e]);
    Cons(s1, b, [c, d, e]);
    Cons(s, a, [b, c, d, e]);
    assert [e] + [] == [e] && [d] + [e] == [d, e] && [c] + [d, e] == [c, d, e];
    assert [b] + [c, d, e] == [b, c, d, e] && [a] + [b, c, d, e] == [a, b, c, d, e];
  }

  /** Two calls that both found the file full lose a generation: the second moves the
      nearly empty new file over the one the first had set aside. */
  lemma SecondRotationLosesAGeneration(s: State, i: nat, j: nat, f: nat)
    requires Inv(s) && i != j && At(s, i, Full) && At(s, j, Full) && s.live == Some(f)
    ensures var acts := [Rotate(i), Open(i), Write(i), Rotate(j), Open(j)];
            && Runs(s, acts)
            && var t := Exec(s, acts);
               && t.rotated == Some(|s.files|) && Ids(t, t.rotated) == [i] && Ids(t, t.live) == []
               && t.live != Some(f) && t.wrote[f] == s.wrote[f]
  {
    var a := Apply(s, Rotate(i));
    var b := Apply(a, Open(i));
    var c := Apply(b, Write(i));
    assert c.wrote[|s.files|] == [i] && c.live == Some(|s.files|) && c.calls[j] == s.calls[j];
    var d := Apply(c, Rotate(j));
    FiveSteps(s, Rotate(i), Open(i), Write(i), Rotate(j), Open(j));
  }

  class Sidecar {
    var live: Option<nat>
    var rotated: Option<nat>
    var files: seq<seq<Byte>>
    ghost var calls: seq<Call>
    ghost var wrote: seq<seq<nat>>
    ghost var order: seq<nat>

    ghost function Snapshot(): State
      reads this
    {
      State(live, rotated, files, calls, wrote, order)
    }

    constructor ()
      ensures Snapshot() == START && InOrder(Snapshot())
    {
      live, rotated, files, calls, wrote, order := None, None, [], [], [], [];
    }

    /** Moves the live file aside when the next line would take it past the cap. */
    method RotateIfFull(ghost i: nat, incoming: nat)
      requires At(Snapshot(), i, Arrived) && |calls[i].line| == incoming && Inv(Snapshot())
      modifies this`live, this`rotated, this`calls
      ensures var a := Sizing(old(Snapshot()), i);
              Snapshot() == if a.calls[i].pc == Full then Rotating(a, i) else a
    {
      if live.Some? && |files[live.value]| + incoming > CAP {
        calls := calls[i := calls[i].(pc := Full)];
        live, rotated := None, live;
      }
      calls := calls[i := calls[i].(pc := Ready)];
    }

    /** Opens the live file, creating it if need be, and writes the line in one go. */
    method WriteLine(ghost i: nat, line: seq<Byte>)
      requires At(Snapshot(), i, Ready) && calls[i].line == line && Inv(Snapshot())
      modifies this`live, this`files, this`calls, this`wrote, this`order
      ensures Snapshot() == Writing(Opening(old(Snapshot()), i), i)
    {
      var f: nat;
      if live.Some? {
        f := live.value;
      } else {
        f := |files|;
        live := Some(f);
        files, wrote := files + [[]], wrote + [[]];
      }
      files := files[f := files[f] + line];
      calls := calls[i := Call(line, Opened(f))];
      calls := calls[i := Call(line, Done(f))];
      wrote := wrote[f := wrote[f] + [i]];
      order := order + [i];
    }

    method AppendHistoryEntry(line: seq<Byte>)
      requires InOrder(Snapshot())
      modifies this
      ensures Snapshot() == Appending(old(Snapshot()), line)
      ensures InOrder(Snapshot())
      ensures var was, now := old(Snapshot()), Snapshot();
              var full := was.live.Some? && |Bytes(was, was.live)| + |line| > CAP;
              && Bytes(now, now.live) == (if full then line else Bytes(was, was.live) + line)
              && Bytes(now, now.rotated) == Bytes(was, if full then was.live else was.rotated)
    {
      AppendingInOrder(Snapshot(), line);
      AppendRotatesOnlyPastTheCap(Snapshot(), line);
      ghost var i := |calls|;
      ghost var s := Snapshot();
      StepInv(s, Arrive(line));
      calls := calls + [Call(line, Arrived)];
      SizedInv(Snapshot(), i);
      RotateIfFull(i, |line|);
      WriteLine(i, line);
    }
  }

  lemma SizedInv(s: State, i: nat)
    requires Inv(s) && At(s, i, Arrived)
    ensures var a := Sizing(s, i);
            var b := if a.calls[i].pc == Full then Rotating(a, i) else a;
            Inv(b) && At(b, i, Ready)
  {
    StepInv(s, Size(i));
    if Sizing(s, i).calls[i].pc == Full { StepInv(Sizing(s, i), Rotate(i)); }
  }
}
