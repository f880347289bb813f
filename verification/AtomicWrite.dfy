/** Replacing a file atomically and durably, on a file system that may lose anything
    not yet synced: any number of processes write through the helper at once, any of
    them may be killed or fail between two system calls, and the machine may crash at
    any point, after which writing goes on.
 */
module AtomicWrite {

  type Path(==, !new)

  type Byte(==, !new)

  /** What a directory entry names. */
  datatype Entry = Absent | File(ino: nat) | Link(to: Path)

  datatype Option<T> = None | Some(value: T)

  datatype Origin = Before | By(writer: nat)

  /** `synced` says the data is on disk, `saved` is the mode on disk.  `meant` is the
      whole content the file was created for, `published` whether a name other than
      its temporary one was ever given to it. */
  datatype Inode = Inode(
    data: seq<Byte>, synced: bool,
    mode: nat, saved: nat,
    meant: seq<Byte>, origin: Origin, published: bool)

  const PRIVATE := 0x180  // 0o600

  /** Where a call of `atomic_write_text` stands. */
  datatype Pc =
    | Begun | Resolved | Looked
    | Made | Synced | Moded | Replaced
    | Returned(durable: bool)
    | Failing | Raised | Dead

  /** Temporary names are never reused, so the temporary file of a call is known by
      its inode; `linked` says whether its name is still there. */
  datatype Writer = Writer(
    path: Path, content: seq<Byte>, pc: Pc,
    dst: Path, mode: Option<nat>, ino: nat, linked: bool, at: nat)

  /** `hist[p]` is every value the entry of `p` has had, the last one current; a crash
      may bring back any of those from `floor[p]` on. */
  datatype State = State(
    hist: map<Path, seq<Entry>>,
    floor: map<Path, nat>,
    inodes: seq<Inode>,
    writers: seq<Writer>)

  /** What a crash happens to keep: which value of each entry, what is found in files
      whose data was not synced, and which modes fall back to the saved ones. */
  datatype Luck = Luck(pick: map<Path, nat>, torn: map<nat, seq<Byte>>, fallback: set<nat>)

  datatype Action =
    | Begin(path: Path, content: seq<Byte>)
    | Resolve(k: nat)
    | Look(k: nat)
    | Make(k: nat)
    | Write(k: nat, n: nat)
    | SyncFile(k: nat)
    | Chmod(k: nat)
    | Replace(k: nat)
    | SyncDir(k: nat, ok: bool)
    | Fail(k: nat)
    | Cleanup(k: nat, ok: bool)
    | Kill(k: nat)
    | Crash(luck: Luck)

  function Hist(s: State, p: Path): seq<Entry> {
    if p in s.hist then s.hist[p] else [Absent]
  }

  function Floor(s: State, p: Path): nat {
    if p in s.floor then s.floor[p] else 0
  }

  /** What the name is now. */
  function Now(s: State, p: Path): Entry {
    var h := Hist(s, p);
    if h == [] then Absent else h[|h| - 1]
  }

  /** Follows links until it meets something else, or a link for the second time. */
  function Follow(s: State, p: Path, seen: set<Path>): Path
    decreases s.hist.Keys - seen
  {
    if !Now(s, p).Link? || p in seen then p
    else
      assert p in s.hist.Keys - seen;
      Follow(s, Now(s, p).to, seen + {p})
  }

  /** `os.path.realpath`, as far as the last component goes. */
  function Real(s: State, p: Path): Path { Follow(s, p, {}) }

  predicate At(s: State, k: nat, pc: Pc) {
    k < |s.writers| && s.writers[k].pc == pc
  }

  /** In the `try` block. */
  predicate Trying(pc: Pc) {
    pc == Made || pc == Synced || pc == Moded || pc == Replaced
  }

  predicate Finished(pc: Pc) {
    pc.Returned? || pc == Raised || pc == Dead
  }

  predicate HasInode(s: State, k: nat) {
    k < |s.writers| && s.writers[k].ino < |s.inodes|
  }

  predicate Enabled(s: State, a: Action) {
    match a
    case Begin(_, _) => true
    case Resolve(k) => At(s, k, Begun)
    case Look(k) => At(s, k, Resolved)
    case Make(k) => At(s, k, Looked)
    case Write(k, n) => At(s, k, Made) && HasInode(s, k) && n <= |s.writers[k].content|
    case SyncFile(k) => At(s, k, Made) && HasInode(s, k)
    case Chmod(k) => At(s, k, Synced) && HasInode(s, k)
    case Replace(k) => At(s, k, Moded) && HasInode(s, k) && s.writers[k].linked
    case SyncDir(k, _) => At(s, k, Replaced) && Hist(s, s.writers[k].dst) != []
    case Fail(k) => k < |s.writers| && Trying(s.writers[k].pc)
    case Cleanup(k, _) => At(s, k, Failing)
    case Kill(k) => k < |s.writers| && !Finished(s.writers[k].pc)
    case Crash(luck) => forall p :: p in luck.pick ==> p in s.hist && Floor(s, p) <= luck.pick[p] < |s.hist[p]|
  }

  function SetWriter(s: State, k: nat, w: Writer): State
    requires k < |s.writers|
  {
    s.(writers := s.writers[k := w])
  }

  function SetPc(s: State, k: nat, pc: Pc): State
    requires k < |s.writers|
  {
    SetWriter(s, k, s.writers[k].(pc := pc))
  }

  function SetInode(s: State, i: nat, x: Inode): State
    requires i < |s.inodes|
  {
    s.(inodes := s.inodes[i := x])
  }

  function Resolving(s: State, k: nat): State
    requires k < |s.writers|
  {
    SetWriter(s, k, s.writers[k].(pc := Resolved, dst := Real(s, s.writers[k].path)))
  }

  /** The mode of what is there now, if it can be read. */
  function ModeOf(s: State, p: Path): Option<nat> {
    var e := Now(s, p);
    if e.File? && e.ino < |s.inodes| then Some(s.inodes[e.ino].mode) else None
  }

  function Looking(s: State, k: nat): State
    requires k < |s.writers|
  {
    SetWriter(s, k, s.writers[k].(pc := Looked, mode := ModeOf(s, s.writers[k].dst)))
  }

  function Making(s: State, k: nat): State
    requires k < |s.writers|
  {
    var w := s.writers[k];
    SetWriter(s, k, w.(pc := Made, ino := |s.inodes|, linked := true))
    .(inodes := s.inodes + [Inode([], false, PRIVATE, PRIVATE, w.content, By(k), false)])
  }

  function Writing(s: State, k: nat, n: nat): State
    requires HasInode(s, k) && n <= |s.writers[k].content|
  {
    var w := s.writers[k];
    SetInode(s, w.ino, s.inodes[w.ino].(data := w.content[..n], synced := false))
  }

  function SyncingFile(s: State, k: nat): State
    requires HasInode(s, k)
  {
    var w := s.writers[k];
    var x := s.inodes[w.ino];
    SetPc(SetInode(s, w.ino, x.(data := w.content, synced := true, saved := x.mode)), k, Synced)
  }

  function Chmoding(s: State, k: nat): State
    requires HasInode(s, k)
  {
    var w := s.writers[k];
    var t := if w.mode.Some? then SetInode(s, w.ino, s.inodes[w.ino].(mode := w.mode.value)) else s;
    SetPc(t, k, Moded)
  }

  function Replacing(s: State, k: nat): State
    requires HasInode(s, k)
  {
    var w := s.writers[k];
    var h := Hist(s, w.dst);
    SetInode(SetWriter(s, k, w.(pc := Replaced, linked := false, at := |h|)),
             w.ino, s.inodes[w.ino].(published := true))
    .(hist := s.hist[w.dst := h + [File(w.ino)]])
  }

  /** Best effort: when the directory cannot be synced the call returns all the same. */
  function SyncingDir(s: State, k: nat, ok: bool): State
    requires k < |s.writers| && Hist(s, s.writers[k].dst) != []
  {
    var w := s.writers[k];
    var t := SetPc(s, k, Returned(ok));
    if ok then t.(floor := s.floor[w.dst := |Hist(s, w.dst)| - 1]) else t
  }

  function CleaningUp(s: State, k: nat, ok: bool): State
    requires k < |s.writers|
  {
    SetWriter(s, k, s.writers[k].(pc := Raised, linked := s.writers[k].linked && !ok))
  }

  function Killed(w: Writer): Writer {
    if Finished(w.pc) then w else w.(pc := Dead)
  }

  function Recovered(x: Inode, i: nat, luck: Luck): Inode {
    var data := if !x.synced && i in luck.torn then luck.torn[i] else x.data;
    var mode := if i in luck.fallback then x.saved else x.mode;
    x.(data := data, synced := true, mode := mode, saved := mode)
  }

  /** What is found after the crash is all on disk. */
  function Kept(h: seq<Entry>, p: Path, luck: Luck): seq<Entry> {
    if p in luck.pick && luck.pick[p] < |h| then h + [h[luck.pick[p]]] else h
  }

  function Crashing(s: State, luck: Luck): State {
    var hist := map p | p in s.hist :: Kept(s.hist[p], p, luck);
    State(hist,
          map p | p in hist && hist[p] != [] :: |hist[p]| - 1,
          seq(|s.inodes|, i requires 0 <= i < |s.inodes| => Recovered(s.inodes[i], i, luck)),
          seq(|s.writers|, i requires 0 <= i < |s.writers| => Killed(s.writers[i])))
  }

  function Apply(s: State, a: Action): State
    requires Enabled(s, a)
  {
    match a
    case Begin(p, c) => s.(writers := s.writers + [Writer(p, c, Begun, p, None, 0, false, 0)])
    case Resolve(k) => Resolving(s, k)
    case Look(k) => Looking(s, k)
    case Make(k) => Making(s, k)
    case Write(k, n) => Writing(s, k, n)
    case SyncFile(k) => SyncingFile(s, k)
    case Chmod(k) => Chmoding(s, k)
    case Replace(k) => Replacing(s, k)
    case SyncDir(k, ok) => SyncingDir(s, k, ok)
    case Fail(k) => SetPc(s, k, Failing)
    case Cleanup(k, ok) => CleaningUp(s, k, ok)
    case Kill(k) => SetPc(s, k, Dead)
    case Crash(luck) => Crashing(s, luck)
  }

  predicate Runs(s: State, acts: seq<Action>)
    decreases |acts|
  {
    acts == [] || (Enabled(s, acts[0]) && Runs(Apply(s, acts[0]), acts[1..]))
  }

  function Exec(s: State, acts: seq<Action>): State
    requires Runs(s, acts)
    decreases |acts|
  {
    if acts == [] then s else Exec(Apply(s, acts[0]), acts[1..])
  }

  /* What every step keeps. */

  /** From `mkstemp` on, a call's destination is settled. */
  predicate Launched(pc: Pc) {
    pc != Begun && pc != Resolved && pc != Looked
  }

  ghost predicate EntryOk(s: State, p: Path, e: Entry)
    requires Hist(s, p) != []
  {
    && (Hist(s, p)[0].File? ==> e.File?)
    && (e.File? ==>
          && e.ino < |s.inodes|
          && WholeFor(s, p, s.inodes[e.ino])
          && (s.inodes[e.ino].origin == Before ==> e == Hist(s, p)[0]))
  }

  /** A published file is on disk with the whole content it was created for, and it was
      there from the start or was written for this very name. */
  ghost predicate WholeFor(s: State, p: Path, x: Inode) {
    && x.published && x.synced && x.data == x.meant
    && (x.origin.By? ==>
          x.origin.writer < |s.writers| && Launched(s.writers[x.origin.writer].pc)
          && s.writers[x.origin.writer].dst == p && s.writers[x.origin.writer].content == x.meant)
  }

  ghost predicate PathOk(s: State, p: Path) {
    && Floor(s, p) < |Hist(s, p)|
    && forall j :: 0 <= j < |Hist(s, p)| ==> EntryOk(s, p, Hist(s, p)[j])
  }

  ghost predicate TempOk(s: State, k: nat)
    requires k < |s.writers|
  {
    var w := s.writers[k];
    && w.ino < |s.inodes|
    && var x := s.inodes[w.ino];
       && x.origin == By(k) && !x.published && x.meant == w.content
       && (w.pc == Synced || w.pc == Moded ==> x.synced && x.data == w.content)
  }

  ghost predicate WriterOk(s: State, k: nat)
    requires k < |s.writers|
  {
    var pc := s.writers[k].pc;
    pc == Made || pc == Synced || pc == Moded ==> TempOk(s, k)
  }

  ghost predicate FilesOk(s: State) {
    forall i :: 0 <= i < |s.inodes| && s.inodes[i].published ==> s.inodes[i].synced
  }

  ghost predicate Inv(s: State) {
    && FilesOk(s)
    && (forall p :: PathOk(s, p))
    && (forall k :: 0 <= k < |s.writers| ==> WriterOk(s, k))
  }

  /** A file system with no call under way, whatever names and links it holds. */
  ghost predicate Init(s: State) {
    && s.writers == []
    && (forall p :: Floor(s, p) == 0 && |Hist(s, p)| == 1)
    && (forall p :: Now(s, p).File? ==> Now(s, p).ino < |s.inodes|)
    && (forall i :: 0 <= i < |s.inodes| ==>
          var x := s.inodes[i];
          x.published && x.synced && x.data == x.meant && x.mode == x.saved && x.origin == Before)
  }

  lemma InitInv(s: State)
    requires Init(s)
    ensures Inv(s)
  {
    forall p ensures PathOk(s, p) {
      assert Hist(s, p)[0] == Now(s, p);
    }
  }

  ghost predicate InodesKept(s: State, t: State) {
    && |s.inodes| <= |t.inodes|
    && forall i :: 0 <= i < |s.inodes| && s.inodes[i].published ==> SameContent(s.inodes[i], t.inodes[i])
  }

  predicate SameContent(x: Inode, y: Inode) {
    y.published == x.published && y.data == x.data && y.synced == x.synced && y.meant == x.meant && y.origin == x.origin
  }

  ghost predicate WritersKept(s: State, t: State) {
    && |s.writers| <= |t.writers|
    && forall k :: 0 <= k < |s.writers| ==> SameCall(s.writers[k], t.writers[k])
  }

  predicate SameCall(w: Writer, v: Writer) {
    && v.content == w.content && v.path == w.path
    && (Launched(w.pc) ==> Launched(v.pc) && v.dst == w.dst && v.ino == w.ino && v.mode == w.mode)
  }

  lemma EntryKept(s: State, t: State, p: Path, e: Entry)
    requires Hist(s, p) != [] && EntryOk(s, p, e) && InodesKept(s, t) && WritersKept(s, t)
    requires Hist(t, p) != [] && Hist(t, p)[0] == Hist(s, p)[0]
    ensures EntryOk(t, p, e)
  {
  }

  lemma PathKept(s: State, t: State, p: Path)
    requires PathOk(s, p) && InodesKept(s, t) && WritersKept(s, t)
    requires Hist(t, p) == Hist(s, p) && Floor(t, p) < |Hist(t, p)|
    ensures PathOk(t, p)
  {
    var h := Hist(s, p);
    forall j | 0 <= j < |h| ensures EntryOk(t, p, h[j]) {
      EntryKept(s, t, p, h[j]);
    }
  }

  /** A step touches the file of the call that makes it and no other unpublished one. */
  ghost predicate OthersKept(s: State, t: State, k: nat) {
    && |s.writers| <= |t.writers|
    && |s.inodes| <= |t.inodes|
    && (forall i :: 0 <= i < |s.inodes| && s.inodes[i].origin != By(k) ==> t.inodes[i] == s.inodes[i])
    && (forall m :: 0 <= m < |s.writers| && m != k ==> t.writers[m] == s.writers[m])
  }

  lemma OtherWriterOk(s: State, t: State, k: nat, m: nat)
    requires m < |s.writers| && m != k && WriterOk(s, m) && OthersKept(s, t, k)
    ensures WriterOk(t, m)
  {
  }

  /** What a step by call `k` has to show. */
  ghost predicate LocalStep(s: State, t: State, k: nat) {
    && k < |t.writers|
    && |t.writers| == |s.writers|
    && InodesKept(s, t) && WritersKept(s, t) && OthersKept(s, t, k)
    && WriterOk(t, k)
    && FilesOk(t)
  }

  lemma LocalWriters(s: State, t: State, k: nat)
    requires Inv(s) && LocalStep(s, t, k)
    ensures forall m :: 0 <= m < |t.writers| ==> WriterOk(t, m)
  {
    forall m | 0 <= m < |t.writers| ensures WriterOk(t, m) {
      if m != k { OtherWriterOk(s, t, k, m); }
    }
  }

  lemma LocalInv(s: State, t: State, k: nat)
    requires Inv(s) && LocalStep(s, t, k)
    requires t.hist == s.hist && t.floor == s.floor
    ensures Inv(t)
  {
    LocalWriters(s, t, k);
    forall p ensures PathOk(t, p) {
      assert PathOk(s, p);
      PathKept(s, t, p);
    }
  }

  predicate IsQuiet(a: Action) {
    a.Resolve? || a.Look? || a.Make? || a.Write? || a.SyncFile? || a.Chmod? || a.Fail? || a.Cleanup? || a.Kill?
  }

  lemma EarlyStep(s: State, a: Action)
    requires Inv(s) && Enabled(s, a) && (a.Resolve? || a.Look? || a.Make?)
    ensures LocalStep(s, Apply(s, a), a.k)
  {
  }

  lemma WriteStep(s: State, a: Action)
    requires Inv(s) && Enabled(s, a) && (a.Write? || a.SyncFile? || a.Chmod?)
    ensures LocalStep(s, Apply(s, a), a.k)
  {
    assert WriterOk(s, a.k);
  }

  lemma LateStep(s: State, a: Action)
    requires Inv(s) && Enabled(s, a) && (a.Fail? || a.Cleanup? || a.Kill?)
    ensures LocalStep(s, Apply(s, a), a.k)
  {
  }

  lemma QuietInv(s: State, a: Action)
    requires Inv(s) && Enabled(s, a) && IsQuiet(a)
    ensures Inv(Apply(s, a))
  {
    if a.Write? || a.SyncFile? || a.Chmod? {
      WriteStep(s, a);
    } else if a.Resolve? || a.Look? || a.Make? {
      EarlyStep(s, a);
    } else {
      LateStep(s, a);
    }
    LocalInv(s, Apply(s, a), a.k);
  }

  lemma BeginInv(s: State, path: Path, content: seq<Byte>)
    requires Inv(s)
    ensures Inv(Apply(s, Begin(path, content)))
  {
    var t := Apply(s, Begin(path, content));
    forall p ensures PathOk(t, p) {
      assert PathOk(s, p);
      PathKept(s, t, p);
    }
    forall m | 0 <= m < |t.writers| ensures WriterOk(t, m) {
      if m < |s.writers| { OtherWriterOk(s, t, |s.writers|, m); }
    }
  }

  lemma ReplaceInv(s: State, k: nat)
    requires Inv(s) && Enabled(s, Replace(k))
    ensures Inv(Apply(s, Replace(k)))
  {
    var t := Apply(s, Replace(k));
    var w := s.writers[k];
    assert WriterOk(s, k);
    LocalWriters(s, t, k);
    forall p ensures PathOk(t, p) {
      assert PathOk(s, p);
      if p != w.dst {
        PathKept(s, t, p);
      } else {
        PublishedPath(s, t, k);
      }
    }
  }

  lemma PublishedPath(s: State, t: State, k: nat)
    requires k < |s.writers| && TempOk(s, k) && s.writers[k].pc == Moded && Enabled(s, Replace(k))
    requires t == Replacing(s, k) && PathOk(s, s.writers[k].dst) && InodesKept(s, t) && WritersKept(s, t)
    ensures PathOk(t, s.writers[k].dst)
  {
    var p := s.writers[k].dst;
    var h := Hist(s, p);
    forall j | 0 <= j < |h| + 1 ensures EntryOk(t, p, Hist(t, p)[j]) {
      if j < |h| { EntryKept(s, t, p, h[j]); }
    }
  }

  lemma SyncDirInv(s: State, k: nat, ok: bool)
    requires Inv(s) && Enabled(s, SyncDir(k, ok))
    ensures Inv(Apply(s, SyncDir(k, ok)))
  {
    var t := Apply(s, SyncDir(k, ok));
    LocalWriters(s, t, k);
    forall p ensures PathOk(t, p) {
      assert PathOk(s, p);
      PathKept(s, t, p);
    }
  }

  lemma CrashKeeps(s: State, luck: Luck)
    requires FilesOk(s)
    ensures InodesKept(s, Crashing(s, luck)) && WritersKept(s, Crashing(s, luck))
  {
  }

  lemma CrashHist(s: State, luck: Luck, p: Path)
    requires Enabled(s, Crash(luck)) && PathOk(s, p)
    ensures var t := Crashing(s, luck);
            && Hist(t, p) == Kept(Hist(s, p), p, luck)
            && Floor(t, p) == |Hist(t, p)| - 1
  {
  }

  lemma CrashInv(s: State, luck: Luck)
    requires Inv(s) && Enabled(s, Crash(luck))
    ensures Inv(Apply(s, Crash(luck)))
  {
    var t := Apply(s, Crash(luck));
    CrashKeeps(s, luck);
    forall p ensures PathOk(t, p) {
      assert PathOk(s, p);
      CrashHist(s, luck, p);
      CrashPath(s, t, luck, p);
    }
  }

  lemma CrashPath(s: State, t: State, luck: Luck, p: Path)
    requires PathOk(s, p) && InodesKept(s, t) && WritersKept(s, t)
    requires Hist(t, p) == Kept(Hist(s, p), p, luck) && Floor(t, p) == |Hist(t, p)| - 1
    ensures PathOk(t, p)
  {
    var h, g := Hist(s, p), Hist(t, p);
    forall j | 0 <= j < |g| ensures EntryOk(t, p, g[j]) {
      EntryKept(s, t, p, if j < |h| then h[j] else h[luck.pick[p]]);
    }
  }

  lemma StepInv(s: State, a: Action)
    requires Inv(s) && Enabled(s, a)
    ensures Inv(Apply(s, a))
  {
    if IsQuiet(a) {
      QuietInv(s, a);
    } else {
      match a
      case Begin(p, c) => BeginInv(s, p, c);
      case Replace(k) => ReplaceInv(s, k);
      case SyncDir(k, ok) => SyncDirInv(s, k, ok);
      case Crash(luck) => CrashInv(s, luck);
    }
  }

  /** Entries only ever gain values, contents that were published stay, and calls keep
      their arguments. */
  ghost predicate Onward(s: State, t: State) {
    && InodesKept(s, t)
    && WritersKept(s, t)
    && forall p :: Grows(Hist(s, p), Hist(t, p))
  }

  predicate Grows(h: seq<Entry>, g: seq<Entry>) {
    && |h| <= |g|
    && (forall j :: 0 <= j < |h| ==> g[j] == h[j])
    && (forall j :: |h| <= j < |g| ==> g[j].File? || g[j] in h)
  }

  lemma GrowsOn(h: seq<Entry>, g: seq<Entry>, f: seq<Entry>)
    requires Grows(h, g) && Grows(g, f)
    ensures Grows(h, f)
  {
    forall j | |h| <= j < |f| ensures f[j].File? || f[j] in h {
      if j >= |g| && !f[j].File? {
        var i :| 0 <= i < |g| && g[i] == f[j];
      }
    }
  }

  lemma StepOnward(s: State, a: Action)
    requires Inv(s) && Enabled(s, a)
    ensures Onward(s, Apply(s, a))
  {
    var t := Apply(s, a);
    StepKeeps(s, a);
    forall p ensures Grows(Hist(s, p), Hist(t, p)) {
      assert PathOk(s, p);
      if a.Crash? { CrashHist(s, a.luck, p); }
    }
  }

  lemma StepKeeps(s: State, a: Action)
    requires Inv(s) && Enabled(s, a)
    ensures InodesKept(s, Apply(s, a)) && WritersKept(s, Apply(s, a))
  {
    if a.Crash? {
      CrashKeeps(s, a.luck);
    } else if a.Resolve? || a.Look? || a.Make? {
      EarlyStep(s, a);
    } else if a.Write? || a.SyncFile? || a.Chmod? {
      WriteStep(s, a);
    } else if a.Fail? || a.Cleanup? || a.Kill? {
      LateStep(s, a);
    } else if a.Replace? {
      assert WriterOk(s, a.k);
    }
  }

  lemma OnwardOn(s: State, t: State, u: State)
    requires Onward(s, t) && Onward(t, u)
    ensures Onward(s, u)
  {
    forall p ensures Grows(Hist(s, p), Hist(u, p)) {
      GrowsOn(Hist(s, p), Hist(t, p), Hist(u, p));
    }
  }

  lemma {:induction false} RunInv(s: State, acts: seq<Action>)
    requires Inv(s) && Runs(s, acts)
    ensures Inv(Exec(s, acts)) && Onward(s, Exec(s, acts))
    decreases |acts|
  {
    if acts != [] {
      var t := Apply(s, acts[0]);
      StepInv(s, acts[0]);
      StepOnward(s, acts[0]);
      RunInv(t, acts[1..]);
      OnwardOn(s, t, Exec(t, acts[1..]));
    }
  }

  /** What reading a name finds. */
  function Contents(s: State, p: Path): Option<seq<Byte>> {
    var e := Now(s, p);
    if e.File? && e.ino < |s.inodes| then Some(s.inodes[e.ino].data) else None
  }

  ghost predicate WrittenBy(s: State, k: nat, p: Path) {
    k < |s.writers| && s.writers[k].dst == p && Contents(s, p) == Some(s.writers[k].content)
  }

  ghost predicate StillWhole(s: State, t: State, p: Path) {
    && ((Now(t, p) == Now(s, p) && Contents(t, p) == Contents(s, p)) || exists k :: WrittenBy(t, k, p))
    && (Now(s, p).File? ==> Now(t, p).File?)
  }

  /** At every moment of every run, killed calls and machine crashes included, a name
      holds what it held at the start or the whole content of one call that was
      writing to it; a name that held a file always holds one. */
  lemma AlwaysWhole(s: State, acts: seq<Action>, p: Path)
    requires Init(s) && Runs(s, acts)
    ensures StillWhole(s, Exec(s, acts), p)
  {
    InitInv(s);
    RunInv(s, acts);
    WholeLater(s, Exec(s, acts), p);
  }

  lemma WholeLater(s: State, t: State, p: Path)
    requires Init(s) && Inv(t) && Onward(s, t)
    ensures StillWhole(s, t, p)
  {
    var h := Hist(t, p);
    assert PathOk(t, p);
    assert Grows(Hist(s, p), h);
    var e := h[|h| - 1];
    assert EntryOk(t, p, e);
    assert Hist(s, p)[0] == Now(s, p) == h[0];
    if e.File? {
      WholeNow(s, t, p);
    }
  }

  lemma WholeNow(s: State, t: State, p: Path)
    requires Init(s) && Onward(s, t) && PathOk(t, p) && Now(t, p).File? && EntryOk(t, p, Now(t, p))
    requires Hist(t, p)[0] == Now(s, p)
    ensures (Now(t, p) == Now(s, p) && Contents(t, p) == Contents(s, p)) || exists k :: WrittenBy(t, k, p)
  {
    var x := t.inodes[Now(t, p).ino];
    if x.origin.By? {
      assert WrittenBy(t, x.origin.writer, p);
    } else {
      assert SameContent(s.inodes[Now(s, p).ino], x);
    }
  }

  /* Durability. */

  ghost predicate NoReturn(h: seq<Entry>, at: nat) {
    && (forall i, j :: 0 <= i < at <= j < |h| ==> h[i] != h[j])
    && (forall j :: at <= j < |h| ==> h[j].File?)
  }

  /** Once the rename has happened and until a crash, and for good once the directory
      was synced, nothing older than the call's own file can be found. */
  ghost predicate Settled(s: State, k: nat)
    requires k < |s.writers|
  {
    var w := s.writers[k];
    var h := Hist(s, w.dst);
    w.pc == Replaced || w.pc == Returned(true) ==>
      && 1 <= w.at < |h| && h[w.at] == File(w.ino) && NoReturn(h, w.at)
      && (w.pc == Returned(true) ==> w.at <= Floor(s, w.dst))
  }

  lemma StepSettled(s: State, a: Action, k: nat)
    requires Inv(s) && Enabled(s, a) && k < |s.writers| && Settled(s, k)
    ensures k < |Apply(s, a).writers| && Settled(Apply(s, a), k)
  {
    match a
    case Replace(m) => ReplaceSettled(s, m, k);
    case Crash(luck) => CrashSettled(s, luck, k);
    case SyncDir(m, ok) => assert PathOk(s, s.writers[k].dst);
    case _ => SettledStays(s, a, k);
  }

  lemma SettledStays(s: State, a: Action, k: nat)
    requires Enabled(s, a) && !a.Replace? && !a.Crash? && !a.SyncDir? && k < |s.writers| && Settled(s, k)
    ensures k < |Apply(s, a).writers| && Settled(Apply(s, a), k)
  {
  }

  lemma FreshEntry(s: State, m: nat, p: Path)
    requires m < |s.writers| && TempOk(s, m) && PathOk(s, p)
    ensures File(s.writers[m].ino) !in Hist(s, p)
  {
  }

  lemma ReplaceSettled(s: State, m: nat, k: nat)
    requires Inv(s) && Enabled(s, Replace(m)) && k < |s.writers| && Settled(s, k)
    ensures Settled(Replacing(s, m), k)
  {
    assert WriterOk(s, m);
    var p := s.writers[k].dst;
    assert PathOk(s, p);
    FreshEntry(s, m, p);
  }

  lemma CrashSettled(s: State, luck: Luck, k: nat)
    requires Inv(s) && Enabled(s, Crash(luck)) && k < |s.writers| && Settled(s, k)
    ensures Settled(Crashing(s, luck), k)
  {
    var p := s.writers[k].dst;
    assert PathOk(s, p);
    CrashHist(s, luck, p);
  }

  lemma {:induction false} RunSettled(s: State, acts: seq<Action>, k: nat)
    requires Inv(s) && Runs(s, acts) && k < |s.writers| && Settled(s, k)
    ensures k < |Exec(s, acts).writers| && Settled(Exec(s, acts), k)
    decreases |acts|
  {
    if acts != [] {
      StepInv(s, acts[0]);
      StepSettled(s, acts[0], k);
      RunSettled(Apply(s, acts[0]), acts[1..], k);
    }
  }

  ghost predicate AllSettled(s: State) {
    forall k :: 0 <= k < |s.writers| ==> Settled(s, k)
  }

  lemma StepAllSettled(s: State, a: Action)
    requires Inv(s) && Enabled(s, a) && AllSettled(s)
    ensures AllSettled(Apply(s, a))
  {
    var t := Apply(s, a);
    forall k | 0 <= k < |t.writers| ensures Settled(t, k) {
      if k < |s.writers| { StepSettled(s, a, k); }
    }
  }

  lemma {:induction false} RunAllSettled(s: State, acts: seq<Action>)
    requires Inv(s) && Runs(s, acts) && AllSettled(s)
    ensures AllSettled(Exec(s, acts))
    decreases |acts|
  {
    if acts != [] {
      StepInv(s, acts[0]);
      StepAllSettled(s, acts[0]);
      RunAllSettled(Apply(s, acts[0]), acts[1..]);
    }
  }

  /** After a return with the directory synced, whatever happens next, the name holds
      the whole content of that call or of one that replaced the file after it: no
      earlier file ever comes back. */
  lemma DurableOnceReturned(s: State, before: seq<Action>, after: seq<Action>, k: nat)
    requires Init(s) && Runs(s, before) && At(Exec(s, before), k, Returned(true))
    requires Runs(Exec(s, before), after)
    ensures var u := Exec(Exec(s, before), after);
            && k < |u.writers|
            && var w := u.writers[k];
               && w.at < |Hist(u, w.dst)|
               && Hist(u, w.dst)[w.at] == File(w.ino)
               && Now(u, w.dst) !in Hist(u, w.dst)[..w.at]
               && exists m :: WrittenBy(u, m, w.dst)
  {
    InitInv(s);
    RunInv(s, before);
    RunAllSettled(s, before);
    var t := Exec(s, before);
    RunInv(t, after);
    RunSettled(t, after, k);
    RunReturned(t, after, k);
    SettledNow(Exec(t, after), k);
  }

  lemma {:induction false} RunReturned(s: State, acts: seq<Action>, k: nat)
    requires Runs(s, acts) && At(s, k, Returned(true))
    ensures At(Exec(s, acts), k, Returned(true))
    decreases |acts|
  {
    if acts != [] { RunReturned(Apply(s, acts[0]), acts[1..], k); }
  }

  lemma SettledNow(u: State, k: nat)
    requires Inv(u) && At(u, k, Returned(true)) && Settled(u, k)
    ensures var w := u.writers[k];
            && w.at < |Hist(u, w.dst)|
            && Now(u, w.dst) !in Hist(u, w.dst)[..w.at]
            && exists m :: WrittenBy(u, m, w.dst)
  {
    var w := u.writers[k];
    var h := Hist(u, w.dst);
    var e := h[|h| - 1];
    assert PathOk(u, w.dst);
    assert EntryOk(u, w.dst, e);
    assert h[0] != e;
    var x := u.inodes[e.ino];
    assert WrittenBy(u, x.origin.writer, w.dst);
  }

  /** When the directory could not be synced the call returns as well, and a crash may
      still bring the old file back. */
  lemma WithoutDirSync(s: State, k: nat)
    requires Inv(s) && At(s, k, Replaced) && Settled(s, k)
    requires s.writers[k].dst in s.hist && Floor(s, s.writers[k].dst) < s.writers[k].at
    ensures var w := s.writers[k];
            var lost := Crash(Luck(map[w.dst := Floor(s, w.dst)], map[], {}));
            var t := Apply(s, SyncDir(k, false));
            && Enabled(s, SyncDir(k, false)) && Enabled(t, lost)
            && Now(Apply(t, lost), w.dst) == Hist(s, w.dst)[Floor(s, w.dst)] != File(w.ino)
  {
    var w := s.writers[k];
    assert PathOk(s, w.dst);
    var t := SyncingDir(s, k, false);
    var luck := Luck(map[w.dst := Floor(s, w.dst)], map[], {});
    SyncDirInv(s, k, false);
    assert PathOk(t, w.dst);
    CrashHist(t, luck, w.dst);
  }

  /** A call that fails removes its file and leaves the target alone, unless the
      failure comes after the rename: then it raises although its content is there. */
  lemma RaisingCall(s: State, k: nat)
    requires Inv(s) && Enabled(s, Fail(k)) && Settled(s, k)
    ensures var t := Apply(s, Fail(k));
            && Enabled(t, Cleanup(k, true))
            && var u := Apply(t, Cleanup(k, true));
               && At(u, k, Raised) && !u.writers[k].linked && u.hist == s.hist
               && (File(s.writers[k].ino) in Hist(s, s.writers[k].dst) <==> s.writers[k].pc == Replaced)
  {
    var w := s.writers[k];
    assert PathOk(s, w.dst);
    assert WriterOk(s, k);
    if w.pc != Replaced { FreshEntry(s, k, w.dst); }
  }

  /* Modes and links, at run time. */

  ghost predicate NoCrash(acts: seq<Action>) {
    forall i :: 0 <= i < |acts| ==> !acts[i].Crash?
  }

  function FirstEntry(s: State, p: Path): Entry {
    var h := Hist(s, p);
    if h == [] then Absent else h[0]
  }

  /** The mode every file under this name has: that of the first one, or the private
      one when there was none. */
  function NameMode(s: State, p: Path): nat {
    var e := FirstEntry(s, p);
    if e.File? && e.ino < |s.inodes| then s.inodes[e.ino].mode else PRIVATE
  }

  ghost predicate ModesOk(s: State, p: Path) {
    forall j :: 0 <= j < |Hist(s, p)| && Hist(s, p)[j].File? && Hist(s, p)[j].ino < |s.inodes| ==>
      s.inodes[Hist(s, p)[j].ino].mode == NameMode(s, p)
  }

  ghost predicate CallModeOk(s: State, k: nat)
    requires k < |s.writers|
  {
    var w := s.writers[k];
    && (w.pc == Looked || w.pc == Made || w.pc == Synced || w.pc == Moded ==>
          NameMode(s, w.dst) == if w.mode.Some? then w.mode.value else PRIVATE)
    && (w.pc == Made || w.pc == Synced ==> w.ino < |s.inodes| && s.inodes[w.ino].mode == PRIVATE)
    && (w.pc == Moded ==> w.ino < |s.inodes| && s.inodes[w.ino].mode == NameMode(s, w.dst))
  }

  ghost predicate ModeInv(s: State) {
    && (forall p :: ModesOk(s, p))
    && (forall k :: 0 <= k < |s.writers| ==> CallModeOk(s, k))
  }

  /** No step but a crash changes the mode of a published file. */
  ghost predicate ModesKept(s: State, t: State) {
    && |s.inodes| <= |t.inodes|
    && forall i :: 0 <= i < |s.inodes| && s.inodes[i].published ==> t.inodes[i].mode == s.inodes[i].mode
  }

  lemma StepModesKept(s: State, a: Action)
    requires Inv(s) && Enabled(s, a) && !a.Crash?
    ensures ModesKept(s, Apply(s, a))
  {
    if a.Write? || a.SyncFile? || a.Chmod? || a.Replace? { assert WriterOk(s, a.k); }
  }

  lemma NameModeKept(s: State, t: State, p: Path)
    requires PathOk(s, p) && ModesKept(s, t) && Grows(Hist(s, p), Hist(t, p))
    ensures NameMode(t, p) == NameMode(s, p)
  {
    assert EntryOk(s, p, Hist(s, p)[0]);
  }

  lemma SameHistModes(s: State, t: State, p: Path)
    requires PathOk(s, p) && ModesKept(s, t) && Hist(t, p) == Hist(s, p) && ModesOk(s, p)
    ensures ModesOk(t, p)
  {
    var h := Hist(s, p);
    assert EntryOk(s, p, h[0]);
    forall j | 0 <= j < |h| && h[j].File? && h[j].ino < |t.inodes|
      ensures t.inodes[h[j].ino].mode == NameMode(t, p)
    {
      assert EntryOk(s, p, h[j]);
    }
  }

  lemma StepPathModes(s: State, a: Action, p: Path)
    requires Inv(s) && ModeInv(s) && Enabled(s, a) && !a.Crash?
    ensures ModesOk(Apply(s, a), p)
  {
    var t := Apply(s, a);
    StepModesKept(s, a);
    assert PathOk(s, p) && ModesOk(s, p);
    if a.Replace? && s.writers[a.k].dst == p {
      ReplacedModes(s, a.k);
    } else {
      SameHistModes(s, t, p);
    }
  }

  lemma ReplacedModes(s: State, k: nat)
    requires Inv(s) && ModeInv(s) && Enabled(s, Replace(k))
    ensures ModesOk(Replacing(s, k), s.writers[k].dst)
  {
    var p := s.writers[k].dst;
    var t := Replacing(s, k);
    var h, g := Hist(s, p), Hist(t, p);
    assert PathOk(s, p) && ModesOk(s, p) && CallModeOk(s, k);
    StepModesKept(s, Replace(k));
    NameModeKept(s, t, p);
    forall j | 0 <= j < |g| && g[j].File? && g[j].ino < |t.inodes| ensures t.inodes[g[j].ino].mode == NameMode(t, p) {
      if j < |h| { assert EntryOk(s, p, h[j]); }
    }
  }

  lemma StepCallMode(s: State, a: Action, k: nat)
    requires Inv(s) && ModeInv(s) && Enabled(s, a) && !a.Crash? && k < |Apply(s, a).writers|
    ensures CallModeOk(Apply(s, a), k)
  {
    if k < |s.writers| {
      StepModesKept(s, a);
      StepOnward(s, a);
      var p := s.writers[k].dst;
      assert PathOk(s, p) && CallModeOk(s, k) && WriterOk(s, k);
      assert Grows(Hist(s, p), Hist(Apply(s, a), p));
      NameModeKept(s, Apply(s, a), p);
      if a.Look? && a.k == k {
        LookedMode(s, k);
      } else {
        CallModeStays(s, a, k);
      }
    }
  }

  lemma LookedMode(s: State, k: nat)
    requires Inv(s) && ModeInv(s) && Enabled(s, Look(k))
    ensures CallModeOk(Looking(s, k), k)
  {
    var p := s.writers[k].dst;
    var h := Hist(s, p);
    assert PathOk(s, p) && ModesOk(s, p);
    assert EntryOk(s, p, h[|h| - 1]);
    assert NameMode(Looking(s, k), p) == NameMode(s, p);
  }

  lemma CallModeStays(s: State, a: Action, k: nat)
    requires Inv(s) && Enabled(s, a) && !a.Crash? && k < |s.writers| && !(a.Look? && a.k == k)
    requires CallModeOk(s, k) && NameMode(Apply(s, a), s.writers[k].dst) == NameMode(s, s.writers[k].dst)
    requires WriterOk(s, k)
    ensures CallModeOk(Apply(s, a), k)
  {
    if IsQuiet(a) && a.k == k {
      OwnCallMode(s, a);
    } else if a.Write? || a.SyncFile? || a.Chmod? || a.Replace? {
      OtherCallMode(s, a, k);
    }
  }

  lemma OwnCallMode(s: State, a: Action)
    requires Enabled(s, a) && IsQuiet(a) && !a.Look?
    requires CallModeOk(s, a.k) && (a.Resolve? || NameMode(Apply(s, a), s.writers[a.k].dst) == NameMode(s, s.writers[a.k].dst))
    ensures CallModeOk(Apply(s, a), a.k)
  {
  }

  lemma OtherCallMode(s: State, a: Action, k: nat)
    requires Inv(s) && Enabled(s, a) && (a.Write? || a.SyncFile? || a.Chmod? || a.Replace?) && k < |s.writers|
    requires a.Replace? || a.k != k
    requires CallModeOk(s, k) && NameMode(Apply(s, a), s.writers[k].dst) == NameMode(s, s.writers[k].dst)
    ensures CallModeOk(Apply(s, a), k)
  {
    assert WriterOk(s, k) && WriterOk(s, a.k);
  }

  lemma StepModes(s: State, a: Action)
    requires Inv(s) && ModeInv(s) && Enabled(s, a) && !a.Crash?
    ensures ModeInv(Apply(s, a))
  {
    var t := Apply(s, a);
    forall p ensures ModesOk(t, p) { StepPathModes(s, a, p); }
    forall k | 0 <= k < |t.writers| ensures CallModeOk(t, k) { StepCallMode(s, a, k); }
  }

  lemma StepNameMode(s: State, a: Action, p: Path)
    requires Inv(s) && Enabled(s, a) && !a.Crash?
    ensures NameMode(Apply(s, a), p) == NameMode(s, p)
  {
    StepModesKept(s, a);
    StepOnward(s, a);
    assert PathOk(s, p);
    assert Grows(Hist(s, p), Hist(Apply(s, a), p));
    NameModeKept(s, Apply(s, a), p);
  }

  lemma {:induction false} RunModes(s: State, acts: seq<Action>, p: Path)
    requires Inv(s) && ModeInv(s) && Runs(s, acts) && NoCrash(acts)
    ensures ModeInv(Exec(s, acts)) && NameMode(Exec(s, acts), p) == NameMode(s, p)
    decreases |acts|
  {
    if acts != [] {
      assert !acts[0].Crash?;
      assert NoCrash(acts[1..]);
      StepInv(s, acts[0]);
      StepModes(s, acts[0]);
      StepNameMode(s, acts[0], p);
      RunModes(Apply(s, acts[0]), acts[1..], p);
    }
  }

  /** While the machine runs, the file under a name always has the mode the first file
      there had, whoever rewrites it and however often. */
  lemma ModeNeverMoves(s: State, acts: seq<Action>, p: Path)
    requires Init(s) && Runs(s, acts) && NoCrash(acts)
    ensures ModeOf(s, p).Some? ==> ModeOf(Exec(s, acts), p) == ModeOf(s, p)
    ensures ModeOf(s, p).None? && ModeOf(Exec(s, acts), p).Some? ==> ModeOf(Exec(s, acts), p) == Some(PRIVATE)
  {
    InitInv(s);
    InitModes(s);
    RunModes(s, acts, p);
    AlwaysWhole(s, acts, p);
    RunInv(s, acts);
    ModeNow(Exec(s, acts), p);
    ModeNow(s, p);
    var t := Exec(s, acts);
    assert PathOk(t, p) && Grows(Hist(s, p), Hist(t, p));
  }

  lemma ModeNow(t: State, p: Path)
    requires Inv(t) && ModesOk(t, p)
    ensures Now(t, p).File? ==> ModeOf(t, p) == Some(NameMode(t, p))
    ensures FirstEntry(t, p).File? ==> Now(t, p).File?
  {
    var h := Hist(t, p);
    assert PathOk(t, p);
    assert EntryOk(t, p, h[|h| - 1]);
  }

  /** On disk a file made by a call has the mode it was made with. */
  ghost predicate SavedPrivate(s: State) {
    forall i :: 0 <= i < |s.inodes| && s.inodes[i].origin.By? ==> s.inodes[i].saved == PRIVATE
  }

  lemma StepSaved(s: State, a: Action)
    requires ModeInv(s) && SavedPrivate(s) && Enabled(s, a) && !a.Crash?
    ensures SavedPrivate(Apply(s, a))
  {
    if a.SyncFile? { assert CallModeOk(s, a.k); }
  }

  lemma {:induction false} RunSaved(s: State, acts: seq<Action>)
    requires Inv(s) && ModeInv(s) && SavedPrivate(s) && Runs(s, acts) && NoCrash(acts)
    ensures SavedPrivate(Exec(s, acts))
    decreases |acts|
  {
    if acts != [] {
      assert !acts[0].Crash?;
      assert NoCrash(acts[1..]);
      StepInv(s, acts[0]);
      StepModes(s, acts[0]);
      StepSaved(s, acts[0]);
      RunSaved(Apply(s, acts[0]), acts[1..]);
    }
  }

  ghost predicate EveryCrashKeepsMode(t: State, p: Path) {
    forall luck :: Enabled(t, Crash(luck)) ==> ModeOf(Apply(t, Crash(luck)), p) == ModeOf(t, p)
  }

  /** A crash can undo the mode all the same: it is set after the file was synced and
      before the directory is, so it may never have reached the disk.  After any run
      without one and a durable return, every crash keeps the mode exactly when it is
      the private one, which the file was made with. */
  lemma CrashKeepsPrivateOnly(s: State, acts: seq<Action>, k: nat)
    requires Init(s) && Runs(s, acts) && NoCrash(acts) && At(Exec(s, acts), k, Returned(true))
    ensures var t := Exec(s, acts);
            EveryCrashKeepsMode(t, t.writers[k].dst) <==> ModeOf(t, t.writers[k].dst) == Some(PRIVATE)
  {
    InitInv(s);
    InitModes(s);
    RunInv(s, acts);
    RunSaved(s, acts);
    RunAllSettled(s, acts);
    RunModes(s, acts, Exec(s, acts).writers[k].dst);
    KeepsIffPrivate(Exec(s, acts), k);
  }

  lemma KeepsIffPrivate(t: State, k: nat)
    requires Inv(t) && ModeInv(t) && SavedPrivate(t) && At(t, k, Returned(true)) && Settled(t, k)
    ensures EveryCrashKeepsMode(t, t.writers[k].dst) <==> ModeOf(t, t.writers[k].dst) == Some(PRIVATE)
  {
    var p := t.writers[k].dst;
    NowSettled(t, k);
    var lost := Luck(map[], map[], {Now(t, p).ino});
    assert Enabled(t, Crash(lost));
    assert PathOk(t, p);
    SavedModes(t, lost, p);
    assert ModeOf(Apply(t, Crash(lost)), p) == Some(PRIVATE);
    if ModeOf(t, p) == Some(PRIVATE) {
      forall luck | Enabled(t, Crash(luck)) ensures ModeOf(Apply(t, Crash(luck)), p) == ModeOf(t, p) {
        CrashedMode(t, luck, k);
      }
    }
  }

  lemma NowSettled(t: State, k: nat)
    requires Inv(t) && ModeInv(t) && SavedPrivate(t) && At(t, k, Returned(true)) && Settled(t, k)
    ensures var p := t.writers[k].dst;
            && Now(t, p).File? && Now(t, p).ino < |t.inodes|
            && ModeOf(t, p) == Some(NameMode(t, p)) && t.inodes[Now(t, p).ino].saved == PRIVATE
  {
    var h := Hist(t, t.writers[k].dst);
    LateEntry(t, k, |h| - 1);
  }

  /** Every file published at or after a durable return. */
  lemma LateEntry(t: State, k: nat, j: nat)
    requires Inv(t) && ModeInv(t) && SavedPrivate(t) && At(t, k, Returned(true)) && Settled(t, k)
    requires t.writers[k].at <= j < |Hist(t, t.writers[k].dst)|
    ensures var p := t.writers[k].dst;
            var e := Hist(t, p)[j];
            && e.File? && e.ino < |t.inodes|
            && t.inodes[e.ino].mode == NameMode(t, p) && t.inodes[e.ino].saved == PRIVATE
  {
    var p := t.writers[k].dst;
    var h := Hist(t, p);
    assert PathOk(t, p) && ModesOk(t, p);
    assert EntryOk(t, p, h[j]);
    assert h[0] != h[j];
  }

  lemma CrashedMode(t: State, luck: Luck, k: nat)
    requires Inv(t) && ModeInv(t) && SavedPrivate(t) && At(t, k, Returned(true)) && Settled(t, k)
    requires Enabled(t, Crash(luck)) && NameMode(t, t.writers[k].dst) == PRIVATE
    ensures ModeOf(Crashing(t, luck), t.writers[k].dst) == Some(PRIVATE)
  {
    var p := t.writers[k].dst;
    var h := Hist(t, p);
    assert PathOk(t, p);
    CrashHist(t, luck, p);
    LateEntry(t, k, if p in luck.pick then luck.pick[p] else |h| - 1);
  }

  lemma InitModes(s: State)
    requires Init(s)
    ensures ModeInv(s)
  {
    forall q ensures ModesOk(s, q) { assert Hist(s, q)[0] == Now(s, q); }
  }

  lemma SavedModes(s: State, luck: Luck, p: Path)
    requires PathOk(s, p) && Enabled(s, Crash(luck)) && p !in luck.pick
    requires Now(s, p).File? && Now(s, p).ino in luck.fallback && Now(s, p).ino < |s.inodes|
    ensures ModeOf(Crashing(s, luck), p) == Some(s.inodes[Now(s, p).ino].saved)
  {
    CrashHist(s, luck, p);
  }

  /* Links. */

  function To(s: State, p: Path): Path {
    if Now(s, p).Link? then Now(s, p).to else p
  }

  function Hops(s: State, p: Path, n: nat): Path {
    if n == 0 then p else Hops(s, To(s, p), n - 1)
  }

  ghost predicate LeadsTo(s: State, q: Path, p: Path) {
    exists m: nat :: m > 0 && Hops(s, q, m) == p
  }

  lemma {:induction false} HopsAdd(s: State, p: Path, n: nat, m: nat)
    ensures Hops(s, p, n + m) == Hops(s, Hops(s, p, n), m)
    decreases n
  {
    if n > 0 { HopsAdd(s, To(s, p), n - 1, m); }
  }

  lemma {:induction false} StaysPlain(s: State, p: Path, n: nat)
    requires !Now(s, p).Link?
    ensures Hops(s, p, n) == p
    decreases n
  {
    if n > 0 { StaysPlain(s, p, n - 1); }
  }

  /** Before a hop onto a link there are only links. */
  lemma LinksBefore(s: State, p: Path, n: nat, k: nat)
    requires n <= k && Now(s, Hops(s, p, k)).Link?
    ensures Now(s, Hops(s, p, n)).Link?
  {
    HopsAdd(s, p, n, k - n);
    if !Now(s, Hops(s, p, n)).Link? { StaysPlain(s, Hops(s, p, n), k - n); }
  }

  lemma {:induction false} LoopNeverEnds(s: State, p: Path, m: nat, n: nat)
    requires m > 0 && Hops(s, p, m) == p && Now(s, p).Link?
    ensures Now(s, Hops(s, p, n)).Link?
    decreases n
  {
    if n >= m {
      HopsAdd(s, p, m, n - m);
      LoopNeverEnds(s, p, m, n - m);
    } else {
      LinksBefore(s, p, n, m);
    }
  }

  lemma {:induction false} FollowEnds(s: State, p: Path, seen: set<Path>) returns (k: nat)
    requires forall q :: q in seen ==> LeadsTo(s, q, p)
    ensures Hops(s, p, k) == Follow(s, p, seen)
    ensures Now(s, Follow(s, p, seen)).Link? ==> LeadsTo(s, Follow(s, p, seen), Follow(s, p, seen))
    decreases s.hist.Keys - seen
  {
    if !Now(s, p).Link? || p in seen {
      k := 0;
    } else {
      assert p in s.hist.Keys - seen;
      var next := To(s, p);
      forall q | q in seen + {p} ensures LeadsTo(s, q, next) { OneHopOn(s, q, p, q in seen); }
      k := FollowEnds(s, next, seen + {p});
      k := k + 1;
    }
  }

  lemma OneHopOn(s: State, q: Path, p: Path, before: bool)
    requires if before then LeadsTo(s, q, p) else q == p
    ensures LeadsTo(s, q, To(s, p))
  {
    var one: nat := 1;
    assert Hops(s, To(s, p), 0) == To(s, p) && Hops(s, p, one) == To(s, p);
    if before {
      var m: nat :| m > 0 && Hops(s, q, m) == p;
      HopsAdd(s, q, m, one);
      assert Hops(s, q, m + one) == To(s, p);
    }
  }

  /** The name a path resolves to is itself a link exactly when the chain of links from
      the path never ends. */
  lemma ResolvesToLinkIffEndless(s: State, p: Path)
    ensures Now(s, Real(s, p)).Link? <==> (forall n: nat :: Now(s, Hops(s, p, n)).Link?)
  {
    var k := FollowEnds(s, p, {});
    var r := Real(s, p);
    if Now(s, r).Link? {
      var m: nat :| m > 0 && Hops(s, r, m) == r;
      forall n: nat ensures Now(s, Hops(s, p, n)).Link? {
        if n >= k {
          HopsAdd(s, p, k, n - k);
          LoopNeverEnds(s, r, m, n - k);
        } else {
          LinksBefore(s, p, n, k);
        }
      }
    }
  }

  /** A name that has never been anything but one link. */
  ghost predicate OnlyLink(s: State, p: Path) {
    Now(s, p).Link? && forall j :: 0 <= j < |Hist(s, p)| ==> Hist(s, p)[j] == Now(s, p)
  }

  predicate ReplacesAt(s: State, a: Action, p: Path)
    requires Enabled(s, a)
  {
    a.Replace? && s.writers[a.k].dst == p
  }

  /** One step keeps a link exactly when it is not a rename onto it; such a rename
      leaves a file in its place. */
  lemma StepLink(s: State, a: Action, p: Path)
    requires Inv(s) && OnlyLink(s, p) && Enabled(s, a)
    ensures Now(Apply(s, a), p) == Now(s, p) <==> !ReplacesAt(s, a, p)
    ensures if ReplacesAt(s, a, p) then Now(Apply(s, a), p).File? else OnlyLink(Apply(s, a), p)
  {
    assert PathOk(s, p);
    if a.Crash? { CrashHist(s, a.luck, p); }
  }

  predicate NeverReplacesAt(s: State, acts: seq<Action>, p: Path)
    requires Runs(s, acts)
    decreases |acts|
  {
    acts == [] || (!ReplacesAt(s, acts[0], p) && NeverReplacesAt(Apply(s, acts[0]), acts[1..], p))
  }

  predicate AlwaysIs(s: State, acts: seq<Action>, p: Path, e: Entry)
    requires Runs(s, acts)
    decreases |acts|
  {
    Now(s, p) == e && (acts == [] || AlwaysIs(Apply(s, acts[0]), acts[1..], p, e))
  }

  lemma {:induction false} RunLink(s: State, acts: seq<Action>, p: Path)
    requires Inv(s) && OnlyLink(s, p) && Runs(s, acts)
    ensures AlwaysIs(s, acts, p, Now(s, p)) <==> NeverReplacesAt(s, acts, p)
    ensures NeverReplacesAt(s, acts, p) ==> Now(Exec(s, acts), p) == Now(s, p)
    decreases |acts|
  {
    if acts != [] {
      var t := Apply(s, acts[0]);
      StepInv(s, acts[0]);
      StepLink(s, acts[0], p);
      if ReplacesAt(s, acts[0], p) {
        assert !AlwaysIs(t, acts[1..], p, Now(s, p));
      } else {
        RunLink(t, acts[1..], p);
      }
    }
  }

  lemma InitLink(s: State, p: Path)
    requires Init(s) && Now(s, p).Link?
    ensures OnlyLink(s, p)
  {
    assert |Hist(s, p)| == 1;
  }

  /** In every run, crashes included, a link is the same link in every state exactly
      when no call renames its file onto it. */
  lemma LinkStays(s: State, acts: seq<Action>, p: Path)
    requires Init(s) && Now(s, p).Link? && Runs(s, acts)
    ensures AlwaysIs(s, acts, p, Now(s, p)) <==> NeverReplacesAt(s, acts, p)
  {
    InitInv(s);
    InitLink(s, p);
    RunLink(s, acts, p);
  }

  predicate ResolvesTo(s: State, a: Action, p: Path)
    requires Enabled(s, a)
  {
    a.Resolve? && Real(s, s.writers[a.k].path) == p
  }

  predicate NeverResolvesTo(s: State, acts: seq<Action>, p: Path)
    requires Runs(s, acts)
    decreases |acts|
  {
    acts == [] || (!ResolvesTo(s, acts[0], p) && NeverResolvesTo(Apply(s, acts[0]), acts[1..], p))
  }

  predicate Pending(pc: Pc) { pc == Resolved || pc == Looked || pc == Made || pc == Synced || pc == Moded }

  ghost predicate NonePending(s: State, p: Path) {
    forall k :: 0 <= k < |s.writers| && Pending(s.writers[k].pc) ==> s.writers[k].dst != p
  }

  lemma StepNonePending(s: State, a: Action, p: Path)
    requires NonePending(s, p) && Enabled(s, a) && !ResolvesTo(s, a, p)
    ensures NonePending(Apply(s, a), p) && !ReplacesAt(s, a, p)
  {
  }

  lemma {:induction false} UnresolvedUnreplaced(s: State, acts: seq<Action>, p: Path)
    requires NonePending(s, p) && Runs(s, acts) && NeverResolvesTo(s, acts, p)
    ensures NeverReplacesAt(s, acts, p)
    decreases |acts|
  {
    if acts != [] {
      StepNonePending(s, acts[0], p);
      UnresolvedUnreplaced(Apply(s, acts[0]), acts[1..], p);
    }
  }

  /** So a link that no call resolves to is kept, whatever loops there are elsewhere. */
  lemma LinkOffTheCallsStays(s: State, acts: seq<Action>, p: Path)
    requires Init(s) && Now(s, p).Link? && Runs(s, acts) && NeverResolvesTo(s, acts, p)
    ensures AlwaysIs(s, acts, p, Now(s, p)) && Now(Exec(s, acts), p) == Now(s, p)
  {
    UnresolvedUnreplaced(s, acts, p);
    InitInv(s);
    InitLink(s, p);
    RunLink(s, acts, p);
  }

  ghost predicate SameLinks(s: State, t: State) {
    forall p :: (Now(s, p).Link? || Now(t, p).Link?) ==> Now(t, p) == Now(s, p)
  }

  lemma {:induction false} SameFollow(s: State, t: State, p: Path, seen: set<Path>)
    requires SameLinks(s, t)
    ensures Follow(t, p, seen) == Follow(s, p, seen)
    decreases s.hist.Keys - seen
  {
    if Now(s, p).Link? && p !in seen {
      assert p in s.hist.Keys - seen;
      SameFollow(s, t, Now(s, p).to, seen + {p});
    }
  }

  /** When no call resolves to a link, all links stay and every path goes on leading to
      the name that was rewritten. */
  lemma PathsStillLead(s: State, acts: seq<Action>, p: Path)
    requires Init(s) && Runs(s, acts)
    requires forall q :: Now(s, q).Link? ==> NeverResolvesTo(s, acts, q)
    ensures SameLinks(s, Exec(s, acts)) && Real(Exec(s, acts), p) == Real(s, p)
  {
    var t := Exec(s, acts);
    InitInv(s);
    RunInv(s, acts);
    forall q | Now(s, q).Link? || Now(t, q).Link? ensures Now(t, q) == Now(s, q) {
      if Now(s, q).Link? { LinkOffTheCallsStays(s, acts, q); } else { NoNewLinks(s, t, q); }
    }
    SameFollow(s, t, p, {});
  }

  lemma NoNewLinks(s: State, t: State, q: Path)
    requires Init(s) && Onward(s, t) && !Now(s, q).Link?
    ensures !Now(t, q).Link?
  {
    var h, g := Hist(s, q), Hist(t, q);
    assert |h| == 1 && Grows(h, g);
  }

  /* The helper, system call by system call. */

  lemma {:induction false} RunsSnoc(s: State, acts: seq<Action>, a: Action)
    requires Runs(s, acts) && Enabled(Exec(s, acts), a)
    ensures Runs(s, acts + [a]) && Exec(s, acts + [a]) == Apply(Exec(s, acts), a)
    decreases |acts|
  {
    if acts == [] {
      assert acts + [a] == [a];
      assert Exec(Apply(s, a), []) == Apply(s, a);
    } else {
      assert (acts + [a])[1..] == acts[1..] + [a];
      RunsSnoc(Apply(s, acts[0]), acts[1..], a);
    }
  }

  lemma Extend(s: State, acts: seq<Action>, a: Action) returns (more: seq<Action>)
    requires Runs(s, acts) && Enabled(Exec(s, acts), a)
    ensures more == acts + [a] && Runs(s, more) && Exec(s, more) == Apply(Exec(s, acts), a)
  {
    RunsSnoc(s, acts, a);
    more := acts + [a];
  }

  /** Where an exception strikes. */
  datatype Fault = AtMkstemp | AtWrite | AtChmod | AtReplace | Interrupted | Nowhere

  /** Every link is still the link it was. */
  ghost predicate KeepsLinks(s: State, t: State) {
    forall p :: Now(s, p).Link? ==> Now(t, p) == Now(s, p)
  }

  /** Putting a file under one name keeps all links exactly when that name is not one. */
  lemma LinksOfACall(s: State, t: State, dst: Path, ino: nat)
    requires t.hist == s.hist[dst := Hist(s, dst) + [File(ino)]]
    ensures KeepsLinks(s, t) <==> !Now(s, dst).Link?
  {
    assert Now(t, dst) == File(ino);
  }

  class FileSystem {
    var hist: map<Path, seq<Entry>>
    var floor: map<Path, nat>
    var inodes: seq<Inode>
    var writers: seq<Writer>

    ghost function Snapshot(): State
      reads this
    {
      State(hist, floor, inodes, writers)
    }

    method Start(path: Path, content: seq<Byte>) returns (k: nat)
      modifies this`writers
      ensures k == |old(writers)| && Snapshot() == Apply(old(Snapshot()), Begin(path, content))
    {
      k := |writers|;
      writers := writers + [Writer(path, content, Begun, path, None, 0, false, 0)];
    }

    method Realpath(k: nat)
      requires At(Snapshot(), k, Begun)
      modifies this`writers
      ensures Snapshot() == Resolving(old(Snapshot()), k)
    {
      var p := writers[k].path;
      var seen: set<Path> := {};
      ghost var s := Snapshot();
      while Current(p).Link? && p !in seen
        invariant Snapshot() == s && Follow(s, p, seen) == Real(s, s.writers[k].path)
        decreases hist.Keys - seen
      {
        assert p in hist.Keys - seen;
        p, seen := Current(p).to, seen + {p};
      }
      assert p == Real(s, s.writers[k].path);
      writers := writers[k := writers[k].(pc := Resolved, dst := p)];
    }

    function Current(p: Path): (e: Entry)
      reads this
      ensures e == Now(Snapshot(), p)
    {
      if p !in hist || hist[p] == [] then Absent else hist[p][|hist[p]| - 1]
    }

    method StatMode(k: nat)
      requires At(Snapshot(), k, Resolved)
      modifies this`writers
      ensures Snapshot() == Looking(old(Snapshot()), k)
    {
      var e := Current(writers[k].dst);
      var mode := if e.File? && e.ino < |inodes| then Some(inodes[e.ino].mode) else None;
      writers := writers[k := writers[k].(pc := Looked, mode := mode)];
    }

    method Mkstemp(k: nat)
      requires At(Snapshot(), k, Looked)
      modifies this`writers, this`inodes
      ensures Snapshot() == Making(old(Snapshot()), k)
    {
      writers := writers[k := writers[k].(pc := Made, ino := |inodes|, linked := true)];
      inodes := inodes + [Inode([], false, PRIVATE, PRIVATE, writers[k].content, By(k), false)];
    }

    method WriteAndSync(k: nat)
      requires At(Snapshot(), k, Made) && HasInode(Snapshot(), k)
      modifies this`writers, this`inodes
      ensures Snapshot() == SyncingFile(old(Snapshot()), k)
    {
      var i := writers[k].ino;
      inodes := inodes[i := inodes[i].(data := writers[k].content, synced := true, saved := inodes[i].mode)];
      writers := writers[k := writers[k].(pc := Synced)];
    }

    method SetMode(k: nat)
      requires At(Snapshot(), k, Synced) && HasInode(Snapshot(), k)
      modifies this`writers, this`inodes
      ensures Snapshot() == Chmoding(old(Snapshot()), k)
    {
      var w := writers[k];
      if w.mode.Some? { inodes := inodes[w.ino := inodes[w.ino].(mode := w.mode.value)]; }
      writers := writers[k := w.(pc := Moded)];
    }

    method Rename(k: nat)
      requires Enabled(Snapshot(), Replace(k))
      modifies this`writers, this`inodes, this`hist
      ensures Snapshot() == Replacing(old(Snapshot()), k)
    {
      var w := writers[k];
      var h := if w.dst in hist then hist[w.dst] else [Absent];
      hist := hist[w.dst := h + [File(w.ino)]];
      inodes := inodes[w.ino := inodes[w.ino].(published := true)];
      writers := writers[k := w.(pc := Replaced, linked := false, at := |h|)];
    }

    method FsyncDir(k: nat, ok: bool)
      requires Enabled(Snapshot(), SyncDir(k, ok))
      modifies this`writers, this`floor
      ensures Snapshot() == SyncingDir(old(Snapshot()), k, ok)
    {
      var w := writers[k];
      if ok { floor := floor[w.dst := (if w.dst in hist then |hist[w.dst]| else 1) - 1]; }
      writers := writers[k := w.(pc := Returned(ok))];
    }

    /** `mkstemp` failed: there is nothing to clean up. */
    method GiveUp(k: nat)
      requires Enabled(Snapshot(), Kill(k))
      modifies this`writers
      ensures Snapshot() == SetPc(old(Snapshot()), k, Dead)
    {
      writers := writers[k := writers[k].(pc := Dead)];
    }

    method Abandon(k: nat, unlinks: bool)
      requires Enabled(Snapshot(), Fail(k))
      modifies this`writers
      ensures Snapshot() == CleaningUp(SetPc(old(Snapshot()), k, Failing), k, unlinks)
    {
      writers := writers[k := writers[k].(pc := Raised, linked := writers[k].linked && !unlinks)];
    }

    /** Up to the point where the destination and its mode are known. */
    method Prepare(path: Path, content: seq<Byte>) returns (k: nat, ghost acts: seq<Action>)
      modifies this`writers
      ensures k == |old(writers)| && At(Snapshot(), k, Looked)
      ensures Runs(old(Snapshot()), acts) && Snapshot() == Exec(old(Snapshot()), acts)
      ensures writers[k].dst == Real(old(Snapshot()), path) && writers[k].content == content
    {
      ghost var s := Snapshot();
      k := Start(path, content);
      acts := Extend(s, [], Begin(path, content));
      SameNames(s, Snapshot(), path);
      Realpath(k);
      acts := Extend(s, acts, Resolve(k));
      StatMode(k);
      acts := Extend(s, acts, Look(k));
    }

    /** The temporary file, written, synced and given its mode. */
    method Fill(k: nat, fault: Fault, unlinks: bool, ghost s: State, ghost before: seq<Action>)
      returns (filled: bool, ghost acts: seq<Action>)
      requires At(Snapshot(), k, Looked)
      requires Runs(s, before) && Snapshot() == Exec(s, before)
      modifies this`writers, this`inodes
      ensures Runs(s, acts) && Snapshot() == Exec(s, acts)
      ensures filled <==> fault == Nowhere || fault == Interrupted || fault == AtReplace
      ensures k < |writers| && writers[k].dst == old(writers[k].dst)
      ensures filled ==> At(Snapshot(), k, Moded) && HasInode(Snapshot(), k) && writers[k].linked
      ensures filled ==>
                var x := inodes[writers[k].ino];
                && x.data == old(writers[k].content) && x.synced
                && x.mode == if old(writers[k].mode).Some? then old(writers[k].mode).value else PRIVATE
    {
      filled := false;
      if fault == AtMkstemp {
        GiveUp(k);
        acts := Extend(s, before, Kill(k));
        return;
      }
      Mkstemp(k);
      acts := Extend(s, before, Make(k));
      if fault == AtWrite {
        acts := Unwind(k, unlinks, s, acts);
        return;
      }
      WriteAndSync(k);
      acts := Extend(s, acts, SyncFile(k));
      if fault == AtChmod {
        acts := Unwind(k, unlinks, s, acts);
      } else {
        acts := Finish(k, s, acts);
        filled := true;
      }
    }

    method Finish(k: nat, ghost s: State, ghost before: seq<Action>) returns (ghost acts: seq<Action>)
      requires Enabled(Snapshot(), Chmod(k))
      requires Runs(s, before) && Snapshot() == Exec(s, before)
      modifies this`writers, this`inodes
      ensures Runs(s, acts) && Snapshot() == Exec(s, acts)
      ensures |writers| == |old(writers)| && |inodes| == |old(inodes)|
      ensures writers[k] == old(writers[k]).(pc := Moded)
      ensures var x, w := old(inodes[writers[k].ino]), old(writers[k]);
              inodes[w.ino] == if w.mode.Some? then x.(mode := w.mode.value) else x
    {
      SetMode(k);
      acts := Extend(s, before, Chmod(k));
    }

    method Unwind(k: nat, unlinks: bool, ghost s: State, ghost before: seq<Action>) returns (ghost acts: seq<Action>)
      requires Enabled(Snapshot(), Fail(k))
      requires Runs(s, before) && Snapshot() == Exec(s, before)
      modifies this`writers
      ensures Runs(s, acts) && Snapshot() == Exec(s, acts)
      ensures |writers| == |old(writers)| && writers[k].dst == old(writers[k].dst) && writers[k].ino == old(writers[k].ino)
    {
      Abandon(k, unlinks);
      acts := Extend(s, before, Fail(k));
      acts := Extend(s, acts, Cleanup(k, unlinks));
    }

    method Publish(k: nat, interrupted: bool, dirSyncs: bool, unlinks: bool, ghost s: State, ghost before: seq<Action>)
      returns (ghost acts: seq<Action>)
      requires Enabled(Snapshot(), Replace(k))
      requires Runs(s, before) && Snapshot() == Exec(s, before)
      modifies this
      ensures Runs(s, acts) && Snapshot() == Exec(s, acts)
      ensures |writers| == |old(writers)| && writers[k].dst == old(writers[k].dst)
      ensures Contents(Snapshot(), writers[k].dst) == Some(old(inodes[writers[k].ino].data))
      ensures hist == old(hist)[writers[k].dst := Hist(old(Snapshot()), writers[k].dst) + [File(old(writers[k].ino))]]
      ensures !interrupted ==> writers[k].pc == Returned(dirSyncs)
    {
      Rename(k);
      acts := Extend(s, before, Replace(k));
      if interrupted {
        acts := Unwind(k, unlinks, s, acts);
      } else {
        FsyncDir(k, dirSyncs);
        acts := Extend(s, acts, SyncDir(k, dirSyncs));
      }
    }

    /** The whole call with nothing else running.  It is a run of the machine above;
        an exception before the rename leaves every name as it was, and one after it
        leaves the new content behind. */
    method AtomicWriteText(path: Path, content: seq<Byte>, fault: Fault, dirSyncs: bool, unlinks: bool)
      returns (k: nat, raised: bool, ghost acts: seq<Action>)
      modifies this
      ensures Runs(old(Snapshot()), acts) && Snapshot() == Exec(old(Snapshot()), acts)
      ensures k == |old(writers)| < |writers| && writers[k].dst == Real(old(Snapshot()), path)
      ensures raised <==> fault != Nowhere
      ensures !raised ==> writers[k].pc == Returned(dirSyncs)
      ensures if fault == Nowhere || fault == Interrupted then Contents(Snapshot(), writers[k].dst) == Some(content)
              else hist == old(hist)
      ensures fault == Nowhere || fault == Interrupted ==>
                (KeepsLinks(old(Snapshot()), Snapshot()) <==> !Now(old(Snapshot()), Real(old(Snapshot()), path)).Link?)
    {
      ghost var s := Snapshot();
      k, acts := Prepare(path, content);
      raised := true;
      var filled;
      filled, acts := Fill(k, fault, unlinks, s, acts);
      if !filled { return; }
      if fault == AtReplace {
        acts := Unwind(k, unlinks, s, acts);
        return;
      }
      ghost var ino := writers[k].ino;
      acts := Publish(k, fault == Interrupted, dirSyncs, unlinks, s, acts);
      LinksOfACall(s, Snapshot(), writers[k].dst, ino);
      raised := fault == Interrupted;
    }
  }

  lemma SameNames(s: State, t: State, p: Path)
    requires t.hist == s.hist
    ensures Real(t, p) == Real(s, p)
  {
    SameFollow(s, t, p, {});
  }
}
