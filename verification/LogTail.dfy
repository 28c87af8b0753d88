/**
 * Tailing the auditd log across rotations.
 *
 * Files are inodes holding whole lines; the watched path names one inode or none. A
 * character of a line stands for one byte of the file. A read is the sequence rotation
 * check, truncation check, drain, rotation check, and others may act between any two.
 */
module LogTail {
  import opened Wrappers

  datatype Disk = Disk(files: map<nat, seq<string>>, path: Option<nat>)

  /** An open file handle, how many lines are behind it, and its offset in bytes. */
  datatype Handle = Handle(inode: nat, pos: nat, at: nat)

  /** `known` is the inode the source believes to be tailing. */
  datatype Source = Source(fh: Handle, known: nat, rotations: nat, truncations: nat)

  ghost predicate ValidDisk(d: Disk) {
    d.path.Some? ==> d.path.value in d.files
  }

  /** The size of lines in a file, each with its newline. */
  function Bytes(lines: seq<string>): (n: nat) {
    if lines == [] then 0 else Bytes(lines[..|lines| - 1]) + |lines[|lines| - 1]| + 1
  }

  /** A handle at the end of a file. */
  function AtEnd(d: Disk, inode: nat): (fh: Handle)
    requires inode in d.files
  {
    Handle(inode, |d.files[inode]|, Bytes(d.files[inode]))
  }

  function HandleRotation(d: Disk, s: Source): (r: Source) {
    if d.path.None? || d.path.value == s.known then s
    else Source(Handle(d.path.value, 0, 0), d.path.value, s.rotations + 1, s.truncations)
  }

  /** The size is that of whatever file the path names now, the offset that of the open handle. */
  function HandleTruncation(d: Disk, s: Source): (r: Source)
    requires ValidDisk(d)
  {
    if d.path.None? || Bytes(d.files[d.path.value]) >= s.fh.at then s
    else s.(fh := Handle(s.fh.inode, 0, 0), truncations := s.truncations + 1)
  }

  function Unread(d: Disk, fh: Handle): (r: seq<string>) {
    if fh.inode in d.files && fh.pos <= |d.files[fh.inode]| then d.files[fh.inode][fh.pos..] else []
  }

  function Drained(d: Disk, fh: Handle): (r: Handle) {
    Handle(fh.inode, fh.pos + |Unread(d, fh)|, fh.at + Bytes(Unread(d, fh)))
  }

  /** One uninterrupted `read_new_lines`. */
  function ReadStep(d: Disk, s: Source): (r: (Source, seq<string>))
    requires ValidDisk(d)
  {
    var s1 := HandleTruncation(d, HandleRotation(d, s));
    (HandleRotation(d, s1.(fh := Drained(d, s1.fh))), Unread(d, s1.fh))
  }

  class FileSystem {
    var disk: Disk

    constructor (d: Disk)
      ensures disk == d
    {
      disk := d;
    }
  }

  class AuditLogSource {
    const fs: FileSystem
    var fh: Option<Handle>
    var known: Option<nat>
    var rotations: nat
    var truncations: nat

    /** Started: a handle is open and the inode it was opened on is remembered. */
    ghost predicate Started()
      reads this
    {
      fh.Some? && known.Some?
    }

    ghost function Abs(): (s: Source)
      requires Started()
      reads this
    {
      Source(fh.value, known.value, rotations, truncations)
    }

    constructor (fs: FileSystem)
      ensures this.fs == fs && fh == None && known == None && rotations == 0 && truncations == 0
    {
      this.fs := fs;
      fh, known, rotations, truncations := None, None, 0, 0;
    }

    /** `false` stands for the error raised when the log does not exist. */
    method Start() returns (ok: bool)
      requires ValidDisk(fs.disk)
      modifies this
      ensures ok <==> fs.disk.path.Some?
      ensures ok ==>
        var p := fs.disk.path.value;
        Started() && Abs() == Source(AtEnd(fs.disk, p), p, old(rotations), old(truncations))
      ensures !ok ==> fh == old(fh) && known == old(known)
    {
      if fs.disk.path.None? {
        return false;
      }
      var p := fs.disk.path.value;
      fh := Some(AtEnd(fs.disk, p));
      known := Some(p);
      ok := true;
    }

    method CheckRotation()
      requires Started()
      modifies this
      ensures Started() && Abs() == HandleRotation(fs.disk, old(Abs()))
    {
      if fs.disk.path.None? || fs.disk.path == known {
        return;
      }
      fh := Some(Handle(fs.disk.path.value, 0, 0));
      known := fs.disk.path;
      rotations := rotations + 1;
    }

    method CheckTruncation()
      requires Started() && ValidDisk(fs.disk)
      modifies this
      ensures Started() && Abs() == HandleTruncation(fs.disk, old(Abs()))
    {
      if fs.disk.path.None? {
        return;
      }
      var size := Bytes(fs.disk.files[fs.disk.path.value]);
      if size < fh.value.at {
        fh := Some(Handle(fh.value.inode, 0, 0));
        truncations := truncations + 1;
      }
    }

    /** `Err` stands for the error raised before `start`. */
    method ReadNewLines() returns (r: Result<seq<string>, string>)
      requires ValidDisk(fs.disk) && (fh.Some? ==> known.Some?)
      modifies this
      ensures old(fh).None? ==> r.Err? && fh == None
      ensures old(fh).Some? ==>
        Started() && (Abs(), r) == var (s, lines) := ReadStep(fs.disk, old(Abs())); (s, Ok(lines))
    {
      if fh.None? {
        return Err("read_new_lines() called before start()");
      }
      CheckRotation();
      CheckTruncation();
      var lines := Unread(fs.disk, fh.value);
      fh := Some(Drained(fs.disk, fh.value));
      CheckRotation();
      r := Ok(lines);
    }
  }

  /* ------------------------------------------------ writers, rotators and the reader */

  /**
   * Appends go to any file that exists, a rotated one included; rotation moves the path
   * away and creates a file with an inode never seen before. The reader takes one phase of
   * a read at a time, in any order, so that every interleaving of real reads is covered.
   */
  datatype Step =
    | Append(inode: nat, line: string)
    | MoveAway
    | Create(inode: nat)
    | CheckRotation
    | CheckTruncation
    | Drain

  /** The phases of one `read_new_lines`. */
  const READ: seq<Step> := [CheckRotation, CheckTruncation, Drain, CheckRotation]

  /** A delivered line and the place it was read from. */
  datatype Delivery = Delivery(inode: nat, index: nat, line: string)

  datatype Sys = Sys(disk: Disk, src: Source, delivered: seq<Delivery>)

  function Tag(fh: Handle, lines: seq<string>): (r: seq<Delivery>)
    ensures |r| == |lines|
  {
    seq(|lines|, k requires 0 <= k < |lines| => Delivery(fh.inode, fh.pos + k, lines[k]))
  }

  function Next(s: Sys, step: Step): (r: Sys)
    requires ValidDisk(s.disk)
    ensures ValidDisk(r.disk)
  {
    match step
    case Append(inode, line) =>
      if inode in s.disk.files
      then s.(disk := s.disk.(files := s.disk.files[inode := s.disk.files[inode] + [line]]))
      else s
    case MoveAway => s.(disk := s.disk.(path := None))
    case Create(inode) =>
      if inode !in s.disk.files && s.disk.path.None?
      then s.(disk := Disk(s.disk.files[inode := []], Some(inode)))
      else s
    case CheckRotation => s.(src := HandleRotation(s.disk, s.src))
    case CheckTruncation => s.(src := HandleTruncation(s.disk, s.src))
    case Drain =>
      s.(src := s.src.(fh := Drained(s.disk, s.src.fh)),
         delivered := s.delivered + Tag(s.src.fh, Unread(s.disk, s.src.fh)))
  }

  /** Starting on the file `first`, at its end. */
  function Begin(d: Disk, first: nat): (s: Sys)
    requires ValidDisk(d) && d.path == Some(first)
  {
    Sys(d, Source(AtEnd(d, first), first, 0, 0), [])
  }

  function Run(d: Disk, first: nat, steps: seq<Step>): (s: Sys)
    requires ValidDisk(d) && d.path == Some(first)
    ensures ValidDisk(s.disk)
  {
    if steps == [] then Begin(d, first)
    else Next(Run(d, first, steps[..|steps| - 1]), steps[|steps| - 1])
  }

  lemma RunSnoc(d: Disk, first: nat, steps: seq<Step>, step: Step)
    requires ValidDisk(d) && d.path == Some(first)
    ensures Run(d, first, steps + [step]) == Next(Run(d, first, steps), step)
  {
    assert (steps + [step])[..|steps|] == steps;
  }

  /** The four phases with nothing in between are one uninterrupted read. */
  lemma PhasesMakeRead(d: Disk, first: nat, steps: seq<Step>)
    requires ValidDisk(d) && d.path == Some(first)
    ensures var s := Run(d, first, steps); var s1 := Run(d, first, steps + READ);
      var read := HandleTruncation(s.disk, HandleRotation(s.disk, s.src)).fh;
      && s1.disk == s.disk && s1.src == ReadStep(s.disk, s.src).0
      && s1.delivered == s.delivered + Tag(read, ReadStep(s.disk, s.src).1)
  {
    RunSnoc(d, first, steps, CheckRotation);
    RunSnoc(d, first, steps + [CheckRotation], CheckTruncation);
    RunSnoc(d, first, steps + [CheckRotation] + [CheckTruncation], Drain);
    RunSnoc(d, first, steps + [CheckRotation] + [CheckTruncation] + [Drain], CheckRotation);
    assert steps + READ == steps + [CheckRotation] + [CheckTruncation] + [Drain] + [CheckRotation];
  }

  /* ---------------------------------------- what a run should deliver, from the disk alone */

  /** The file the source is on: the last one the path named at a rotation check. */
  function Watched(d: Disk, first: nat, steps: seq<Step>): (inode: nat)
    requires ValidDisk(d) && d.path == Some(first)
  {
    if steps == [] then first
    else
      var init := steps[..|steps| - 1];
      var path := Run(d, first, init).disk.path;
      if steps[|steps| - 1].CheckRotation? && path.Some? then path.value else Watched(d, first, init)
  }

  /** How many lines the file held when it was last drained. */
  function SizeAtLastRead(d: Disk, first: nat, steps: seq<Step>, inode: nat): (r: Option<nat>)
    requires ValidDisk(d) && d.path == Some(first)
  {
    if steps == [] then None
    else
      var init := steps[..|steps| - 1];
      var disk := Run(d, first, init).disk;
      if steps[|steps| - 1].Drain? && Watched(d, first, init) == inode && inode in disk.files
      then Some(|disk.files[inode]|)
      else SizeAtLastRead(d, first, init, inode)
  }

  function StartOf(d: Disk, first: nat, inode: nat): (n: nat)
    requires ValidDisk(d) && d.path == Some(first)
  {
    if inode == first then |d.files[first]| else 0
  }

  /** The path was replaced since the last rotation check, by a file smaller than what was read. */
  predicate ShorterFile(s: Sys) {
    && s.disk.path.Some? && s.disk.path.value != s.src.known && s.disk.path.value in s.disk.files
    && Bytes(s.disk.files[s.disk.path.value]) < s.src.fh.at
  }

  /** A check was misled, and the handle has neither been drained nor moved to another file since. */
  predicate Rewound(d: Disk, first: nat, steps: seq<Step>)
    requires ValidDisk(d) && d.path == Some(first)
  {
    steps != [] &&
    var init := steps[..|steps| - 1];
    var s := Run(d, first, init);
    match steps[|steps| - 1]
    case Drain => false
    case CheckRotation => (s.disk.path.None? || s.disk.path.value == s.src.known) && Rewound(d, first, init)
    case CheckTruncation => ShorterFile(s) || Rewound(d, first, init)
    case _ => Rewound(d, first, init)
  }

  /** The file is never drained from a handle that stands rewound. */
  predicate NeverReread(d: Disk, first: nat, steps: seq<Step>, inode: nat)
    requires ValidDisk(d) && d.path == Some(first)
  {
    steps == [] ||
    var init := steps[..|steps| - 1];
    && NeverReread(d, first, init, inode)
    && !(steps[|steps| - 1].Drain? && Watched(d, first, init) == inode && Rewound(d, first, init))
  }

  /** Lines `from` to `to` of a file, in order. */
  function Span(files: map<nat, seq<string>>, inode: nat, from: nat, to: nat): (r: seq<Delivery>)
    requires inode in files && from <= to <= |files[inode]|
    ensures |r| == to - from
  {
    seq(to - from, k requires 0 <= k < to - from => Delivery(inode, from + k, files[inode][from + k]))
  }

  function FromFile(ds: seq<Delivery>, inode: nat): (r: seq<Delivery>) {
    if ds == [] then []
    else
      var last := ds[|ds| - 1];
      FromFile(ds[..|ds| - 1], inode) + if last.inode == inode then [last] else []
  }

  /* -------------------------------------------------------------------------- proof */

  lemma {:induction false} BytesAppend(a: seq<string>, b: seq<string>)
    ensures Bytes(a + b) == Bytes(a) + Bytes(b)
  {
    if b == [] {
      assert a + b == a;
    } else {
      assert (a + b)[..|a + b| - 1] == a + b[..|b| - 1];
      BytesAppend(a, b[..|b| - 1]);
    }
  }

  /** More lines are more bytes. */
  lemma BytesOfPrefix(lines: seq<string>, n: nat)
    requires n <= |lines|
    ensures Bytes(lines[..n]) + Bytes(lines[n..]) == Bytes(lines)
  {
    assert lines == lines[..n] + lines[n..];
    BytesAppend(lines[..n], lines[n..]);
  }

  lemma {:induction false} FromFileAppend(a: seq<Delivery>, b: seq<Delivery>, inode: nat)
    ensures FromFile(a + b, inode) == FromFile(a, inode) + FromFile(b, inode)
  {
    if b == [] {
      assert a + b == a;
    } else {
      var n := |b| - 1;
      assert (a + b)[..|a| + n] == a + b[..n];
      FromFileAppend(a, b[..n], inode);
    }
  }

  lemma {:induction false} FromFileAll(ds: seq<Delivery>, inode: nat, other: nat)
    requires forall k :: 0 <= k < |ds| ==> ds[k].inode == other
    ensures FromFile(ds, inode) == if inode == other then ds else []
  {
    if ds != [] {
      FromFileAll(ds[..|ds| - 1], inode, other);
      assert ds == ds[..|ds| - 1] + [ds[|ds| - 1]];
    }
  }

  /** Up to where the file has been accounted for: the last drain, or where reading would start. */
  function Reach(start: nat, size: Option<nat>): (n: nat) {
    if size.Some? then size.value else start
  }

  /** The handle stands inside the file the source is on. */
  ghost predicate Tailing(s: Sys, watched: nat) {
    && s.src.known == s.src.fh.inode == watched && watched in s.disk.files
    && s.src.fh.pos <= |s.disk.files[watched]|
    && s.src.fh.at == Bytes(s.disk.files[watched][..s.src.fh.pos])
  }

  /**
   * One file during a run: where its first drain begins, its length at its last one, the
   * file the source is on and whether the handle stands rewound there, and whether this
   * file was ever drained from a rewound handle.
   */
  datatype Progress = Progress(start: nat, size: Option<nat>, watched: nat, rewound: bool, clean: bool)

  function ProgressOf(d: Disk, first: nat, steps: seq<Step>, inode: nat): (g: Progress)
    requires ValidDisk(d) && d.path == Some(first)
  {
    Progress(StartOf(d, first, inode), SizeAtLastRead(d, first, steps, inode), Watched(d, first, steps),
             Rewound(d, first, steps), NeverReread(d, first, steps, inode))
  }

  function Advance(s: Sys, inode: nat, g: Progress, step: Step): (r: Progress) {
    match step
    case CheckRotation =>
      if s.disk.path.None? || s.disk.path.value == s.src.known then g
      else g.(watched := s.disk.path.value, rewound := false)
    case CheckTruncation => g.(rewound := ShorterFile(s) || g.rewound)
    case Drain =>
      if g.watched == inode && inode in s.disk.files
      then g.(size := Some(|s.disk.files[inode]|), rewound := false, clean := g.clean && !g.rewound)
      else g.(rewound := false)
    case _ => g
  }

  /** What has been delivered of a file that exists: its span, or more once it was reread. */
  ghost predicate Covered(s: Sys, inode: nat, g: Progress)
    requires inode in s.disk.files && g.start <= Reach(g.start, g.size) <= |s.disk.files[inode]|
  {
    var mine, span := FromFile(s.delivered, inode), Span(s.disk.files, inode, g.start, Reach(g.start, g.size));
    if g.clean then mine == span else |mine| > |span|
  }

  ghost predicate FileInv(s: Sys, inode: nat, first: nat, g: Progress) {
    && (g.size.Some? || inode == first ==> inode in s.disk.files)
    && (s.disk.path == Some(inode) && g.watched != inode ==> g.size == None && inode != first)
    && (inode != first ==> g.start == 0)
    && (inode in s.disk.files ==>
          g.start <= Reach(g.start, g.size) <= |s.disk.files[inode]| && Covered(s, inode, g))
    && (inode !in s.disk.files ==> FromFile(s.delivered, inode) == [] && g.clean)
    && (g.watched == inode ==>
          if g.rewound then s.src.fh.pos == 0 < Reach(g.start, g.size) else s.src.fh.pos == Reach(g.start, g.size))
  }

  lemma SameSpan(files: map<nat, seq<string>>, files1: map<nat, seq<string>>, inode: nat, from: nat, to: nat)
    requires inode in files && inode in files1 && from <= to <= |files[inode]| && files[inode] <= files1[inode]
    ensures Span(files, inode, from, to) == Span(files1, inode, from, to)
  {
  }

  lemma AppendKeeps(s: Sys, inode: nat, first: nat, g: Progress, step: Step)
    requires ValidDisk(s.disk) && Tailing(s, g.watched) && FileInv(s, inode, first, g) && step.Append?
    ensures Tailing(Next(s, step), g.watched) && FileInv(Next(s, step), inode, first, g)
  {
    var s1 := Next(s, step);
    assert s1.disk.files[g.watched][..s.src.fh.pos] == s.disk.files[g.watched][..s.src.fh.pos];
    if inode in s.disk.files {
      SameSpan(s.disk.files, s1.disk.files, inode, g.start, Reach(g.start, g.size));
    }
  }

  lemma PathMoveKeeps(s: Sys, inode: nat, first: nat, g: Progress, step: Step)
    requires ValidDisk(s.disk) && Tailing(s, g.watched) && FileInv(s, inode, first, g)
    requires step.MoveAway? || step.Create?
    ensures Tailing(Next(s, step), g.watched) && FileInv(Next(s, step), inode, first, g)
  {
    if inode in s.disk.files {
      SameSpan(s.disk.files, Next(s, step).disk.files, inode, g.start, Reach(g.start, g.size));
    }
  }

  lemma RotationCheckKeeps(s: Sys, inode: nat, first: nat, g: Progress)
    requires ValidDisk(s.disk) && Tailing(s, g.watched) && FileInv(s, inode, first, g)
    ensures var g1 := Advance(s, inode, g, CheckRotation);
      Tailing(Next(s, CheckRotation), g1.watched) && FileInv(Next(s, CheckRotation), inode, first, g1)
  {
    if s.disk.path.Some? {
      assert s.disk.files[s.disk.path.value][..0] == [];
    }
  }

  /** As files only grow, a check fires only on another file than the one the handle is on. */
  lemma FiresIff(s: Sys, watched: nat)
    requires ValidDisk(s.disk) && Tailing(s, watched)
    ensures ShorterFile(s) <==> s.disk.path.Some? && Bytes(s.disk.files[s.disk.path.value]) < s.src.fh.at
    ensures ShorterFile(s) ==> s.src.fh.pos > 0
  {
    BytesOfPrefix(s.disk.files[watched], s.src.fh.pos);
    assert s.disk.files[watched][..0] == [];
  }

  lemma TruncationCheckKeeps(s: Sys, inode: nat, first: nat, g: Progress)
    requires ValidDisk(s.disk) && Tailing(s, g.watched) && FileInv(s, inode, first, g)
    ensures var g1 := Advance(s, inode, g, CheckTruncation);
      Tailing(Next(s, CheckTruncation), g1.watched) && FileInv(Next(s, CheckTruncation), inode, first, g1)
  {
    FiresIff(s, g.watched);
    assert s.disk.files[g.watched][..0] == [];
  }

  lemma SpanJoin(files: map<nat, seq<string>>, inode: nat, from: nat, mid: nat, to: nat)
    requires inode in files && from <= mid <= to <= |files[inode]|
    ensures Span(files, inode, from, mid) + Span(files, inode, mid, to) == Span(files, inode, from, to)
  {
  }

  /** A drain delivers the watched file from where the source stands to its end. */
  lemma DrainDelivers(s: Sys, watched: nat)
    requires ValidDisk(s.disk) && Tailing(s, watched)
    ensures var n := |s.disk.files[watched]|; var s1 := Next(s, Drain);
      && Tailing(s1, watched) && s1.src.fh.pos == n && s1.disk == s.disk
      && s1.delivered == s.delivered + Span(s.disk.files, watched, s.src.fh.pos, n)
  {
    var lines, pos := s.disk.files[watched], s.src.fh.pos;
    BytesOfPrefix(lines, pos);
    assert lines[..|lines|] == lines;
    assert Tag(s.src.fh, lines[pos..]) == Span(s.disk.files, watched, pos, |lines|);
  }

  /** What a drain adds to each file's deliveries. */
  lemma DrainAdds(s: Sys, inode: nat, watched: nat)
    requires ValidDisk(s.disk) && Tailing(s, watched)
    ensures FromFile(Next(s, Drain).delivered, inode) == FromFile(s.delivered, inode) +
      if watched == inode then Span(s.disk.files, inode, s.src.fh.pos, |s.disk.files[inode]|) else []
  {
    var added := Span(s.disk.files, watched, s.src.fh.pos, |s.disk.files[watched]|);
    DrainDelivers(s, watched);
    FromFileAppend(s.delivered, added, inode);
    FromFileAll(added, inode, watched);
  }

  /** Draining the file itself: from where it was left, its span; from a rewound handle, too much. */
  lemma DrainCovers(s: Sys, inode: nat, first: nat, g: Progress, s1: Sys)
    requires inode in s.disk.files && FileInv(s, inode, first, g) && g.watched == inode
    requires s1.disk == s.disk && s.src.fh.pos <= |s.disk.files[inode]|
    requires FromFile(s1.delivered, inode)
             == FromFile(s.delivered, inode) + Span(s.disk.files, inode, s.src.fh.pos, |s.disk.files[inode]|)
    ensures Covered(s1, inode, Advance(s, inode, g, Drain))
  {
    if g.clean && !g.rewound {
      SpanJoin(s.disk.files, inode, g.start, s.src.fh.pos, |s.disk.files[inode]|);
    }
  }

  lemma DrainKeeps(s: Sys, inode: nat, first: nat, g: Progress)
    requires ValidDisk(s.disk) && Tailing(s, g.watched) && FileInv(s, inode, first, g)
    ensures var g1 := Advance(s, inode, g, Drain);
      Tailing(Next(s, Drain), g1.watched) && FileInv(Next(s, Drain), inode, first, g1)
  {
    DrainDelivers(s, g.watched);
    DrainAdds(s, inode, g.watched);
    if g.watched == inode {
      DrainCovers(s, inode, first, g, Next(s, Drain));
    } else if inode in s.disk.files {
      assert Covered(Next(s, Drain), inode, g);
    }
  }

  lemma FileInvStep(s: Sys, inode: nat, first: nat, g: Progress, step: Step)
    requires ValidDisk(s.disk) && Tailing(s, g.watched) && FileInv(s, inode, first, g)
    ensures var g1 := Advance(s, inode, g, step);
      Tailing(Next(s, step), g1.watched) && FileInv(Next(s, step), inode, first, g1)
  {
    match step
    case Append(_, _) => AppendKeeps(s, inode, first, g, step);
    case MoveAway => PathMoveKeeps(s, inode, first, g, step);
    case Create(_) => PathMoveKeeps(s, inode, first, g, step);
    case CheckRotation => RotationCheckKeeps(s, inode, first, g);
    case CheckTruncation => TruncationCheckKeeps(s, inode, first, g);
    case Drain => DrainKeeps(s, inode, first, g);
  }

  /** In every run the handle and each file's deliveries are where its progress says. */
  lemma {:induction false} FileInvAlways(d: Disk, first: nat, steps: seq<Step>, inode: nat)
    requires ValidDisk(d) && d.path == Some(first)
    ensures Tailing(Run(d, first, steps), Watched(d, first, steps))
    ensures FileInv(Run(d, first, steps), inode, first, ProgressOf(d, first, steps, inode))
  {
    if steps == [] {
      assert FromFile(Begin(d, first).delivered, inode) == [];
      assert d.files[first][..|d.files[first]|] == d.files[first];
    } else {
      var init, last := steps[..|steps| - 1], steps[|steps| - 1];
      FileInvAlways(d, first, init, inode);
      FileInvStep(Run(d, first, init), inode, first, ProgressOf(d, first, init, inode), last);
      ProgressAdvances(d, first, steps, inode);
    }
  }

  lemma ProgressAdvances(d: Disk, first: nat, steps: seq<Step>, inode: nat)
    requires ValidDisk(d) && d.path == Some(first) && steps != []
    requires Tailing(Run(d, first, steps[..|steps| - 1]), Watched(d, first, steps[..|steps| - 1]))
    ensures var init := steps[..|steps| - 1];
      ProgressOf(d, first, steps, inode)
      == Advance(Run(d, first, init), inode, ProgressOf(d, first, init, inode), steps[|steps| - 1])
  {
  }

  /* ------------------------------------------------------------- the truncation check */

  /** No truncation check of the run finds a smaller file in place of the one being read. */
  predicate NeverShorter(d: Disk, first: nat, steps: seq<Step>)
    requires ValidDisk(d) && d.path == Some(first)
  {
    steps == [] ||
    (NeverShorter(d, first, steps[..|steps| - 1]) &&
     (steps[|steps| - 1].CheckTruncation? ==> !ShorterFile(Run(d, first, steps[..|steps| - 1]))))
  }

  /** Truncations are only ever counted. */
  lemma {:induction false} TruncationsGrow(d: Disk, first: nat, steps: seq<Step>, k: nat)
    requires ValidDisk(d) && d.path == Some(first) && k <= |steps|
    ensures Run(d, first, steps[..k]).src.truncations <= Run(d, first, steps).src.truncations
    decreases |steps|
  {
    if k < |steps| {
      TruncationsGrow(d, first, steps[..|steps| - 1], k);
      assert steps[..|steps| - 1][..k] == steps[..k];
    } else {
      assert steps[..k] == steps;
    }
  }

  /**
   * Files that only grow are taken for truncated exactly when a check finds the path
   * replaced since the rotation check before it by a file with fewer bytes than were read.
   */
  lemma {:induction false} TruncationIff(d: Disk, first: nat, steps: seq<Step>)
    requires ValidDisk(d) && d.path == Some(first)
    ensures Run(d, first, steps).src.truncations == 0 <==> NeverShorter(d, first, steps)
  {
    if steps != [] {
      var init := steps[..|steps| - 1];
      TruncationIff(d, first, init);
      TruncationsGrow(d, first, steps, |init|);
      FileInvAlways(d, first, init, first);
      FiresIff(Run(d, first, init), Watched(d, first, init));
    }
  }

  lemma {:induction false} NeverShorterNeverReread(d: Disk, first: nat, steps: seq<Step>, inode: nat)
    requires ValidDisk(d) && d.path == Some(first) && NeverShorter(d, first, steps)
    ensures !Rewound(d, first, steps) && NeverReread(d, first, steps, inode)
  {
    if steps != [] {
      NeverShorterNeverReread(d, first, steps[..|steps| - 1], inode);
    }
  }

  /** Each line from where reading the file starts to its length at the last drain, once and in order. */
  ghost predicate SpanDelivered(d: Disk, first: nat, steps: seq<Step>, inode: nat)
    requires ValidDisk(d) && d.path == Some(first)
  {
    var s, start := Run(d, first, steps), StartOf(d, first, inode);
    match SizeAtLastRead(d, first, steps, inode)
    case None => FromFile(s.delivered, inode) == []
    case Some(n) =>
      inode in s.disk.files && start <= n <= |s.disk.files[inode]| &&
      FromFile(s.delivered, inode) == Span(s.disk.files, inode, start, n)
  }

  /**
   * Over every interleaving of appends, rotations to fresh files and single read phases,
   * the lines delivered from a file are exactly those from where reading it starts (its
   * length at start-up for the first file, else 0) to its length when it was last drained,
   * each once, in order, and none of a file never drained: if and only if the file was
   * never drained after a misled truncation check with the handle still on it.
   */
  lemma DeliveredExactly(d: Disk, first: nat, steps: seq<Step>, inode: nat)
    requires ValidDisk(d) && d.path == Some(first)
    ensures SpanDelivered(d, first, steps, inode) <==> NeverReread(d, first, steps, inode)
  {
    FileInvAlways(d, first, steps, inode);
  }

  /** A line is missed exactly when it precedes the start or was not there at the last drain. */
  lemma MissedExactly(d: Disk, first: nat, steps: seq<Step>, inode: nat, k: nat)
    requires ValidDisk(d) && d.path == Some(first)
    requires NeverReread(d, first, steps, inode)
    requires var files := Run(d, first, steps).disk.files; inode in files && k < |files[inode]|
    ensures var s := Run(d, first, steps);
      var size := SizeAtLastRead(d, first, steps, inode);
      Delivery(inode, k, s.disk.files[inode][k]) !in s.delivered <==>
        size == None || k < StartOf(d, first, inode) || k >= size.value
  {
    DeliveredExactly(d, first, steps, inode);
    var s := Run(d, first, steps);
    var size := SizeAtLastRead(d, first, steps, inode);
    FromFileMember(s.delivered, inode, Delivery(inode, k, s.disk.files[inode][k]));
    if size.Some? {
      SpanMember(s.disk.files, inode, StartOf(d, first, inode), size.value, k);
    }
  }

  lemma SpanMember(files: map<nat, seq<string>>, inode: nat, from: nat, to: nat, k: nat)
    requires inode in files && from <= to <= |files[inode]| && k < |files[inode]|
    ensures Delivery(inode, k, files[inode][k]) in Span(files, inode, from, to) <==> from <= k < to
  {
    if from <= k < to {
      assert Span(files, inode, from, to)[k - from] == Delivery(inode, k, files[inode][k]);
    }
  }

  lemma {:induction false} FromFileMember(ds: seq<Delivery>, inode: nat, x: Delivery)
    requires x.inode == inode
    ensures x in FromFile(ds, inode) <==> x in ds
  {
    if ds != [] {
      FromFileMember(ds[..|ds| - 1], inode, x);
      assert ds == ds[..|ds| - 1] + [ds[|ds| - 1]];
    }
  }

  /** Every truncation check comes right after a rotation check. */
  predicate ChecksTogether(steps: seq<Step>) {
    forall k :: 0 <= k < |steps| && steps[k].CheckTruncation? ==> k > 0 && steps[k - 1].CheckRotation?
  }

  /** When nothing comes between the two checks, growing files are never taken for truncated. */
  lemma NoFalseTruncation(d: Disk, first: nat, steps: seq<Step>)
    requires ValidDisk(d) && d.path == Some(first) && ChecksTogether(steps)
    ensures Run(d, first, steps).src.truncations == 0
  {
    CheckedNeverShorter(d, first, steps);
    TruncationIff(d, first, steps);
  }

  lemma {:induction false} CheckedNeverShorter(d: Disk, first: nat, steps: seq<Step>)
    requires ValidDisk(d) && d.path == Some(first) && ChecksTogether(steps)
    ensures NeverShorter(d, first, steps)
  {
    if steps != [] {
      var init, last := steps[..|steps| - 1], steps[|steps| - 1];
      assert ChecksTogether(init) by {
        assert forall k :: 0 <= k < |init| ==> init[k] == steps[k];
      }
      CheckedNeverShorter(d, first, init);
      if last.CheckTruncation? {
        assert init[|init| - 1].CheckRotation?;
      }
    }
  }

  /* --------------------------------------------------------------- uninterrupted reads */

  /** A writer's or rotator's step, or a whole read. */
  datatype Turn = Other(step: Step) | Read

  predicate ByOthers(step: Step) {
    step.Append? || step.MoveAway? || step.Create?
  }

  predicate Uninterrupted(turns: seq<Turn>) {
    forall t :: t in turns && t.Other? ==> ByOthers(t.step)
  }

  function Phases(turns: seq<Turn>): (steps: seq<Step>) {
    if turns == [] then []
    else
      var last := turns[|turns| - 1];
      Phases(turns[..|turns| - 1]) + if last.Read? then READ else [last.step]
  }

  lemma {:induction false} PhasesCheckTogether(turns: seq<Turn>)
    requires Uninterrupted(turns)
    ensures ChecksTogether(Phases(turns))
  {
    if turns != [] {
      var init, last := turns[..|turns| - 1], turns[|turns| - 1];
      assert forall t :: t in init ==> t in turns;
      PhasesCheckTogether(init);
      assert last in turns;
      JoinedChecks(Phases(init), if last.Read? then READ else [last.step]);
    }
  }

  lemma JoinedChecks(a: seq<Step>, b: seq<Step>)
    requires ChecksTogether(a) && ChecksTogether(b)
    ensures ChecksTogether(a + b)
  {
    forall k | 0 <= k < |a + b| && (a + b)[k].CheckTruncation? ensures k > 0 && (a + b)[k - 1].CheckRotation? {
      if k >= |a| {
        assert b[k - |a|].CheckTruncation?;
      }
    }
  }

  /**
   * With whole reads nothing has to be assumed: in every interleaving of appends,
   * rotations and reads each file delivers exactly its lines from its starting point to
   * its length at the last read of it, and no truncation is ever counted.
   */
  lemma {:induction false} WholeReadsDeliverExactly(d: Disk, first: nat, turns: seq<Turn>, inode: nat)
    requires ValidDisk(d) && d.path == Some(first) && Uninterrupted(turns)
    ensures SpanDelivered(d, first, Phases(turns), inode)
    ensures Run(d, first, Phases(turns)).src.truncations == 0
  {
    PhasesCheckTogether(turns);
    CheckedNeverShorter(d, first, Phases(turns));
    NoFalseTruncation(d, first, Phases(turns));
    NeverShorterNeverReread(d, first, Phases(turns), inode);
    DeliveredExactly(d, first, Phases(turns), inode);
  }

  /**
   * What a false truncation costs: lines of the old file already delivered are delivered
   * again, exactly when the file that replaced it between the two checks has fewer bytes
   * than had been read.
   */
  lemma RotationBetweenChecksRereads(d: Disk, s: Source, newInode: nat, lines: seq<string>)
    requires ValidDisk(d) && s.known == s.fh.inode && d.path == Some(s.known)
    requires s.fh.pos <= |d.files[s.known]| && newInode !in d.files
    requires s.fh.at == Bytes(d.files[s.known][..s.fh.pos])
    ensures var checked := HandleRotation(d, s);
      var rotated := Disk(d.files[newInode := lines], Some(newInode));
      var after := HandleTruncation(rotated, checked);
      && after.fh.inode == s.known
      && (Unread(rotated, after.fh) == d.files[s.known][s.fh.pos..] <==> !(Bytes(lines) < s.fh.at))
      && (Bytes(lines) < s.fh.at ==> Unread(rotated, after.fh) == d.files[s.known])
  {
    var checked := HandleRotation(d, s);
    var rotated := Disk(d.files[newInode := lines], Some(newInode));
    var after := HandleTruncation(rotated, checked);
    if Bytes(lines) < s.fh.at {
      assert s.fh.pos > 0 by {
        assert d.files[s.known][..0] == [];
      }
      assert Unread(rotated, after.fh) == d.files[s.known];
      assert |Unread(rotated, after.fh)| > |d.files[s.known][s.fh.pos..]|;
    }
  }

  /* --------------------------------------------- truncation in place, and rotated files */

  /** The file the handle is on is cut to nothing in place and written anew, `lines` so far. */
  function CutInPlace(d: Disk, s: Source, lines: seq<string>): (r: Disk) {
    Disk(d.files[s.known := lines], Some(s.known))
  }

  /**
   * Truncation in place is noticed exactly when the next read comes before the file has
   * grown back to where the cursor stood. Then the read delivers all of the new lines;
   * otherwise it counts nothing and leaves the cursor where it was.
   */
  lemma CutInPlaceIff(d: Disk, s: Source, lines: seq<string>)
    requires s.known == s.fh.inode
    ensures var cut := CutInPlace(d, s, lines); var (s1, out) := ReadStep(cut, s);
      && (s1.truncations == s.truncations + 1 <==> Bytes(lines) < s.fh.at)
      && (Bytes(lines) < s.fh.at ==> out == lines && s1.fh == AtEnd(cut, s.known))
      && (Bytes(lines) >= s.fh.at ==> HandleTruncation(cut, HandleRotation(cut, s)) == s)
  {
    var cut := CutInPlace(d, s, lines);
    if Bytes(lines) < s.fh.at {
      assert Unread(cut, Handle(s.known, 0, 0)) == lines;
    }
  }

  /** What the documentation says a rotation does: the new file is opened at its end. */
  function DocumentedRotation(d: Disk, s: Source): (r: Source)
    requires ValidDisk(d)
  {
    if d.path.None? || d.path.value == s.known then s
    else Source(AtEnd(d, d.path.value), d.path.value, s.rotations + 1, s.truncations)
  }

  /**
   * Opening a new file at its start, as the code does, and at its end, as documented, come
   * to the same exactly when it is still empty at the check; else the code delivers the
   * lines it has by then, and the documented reading would not.
   */
  lemma RotationReadingsAgreeIff(d: Disk, s: Source)
    requires ValidDisk(d) && d.path.Some? && d.path.value != s.known
    ensures var lines := d.files[d.path.value];
      && (HandleRotation(d, s) == DocumentedRotation(d, s) <==> lines == [])
      && ReadStep(d, s).1 == lines
      && Unread(d, DocumentedRotation(d, s).fh) == []
  {
    var lines := d.files[d.path.value];
    assert lines[0..] == lines && lines[|lines|..] == [];
  }
}
