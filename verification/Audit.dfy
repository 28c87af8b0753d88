/**
 * The append-only, hash-chained audit trail.
 *
 * SHA-256, HMAC, JSON text and the joining of the signed fields are the fields of `Primitives`; what a
 * theorem needs of them (`Json`: decoding inverts encoding; `Ideal`: also no hash
 * collisions) is a hypothesis of that theorem.
 */
module Audit {
  import opened Wrappers

  datatype Entry = Entry(
    seqNo: int, ts: string, event: string, reportId: Option<string>, actor: string, data: string,
    prev: string, sig: Option<string>)

  /** `dumps`/`loads`: the JSON text of a record; `loads` is `None` on an undecodable line. */
  datatype Primitives = Primitives(
    dumps: Entry -> string, loads: string -> Option<Entry>, sha: string -> string,
    mac: (string, string) -> string, join: SignedFields -> string)

  /** What a signature covers: every field but the signature; a missing report id reads as "". */
  datatype SignedFields = SignedFields(
    seqNo: int, ts: string, event: string, reportId: string, actor: string, data: string, prev: string)

  ghost predicate Json(p: Primitives) {
    forall e {:trigger p.dumps(e)} :: p.loads(p.dumps(e)) == Some(e)
  }

  ghost predicate Ideal(p: Primitives) {
    && Json(p)
    && (forall x, y {:trigger p.sha(x), p.sha(y)} :: p.sha(x) == p.sha(y) ==> x == y)
    && (forall x {:trigger p.sha(x)} :: p.sha(x) != "")
  }

  /* ------------------------------------------------------------------ signatures */

  /** The canonical string of a record: its signed fields joined by "|". */
  function Canonical(p: Primitives, e: Entry): (r: string) {
    p.join(SignedFields(
      e.seqNo, e.ts, e.event, if e.reportId.Some? then e.reportId.value else "", e.actor, e.data, e.prev))
  }

  function Sign(p: Primitives, secret: string, e: Entry): (r: string) {
    p.mac(secret, Canonical(p, e))
  }

  /* -------------------------------------------------------------- reading the file */

  /** The records of the file, skipping undecodable lines. */
  function Parsed(p: Primitives, lines: seq<string>): (r: seq<Entry>) {
    if lines == [] then []
    else
      var e := p.loads(lines[|lines| - 1]);
      Parsed(p, lines[..|lines| - 1]) + if e.Some? then [e.value] else []
  }

  function Digest(p: Primitives, e: Entry): (r: string) {
    p.sha(p.dumps(e))
  }

  /** The digest of the last raw line, as `record` chains to it. */
  function PreviousDigest(p: Primitives, lines: seq<string>): (r: string) {
    if lines == [] then "" else p.sha(lines[|lines| - 1])
  }

  /** The digest of the last decoded record, as `verify_all` expects it. */
  function ChainDigest(p: Primitives, es: seq<Entry>): (r: string) {
    if es == [] then "" else Digest(p, es[|es| - 1])
  }

  datatype Problem = BrokenChain(seqNo: int) | InvalidSignature(seqNo: int)

  function ProblemsAt(p: Primitives, signer: Option<string>, previous: string, e: Entry): (r: seq<Problem>) {
    (if e.prev != previous then [BrokenChain(e.seqNo)] else [])
    + (if signer.Some? && e.sig.Some? && e.sig.value != "" && e.sig.value != Sign(p, signer.value, e)
       then [InvalidSignature(e.seqNo)] else [])
  }

  function Problems(p: Primitives, signer: Option<string>, es: seq<Entry>): (r: seq<Problem>) {
    if es == [] then []
    else
      var n := |es| - 1;
      Problems(p, signer, es[..n]) + ProblemsAt(p, signer, ChainDigest(p, es[..n]), es[n])
  }

  predicate Verifies(p: Primitives, signer: Option<string>, lines: seq<string>) {
    Problems(p, signer, Parsed(p, lines)) == []
  }

  /** The sequence number a reopened trail resumes from. */
  function ResumedSeq(p: Primitives, lines: seq<string>): (r: int) {
    var es := Parsed(p, lines);
    if es == [] then 0 else es[|es| - 1].seqNo
  }

  /** The fields of a record that the caller and the clock supply. */
  datatype Event = Event(name: string, reportId: Option<string>, actor: string, data: string, ts: string)

  function NewEntry(p: Primitives, lines: seq<string>, seqNo: int, ev: Event, signer: Option<string>): (r: Entry) {
    var e := Entry(seqNo, ev.ts, ev.name, ev.reportId, ev.actor, ev.data, PreviousDigest(p, lines), None);
    if signer.Some? then e.(sig := Some(Sign(p, signer.value, e))) else e
  }

  /** A trail is used by recording events and by being reopened. */
  datatype Use = Write(ev: Event) | Reopen

  datatype Trail = Trail(lines: seq<string>, lastSeq: int)

  function UseStep(p: Primitives, signer: Option<string>, t: Trail, use: Use): (r: Trail) {
    match use
    case Write(ev) =>
      Trail(t.lines + [p.dumps(NewEntry(p, t.lines, t.lastSeq + 1, ev, signer))], t.lastSeq + 1)
    case Reopen => t.(lastSeq := ResumedSeq(p, t.lines))
  }

  class AuditFile {
    var lines: seq<string>

    constructor ()
      ensures lines == []
    {
      lines := [];
    }
  }

  class AuditTrail {
    const p: Primitives
    /** Null when the trail has no path: recording then does nothing. */
    const file: AuditFile?
    var lastSeq: int

    ghost function Abs(): (t: Option<Trail>)
      reads this, file
    {
      if file == null then None else Some(Trail(file.lines, lastSeq))
    }

    constructor (p: Primitives, file: AuditFile?)
      ensures this.p == p && this.file == file
      ensures file != null ==>
        forall t: Trail :: t.lines == file.lines ==> Abs() == Some(UseStep(p, None, t, Reopen))
    {
      this.p := p;
      this.file := file;
      lastSeq := 0;
      new;
      if file != null {
        var i := 0;
        while i < |file.lines|
          invariant 0 <= i <= |file.lines|
          invariant lastSeq == ResumedSeq(p, file.lines[..i])
        {
          assert file.lines[..i + 1][..i] == file.lines[..i];
          var e := p.loads(file.lines[i]);
          if e.Some? {
            lastSeq := e.value.seqNo;
          }
          i := i + 1;
        }
        assert file.lines[..i] == file.lines;
      }
    }

    method Record(ev: Event, signer: Option<string>) returns (entry: Option<Entry>)
      modifies this, file
      ensures file == null ==> entry == None && Abs() == None
      ensures file != null ==>
        && Abs() == Some(UseStep(p, signer, old(Abs()).value, Write(ev)))
        && entry == Some(NewEntry(p, old(file.lines), lastSeq, ev, signer))
    {
      if file == null {
        return None;
      }
      lastSeq := lastSeq + 1;
      var prev := if file.lines == [] then "" else p.sha(file.lines[|file.lines| - 1]);
      var e := Entry(lastSeq, ev.ts, ev.name, ev.reportId, ev.actor, ev.data, prev, None);
      if signer.Some? {
        e := e.(sig := Some(Sign(p, signer.value, e)));
      }
      file.lines := file.lines + [p.dumps(e)];
      entry := Some(e);
    }

    method VerifyAll(signer: Option<string>) returns (ok: bool, problems: seq<Problem>)
      ensures problems == if file == null then [] else Problems(p, signer, Parsed(p, file.lines))
      ensures ok <==> problems == []
    {
      problems := [];
      if file != null {
        var es := Entries();
        var previous := "";
        var i := 0;
        while i < |es|
          invariant 0 <= i <= |es|
          invariant problems == Problems(p, signer, es[..i])
          invariant previous == ChainDigest(p, es[..i])
        {
          NextRecord(p, signer, es, i);
          if es[i].prev != previous {
            problems := problems + [BrokenChain(es[i].seqNo)];
          }
          previous := p.sha(p.dumps(es[i]));
          if signer.Some? && es[i].sig.Some? && es[i].sig.value != ""
             && es[i].sig.value != Sign(p, signer.value, es[i]) {
            problems := problems + [InvalidSignature(es[i].seqNo)];
          }
          i := i + 1;
        }
        assert es[..i] == es;
      }
      ok := problems == [];
    }

    method Entries() returns (es: seq<Entry>)
      ensures es == if file == null then [] else Parsed(p, file.lines)
    {
      es := [];
      if file != null {
        var i := 0;
        while i < |file.lines|
          invariant 0 <= i <= |file.lines|
          invariant es == Parsed(p, file.lines[..i])
        {
          assert file.lines[..i + 1][..i] == file.lines[..i];
          var e := p.loads(file.lines[i]);
          if e.Some? {
            es := es + [e.value];
          }
          i := i + 1;
        }
        assert file.lines[..i] == file.lines;
      }
    }
  }

  /* ------------------------------------------------------------------ the hash chain */

  /** What record `i` should carry: its predecessor's digest, or nothing for the first. */
  function Link(p: Primitives, es: seq<Entry>, i: nat): (r: string)
    requires i < |es|
  {
    if i == 0 then "" else Digest(p, es[i - 1])
  }

  /** A missing or empty signature is not looked at. */
  predicate Unsigned(e: Entry) {
    e.sig.None? || e.sig.value == ""
  }

  predicate SignatureOk(p: Primitives, signer: Option<string>, e: Entry) {
    signer.None? || Unsigned(e) || e.sig.value == Sign(p, signer.value, e)
  }

  /** Record `i` points at its predecessor and its signature, if it has one, is the signer's. */
  ghost predicate LinkedAt(p: Primitives, signer: Option<string>, es: seq<Entry>, i: nat)
    requires i < |es|
  {
    es[i].prev == Link(p, es, i) && SignatureOk(p, signer, es[i])
  }

  ghost predicate AllLinked(p: Primitives, signer: Option<string>, es: seq<Entry>) {
    forall i :: 0 <= i < |es| ==> LinkedAt(p, signer, es, i)
  }

  /** `verify_all` reports nothing exactly when every record links and every signature checks. */
  lemma {:induction false} NoProblemsIff(p: Primitives, signer: Option<string>, es: seq<Entry>)
    ensures Problems(p, signer, es) == [] <==> AllLinked(p, signer, es)
  {
    if es != [] {
      var init, last := es[..|es| - 1], es[|es| - 1];
      assert es == init + [last];
      NoProblemsIff(p, signer, init);
      NoProblemsSnoc(p, signer, init, last, es);
    } else {
      NoneLinked(p, signer);
    }
  }

  lemma NoProblemsSnoc(p: Primitives, signer: Option<string>, init: seq<Entry>, last: Entry, es: seq<Entry>)
    requires es == init + [last] && (Problems(p, signer, init) == [] <==> AllLinked(p, signer, init))
    ensures Problems(p, signer, es) == [] <==> AllLinked(p, signer, es)
  {
    ProblemsSnoc(p, signer, init, last, es);
    LinkedSnoc(p, signer, init, last, es);
  }

  lemma NoneLinked(p: Primitives, signer: Option<string>)
    ensures AllLinked(p, signer, []) && Problems(p, signer, []) == []
  {
  }

  lemma ProblemsSnoc(p: Primitives, signer: Option<string>, init: seq<Entry>, last: Entry, es: seq<Entry>)
    requires es == init + [last]
    ensures Problems(p, signer, es) == Problems(p, signer, init) + ProblemsAt(p, signer, ChainDigest(p, init), last)
    ensures Problems(p, signer, es) == [] <==>
      Problems(p, signer, init) == [] && ProblemsAt(p, signer, ChainDigest(p, init), last) == []
  {
    assert es[..|es| - 1] == init;
  }

  lemma NextRecord(p: Primitives, signer: Option<string>, es: seq<Entry>, i: nat)
    requires i < |es|
    ensures Problems(p, signer, es[..i + 1])
            == Problems(p, signer, es[..i]) + ProblemsAt(p, signer, ChainDigest(p, es[..i]), es[i])
    ensures ChainDigest(p, es[..i + 1]) == Digest(p, es[i])
  {
    ProblemsSnoc(p, signer, es[..i], es[i], es[..i + 1]);
  }

  lemma LinkedSnoc(p: Primitives, signer: Option<string>, init: seq<Entry>, last: Entry, es: seq<Entry>)
    requires es == init + [last]
    ensures AllLinked(p, signer, es) <==>
      AllLinked(p, signer, init) && ProblemsAt(p, signer, ChainDigest(p, init), last) == []
  {
    assert forall i :: 0 <= i < |init| ==> (LinkedAt(p, signer, init, i) <==> LinkedAt(p, signer, es, i));
    assert LinkedAt(p, signer, es, |init|) <==> ProblemsAt(p, signer, ChainDigest(p, init), last) == [];
  }

  ghost predicate Chained(p: Primitives, es: seq<Entry>) {
    forall i {:trigger Link(p, es, i)} :: 0 <= i < |es| ==> es[i].prev == Link(p, es, i)
  }

  lemma VerifiedIsChained(p: Primitives, signer: Option<string>, es: seq<Entry>)
    requires Problems(p, signer, es) == []
    ensures Chained(p, es)
  {
    NoProblemsIff(p, signer, es);
    forall i | 0 <= i < |es| ensures es[i].prev == Link(p, es, i) {
      assert LinkedAt(p, signer, es, i);
    }
  }

  lemma DigestInjective(p: Primitives, x: Entry, y: Entry)
    requires Ideal(p) && Digest(p, x) == Digest(p, y)
    ensures x == y
  {
    assert p.loads(p.dumps(x)) == Some(x) && p.loads(p.dumps(y)) == Some(y);
  }

  /** Only the first record of a chained list carries the empty link. */
  lemma EmptyLinkIsFirst(p: Primitives, es: seq<Entry>, i: nat)
    requires Ideal(p) && Chained(p, es) && i < |es|
    ensures es[i].prev == "" <==> i == 0
  {
    assert es[i].prev == Link(p, es, i);
  }

  /** Counting from a common last record, chained lists agree as far back as both reach. */
  lemma {:induction false} TailsAgree(p: Primitives, a: seq<Entry>, b: seq<Entry>, k: nat)
    requires Ideal(p) && Chained(p, a) && Chained(p, b)
    requires k < |a| && k < |b| && a[|a| - 1] == b[|b| - 1]
    ensures a[|a| - 1 - k] == b[|b| - 1 - k]
  {
    if k > 0 {
      TailsAgree(p, a, b, k - 1);
      var i, j := |a| - k, |b| - k;
      assert a[i].prev == Link(p, a, i) && b[j].prev == Link(p, b, j);
      DigestInjective(p, a[i - 1], b[j - 1]);
    }
  }

  /** Of two chained lists with a common last record, neither is longer. */
  lemma SameLength(p: Primitives, a: seq<Entry>, b: seq<Entry>)
    requires Ideal(p) && Chained(p, a) && Chained(p, b)
    requires a != [] && b != [] && a[|a| - 1] == b[|b| - 1]
    ensures |a| >= |b|
  {
    if |a| < |b| {
      EmptyLinkIsFirst(p, a, 0);
      EmptyLinkIsFirst(p, b, |b| - |a|);
      TailsAgree(p, a, b, |a| - 1);
      assert false;
    }
  }

  lemma ChainedBind(p: Primitives, a: seq<Entry>, b: seq<Entry>)
    requires Ideal(p) && Chained(p, a) && Chained(p, b)
    requires a != [] && b != [] && a[|a| - 1] == b[|b| - 1]
    ensures a == b
  {
    SameLength(p, a, b);
    SameLength(p, b, a);
    forall i | 0 <= i < |a| ensures a[i] == b[i] {
      TailsAgree(p, a, b, |a| - 1 - i);
    }
  }

  /** Two verifying record lists that end in the same record are the same list. */
  lemma {:induction false} ChainBinds(p: Primitives, s1: Option<string>, s2: Option<string>, a: seq<Entry>,
        b: seq<Entry>)
    requires Ideal(p)
    requires Problems(p, s1, a) == [] && Problems(p, s2, b) == []
    requires a != [] && b != [] && a[|a| - 1] == b[|b| - 1]
    ensures a == b
  {
    VerifiedIsChained(p, s1, a);
    VerifiedIsChained(p, s2, b);
    ChainedBind(p, a, b);
  }

  /**
   * Binding: two audit files that both verify and whose last decoded records agree hold
   * the same records, one for one and in the same number.
   */
  lemma FilesBind(p: Primitives, s1: Option<string>, s2: Option<string>, f: seq<string>,
        g: seq<string>)
    requires Ideal(p) && Verifies(p, s1, f) && Verifies(p, s2, g)
    requires Parsed(p, f) != [] && Parsed(p, g) != []
    requires Parsed(p, f)[|Parsed(p, f)| - 1] == Parsed(p, g)[|Parsed(p, g)| - 1]
    ensures Parsed(p, f) == Parsed(p, g)
  {
    ParsedBind(p, s1, s2, f, g, Parsed(p, f), Parsed(p, g), Parsed(p, f)[|Parsed(p, f)| - 1]);
  }

  lemma ParsedBind(p: Primitives, s1: Option<string>, s2: Option<string>, f: seq<string>, g: seq<string>,
        a: seq<Entry>, b: seq<Entry>, last: Entry)
    requires Ideal(p) && Verifies(p, s1, f) && Verifies(p, s2, g) && a == Parsed(p, f) && b == Parsed(p, g)
    requires a != [] && b != [] && a[|a| - 1] == last == b[|b| - 1]
    ensures a == b
  {
    ChainBinds(p, s1, s2, a, b);
  }

  /** Changing any record but the last is reported, whoever checks and with whatever signer. */
  lemma TamperingIsReported(p: Primitives, s1: Option<string>, s2: Option<string>,
        es: seq<Entry>, i: nat, e: Entry)
    requires Ideal(p) && Problems(p, s1, es) == []
    requires i < |es| - 1 && e != es[i]
    ensures Problems(p, s2, es[i := e]) != []
  {
    var changed := es[i := e];
    assert changed[|es| - 1] == es[|es| - 1] && changed[i] != es[i];
    if Problems(p, s2, changed) == [] {
      ChainBinds(p, s1, s2, es, changed);
      assert false;
    }
  }

  /** Dropping, adding or reordering records before an unchanged last one is reported too. */
  lemma RewritingIsReported(p: Primitives, s1: Option<string>, s2: Option<string>,
        es: seq<Entry>, front: seq<Entry>)
    requires Ideal(p) && es != [] && Problems(p, s1, es) == []
    requires front != es[..|es| - 1]
    ensures Problems(p, s2, front + [es[|es| - 1]]) != []
  {
    var other := front + [es[|es| - 1]];
    assert other[..|other| - 1] == front;
    if Problems(p, s2, other) == [] {
      ChainBinds(p, s1, s2, es, other);
      assert false;
    }
  }

  /** What a secret adds to verification: each record is unsigned or signed with it. */
  lemma VerifiesWithSecretIff(p: Primitives, secret: string, lines: seq<string>)
    ensures Verifies(p, Some(secret), lines) <==>
      Verifies(p, None, lines) && forall e :: e in Parsed(p, lines) ==> SignatureOk(p, Some(secret), e)
  {
    var es := Parsed(p, lines);
    NoProblemsIff(p, Some(secret), es);
    NoProblemsIff(p, None, es);
    SecretAdds(p, secret, es);
  }

  lemma SecretAdds(p: Primitives, secret: string, es: seq<Entry>)
    ensures AllLinked(p, Some(secret), es) <==>
      AllLinked(p, None, es) && forall e :: e in es ==> SignatureOk(p, Some(secret), e)
  {
    if AllLinked(p, Some(secret), es) {
      forall e | e in es ensures SignatureOk(p, Some(secret), e) {
        var i :| 0 <= i < |es| && es[i] == e;
        assert LinkedAt(p, Some(secret), es, i);
      }
      forall i | 0 <= i < |es| ensures LinkedAt(p, None, es, i) {
        assert LinkedAt(p, Some(secret), es, i);
      }
    } else {
      var i :| 0 <= i < |es| && !LinkedAt(p, Some(secret), es, i);
      assert LinkedAt(p, None, es, i) ==> !SignatureOk(p, Some(secret), es[i]);
    }
  }

  /**
   * The last record has no successor to bind it: overwriting the last line of a verifying
   * file with any record goes unreported exactly when that record keeps the link and is
   * unsigned or carries the signer's own signature.
   */
  lemma LastLineBoundBySignature(p: Primitives, signer: Option<string>, front: seq<string>,
        last: Entry, e: Entry)
    requires Json(p) && Verifies(p, signer, front + [p.dumps(last)])
    ensures Verifies(p, signer, front + [p.dumps(e)]) <==> e.prev == last.prev && SignatureOk(p, signer, e)
  {
    ParsedSnoc(p, front, last);
    ParsedSnoc(p, front, e);
    var es := Parsed(p, front);
    ProblemsSnoc(p, signer, es, last, es + [last]);
    ProblemsSnoc(p, signer, es, e, es + [e]);
  }

  /* ------------------------------------------------------------------ writing the trail */

  /** The signature does not cover itself, so signing before storing it is sound. */
  lemma SignatureIgnoresItself(p: Primitives, secret: string, e: Entry, sig: Option<string>)
    ensures Sign(p, secret, e.(sig := sig)) == Sign(p, secret, e)
  {
  }

  /**
   * Appending one record to a verifying file keeps it verifying exactly when the last raw
   * line is the canonical text of the last decoded record: an undecodable or reformatted
   * last line breaks the chain for good.
   */
  lemma AppendKeepsVerifying(p: Primitives, signer: Option<string>, lines: seq<string>,
        seqNo: int, ev: Event)
    requires Ideal(p) && Verifies(p, signer, lines)
    ensures var es := Parsed(p, lines);
      var after := lines + [p.dumps(NewEntry(p, lines, seqNo, ev, signer))];
      && Parsed(p, after) == es + [NewEntry(p, lines, seqNo, ev, signer)]
      && (Verifies(p, signer, after) <==>
          lines == [] || (es != [] && lines[|lines| - 1] == p.dumps(es[|es| - 1])))
  {
    var e := NewEntry(p, lines, seqNo, ev, signer);
    ParsedSnoc(p, lines, e);
    var es := Parsed(p, lines);
    ProblemsSnoc(p, signer, es, e, es + [e]);
    assert e.prev == PreviousDigest(p, lines);
    NewEntrySigned(p, lines, seqNo, ev, signer);
    assert Verifies(p, signer, lines + [p.dumps(e)]) <==> PreviousDigest(p, lines) == ChainDigest(p, es);
  }

  lemma ParsedSnoc(p: Primitives, lines: seq<string>, e: Entry)
    requires Json(p)
    ensures Parsed(p, lines + [p.dumps(e)]) == Parsed(p, lines) + [e]
  {
    ParsedLine(p, lines, p.dumps(e), lines + [p.dumps(e)]);
  }

  lemma ParsedLine(p: Primitives, lines: seq<string>, line: string, all: seq<string>)
    requires all == lines + [line]
    ensures Parsed(p, all) == Parsed(p, lines) + if p.loads(line).Some? then [p.loads(line).value] else []
  {
    assert all[..|all| - 1] == lines;
  }

  lemma NewEntrySigned(p: Primitives, lines: seq<string>, seqNo: int, ev: Event, signer: Option<string>)
    ensures var e := NewEntry(p, lines, seqNo, ev, signer);
      ProblemsAt(p, signer, PreviousDigest(p, lines), e) == []
  {
    if signer.Some? {
      var e := NewEntry(p, lines, seqNo, ev, signer);
      SignatureIgnoresItself(p, signer.value, e, None);
    }
  }

  function RunUses(p: Primitives, signer: Option<string>, uses: seq<Use>): (r: Trail) {
    if uses == [] then Trail([], 0)
    else UseStep(p, signer, RunUses(p, signer, uses[..|uses| - 1]), uses[|uses| - 1])
  }

  function Writes(uses: seq<Use>): (n: nat) {
    if uses == [] then 0 else Writes(uses[..|uses| - 1]) + if uses[|uses| - 1].Write? then 1 else 0
  }

  ghost predicate WellWritten(p: Primitives, signer: Option<string>, t: Trail, n: nat) {
    var es := Parsed(p, t.lines);
    && |es| == |t.lines| == n && t.lastSeq == n
    && (forall i :: 0 <= i < n ==> es[i].seqNo == i + 1 && t.lines[i] == p.dumps(es[i]))
    && Problems(p, signer, es) == []
  }

  /**
   * Any sequence of writes with one signer, interleaved with reopening the file, leaves
   * the sequence numbers 1..n in order and a file in which `verify_all` finds no problem.
   */
  lemma {:induction false} TrailVerifiesItself(p: Primitives, signer: Option<string>, uses: seq<Use>)
    requires Json(p)
    ensures WellWritten(p, signer, RunUses(p, signer, uses), Writes(uses))
  {
    if uses != [] {
      var init, last := uses[..|uses| - 1], uses[|uses| - 1];
      TrailVerifiesItself(p, signer, init);
      var t := RunUses(p, signer, init);
      if last.Write? {
        WriteKeepsWell(p, signer, t, Writes(init), last.ev);
      }
    }
  }

  lemma WriteKeepsWell(p: Primitives, signer: Option<string>, t: Trail, n: nat, ev: Event)
    requires Json(p) && WellWritten(p, signer, t, n)
    ensures WellWritten(p, signer, UseStep(p, signer, t, Write(ev)), n + 1)
  {
    var e := NewEntry(p, t.lines, t.lastSeq + 1, ev, signer);
    ParsedSnoc(p, t.lines, e);
    ProblemFreeWrite(p, signer, t, n, ev);
    WellSnoc(p, signer, t, n, e, Parsed(p, t.lines), UseStep(p, signer, t, Write(ev)));
  }

  lemma WellSnoc(p: Primitives, signer: Option<string>, t: Trail, n: nat, e: Entry, es: seq<Entry>, t1: Trail)
    requires WellWritten(p, signer, t, n) && es == Parsed(p, t.lines) && e.seqNo == n + 1
    requires t1 == Trail(t.lines + [p.dumps(e)], n + 1) && Parsed(p, t1.lines) == es + [e]
    requires Problems(p, signer, es + [e]) == []
    ensures WellWritten(p, signer, t1, n + 1)
  {
  }

  lemma ProblemFreeWrite(p: Primitives, signer: Option<string>, t: Trail, n: nat, ev: Event)
    requires Json(p) && WellWritten(p, signer, t, n)
    ensures Problems(p, signer, Parsed(p, t.lines) + [NewEntry(p, t.lines, t.lastSeq + 1, ev, signer)]) == []
  {
    var e, es := NewEntry(p, t.lines, t.lastSeq + 1, ev, signer), Parsed(p, t.lines);
    NewEntrySigned(p, t.lines, t.lastSeq + 1, ev, signer);
    assert PreviousDigest(p, t.lines) == ChainDigest(p, es);
    ProblemsSnoc(p, signer, es, e, es + [e]);
  }

  lemma {:induction false} WrittenUnsigned(p: Primitives, uses: seq<Use>)
    requires Json(p)
    ensures forall e :: e in Parsed(p, RunUses(p, None, uses).lines) ==> Unsigned(e)
  {
    if uses != [] {
      var init, last := uses[..|uses| - 1], uses[|uses| - 1];
      WrittenUnsigned(p, init);
      var t := RunUses(p, None, init);
      if last.Write? {
        ParsedSnoc(p, t.lines, NewEntry(p, t.lines, t.lastSeq + 1, last.ev, None));
      }
    }
  }

  /** A trail written without a secret verifies under every secret: a missing signature is accepted. */
  lemma UnsignedTrailVerifies(p: Primitives, secret: string, uses: seq<Use>)
    requires Json(p)
    ensures Verifies(p, Some(secret), RunUses(p, None, uses).lines)
  {
    TrailVerifiesItself(p, None, uses);
    WrittenUnsigned(p, uses);
    VerifiesWithSecretIff(p, secret, RunUses(p, None, uses).lines);
  }

  /** An undecodable line is skipped by verification wherever it stands. */
  lemma {:induction false} UndecodableLineIsSkipped(p: Primitives, a: seq<string>, junk: string, b: seq<string>)
    requires p.loads(junk) == None
    ensures Parsed(p, a + [junk] + b) == Parsed(p, a + b)
  {
    if b == [] {
      assert a + [junk] + b == a + [junk] && a + b == a;
      ParsedLine(p, a, junk, a + [junk]);
    } else {
      var init, last := b[..|b| - 1], b[|b| - 1];
      UndecodableLineIsSkipped(p, a, junk, init);
      ParsedLine(p, a + [junk] + init, last, a + [junk] + b);
      ParsedLine(p, a + init, last, a + b);
    }
  }
}
