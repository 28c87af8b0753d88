/** Feature vectors as far as the learning loop looks at them. */
module Features {
  datatype KernelEvent = KernelEvent(eventId: string, timestamp: real, body: string)

  /**
   * One behaviour chain: its key, its feature values and the events behind it. The
   * extractor derives pid, exe and the time span from those events.
   */
  datatype ProcessFeatures = ProcessFeatures(
    chainKey: string, values: map<string, real>, relatedEvents: seq<KernelEvent>)
}

/** The analyst verdict ledger and what it removes from training. */
module Feedback {
  import opened Wrappers
  import opened Sequences
  import opened Features

  const BENIGN := "benign"
  const MALICIOUS := "malicious"

  datatype LedgerEntry = LedgerEntry(
    chainKey: string, verdict: string, reportId: Option<nat>, note: Option<string>, timestamp: nat)

  /** Dict assignment: an existing key keeps its place, a new one goes to the end. */
  function Put(es: seq<LedgerEntry>, e: LedgerEntry): (r: seq<LedgerEntry>) {
    if es == [] then [e]
    else if es[0].chainKey == e.chainKey then [e] + es[1..]
    else [es[0]] + Put(es[1..], e)
  }

  function VerdictFor(es: seq<LedgerEntry>, key: string): (r: Option<string>) {
    if es == [] then None
    else if es[0].chainKey == key then Some(es[0].verdict)
    else VerdictFor(es[1..], key)
  }

  function KeysWith(es: seq<LedgerEntry>, verdict: string): (r: set<string>) {
    set e | e in es && e.verdict == verdict :: e.chainKey
  }

  function NotMalicious(es: seq<LedgerEntry>): (p: ProcessFeatures -> bool)
    ensures forall v :: p(v) <==> v.chainKey !in KeysWith(es, MALICIOUS)
  {
    (v: ProcessFeatures) => v.chainKey !in KeysWith(es, MALICIOUS)
  }

  /** The vectors minus every chain the analyst confirmed as malicious. */
  function ReweightBaseline(vectors: seq<ProcessFeatures>, es: seq<LedgerEntry>): (r: seq<ProcessFeatures>) {
    if KeysWith(es, MALICIOUS) == {} then vectors else Filter(vectors, NotMalicious(es))
  }

  /** The ledger after a verdict, and whether the label changed; `None` for an unknown verdict. */
  function RecordVerdict(es: seq<LedgerEntry>, e: LedgerEntry): (r: Option<(seq<LedgerEntry>, bool)>) {
    if e.verdict != BENIGN && e.verdict != MALICIOUS then None
    else Some((Put(es, e), VerdictFor(es, e.chainKey) != Some(e.verdict)))
  }

  /** Reading the store back line by line; a later line for a chain replaces the earlier. */
  function Load(file: seq<LedgerEntry>): (r: seq<LedgerEntry>) {
    if file == [] then [] else Put(Load(file[..|file| - 1]), file[|file| - 1])
  }

  ghost predicate DistinctKeys(es: seq<LedgerEntry>) {
    forall i, j :: 0 <= i < j < |es| ==> es[i].chainKey != es[j].chainKey
  }

  class LedgerFile {
    var lines: seq<LedgerEntry>

    constructor ()
      ensures lines == []
    {
      lines := [];
    }
  }

  class FeedbackLedger {
    const file: LedgerFile?
    var entries: seq<LedgerEntry>

    constructor (file: LedgerFile?)
      ensures this.file == file
      ensures entries == if file == null then [] else Load(file.lines)
    {
      this.file := file;
      entries := [];
      new;
      if file != null {
        var i := 0;
        while i < |file.lines|
          invariant 0 <= i <= |file.lines|
          invariant entries == Load(file.lines[..i])
        {
          assert file.lines[..i + 1][..i] == file.lines[..i];
          entries := Put(entries, file.lines[i]);
          i := i + 1;
        }
        assert file.lines[..i] == file.lines;
      }
    }

    /** `None` stands for the ValueError of an unknown verdict. */
    method Record(e: LedgerEntry) returns (changed: Option<bool>)
      modifies this, file
      ensures match RecordVerdict(old(entries), e)
        case None =>
          changed == None && entries == old(entries) && (file != null ==> file.lines == old(file.lines))
        case Some((after, differs)) =>
          changed == Some(differs) && entries == after && (file != null ==> file.lines == after)
    {
      if e.verdict != BENIGN && e.verdict != MALICIOUS {
        return None;
      }
      changed := Some(VerdictFor(entries, e.chainKey) != Some(e.verdict));
      entries := Put(entries, e);
      if file != null {
        file.lines := entries;
      }
    }
  }

  /* ------------------------------------------------------------------- properties */

  lemma {:induction false} PutIsAssignment(es: seq<LedgerEntry>, e: LedgerEntry)
    requires DistinctKeys(es)
    ensures DistinctKeys(Put(es, e))
    ensures forall x :: x in Put(es, e) <==> x == e || (x in es && x.chainKey != e.chainKey)
    ensures forall k :: VerdictFor(Put(es, e), k) == if k == e.chainKey then Some(e.verdict) else VerdictFor(es, k)
  {
    if es != [] {
      PutIsAssignment(es[1..], e);
      assert es == [es[0]] + es[1..];
      forall x | x in es[1..] ensures x.chainKey != es[0].chainKey {
      }
    }
  }

  /** Reading verdicts by key and collecting keys by verdict agree. */
  lemma {:induction false} KeysWithVerdict(es: seq<LedgerEntry>, key: string, verdict: string)
    requires DistinctKeys(es)
    ensures key in KeysWith(es, verdict) <==> VerdictFor(es, key) == Some(verdict)
  {
    if es != [] {
      KeysWithVerdict(es[1..], key, verdict);
      assert es == [es[0]] + es[1..];
      if es[0].chainKey == key {
        forall e | e in es[1..] ensures e.chainKey != key {
        }
      }
    }
  }

  /** The last verdict recorded for a chain. */
  function LatestVerdict(records: seq<LedgerEntry>, key: string): (r: Option<string>) {
    if records == [] then None
    else if records[|records| - 1].chainKey == key then Some(records[|records| - 1].verdict)
    else LatestVerdict(records[..|records| - 1], key)
  }

  /** However verdicts came in, the ledger holds the latest one of every chain. */
  lemma {:induction false} LedgerHoldsLatest(records: seq<LedgerEntry>, key: string)
    ensures DistinctKeys(Load(records))
    ensures VerdictFor(Load(records), key) == LatestVerdict(records, key)
    ensures key in KeysWith(Load(records), MALICIOUS) <==> LatestVerdict(records, key) == Some(MALICIOUS)
  {
    if records != [] {
      LedgerHoldsLatest(records[..|records| - 1], key);
      PutIsAssignment(Load(records[..|records| - 1]), records[|records| - 1]);
    }
    KeysWithVerdict(Load(records), key, MALICIOUS);
  }

  lemma {:induction false} PutNewAppends(es: seq<LedgerEntry>, e: LedgerEntry)
    requires forall x :: x in es ==> x.chainKey != e.chainKey
    ensures Put(es, e) == es + [e]
  {
    if es != [] {
      assert es[0] in es;
      PutNewAppends(es[1..], e);
      assert es == [es[0]] + es[1..];
    }
  }

  /** A restart reads back exactly the ledger that was saved, order included. */
  lemma {:induction false} SaveLoadRoundTrip(es: seq<LedgerEntry>)
    requires DistinctKeys(es)
    ensures Load(es) == es
  {
    if es != [] {
      var n := |es| - 1;
      SaveLoadRoundTrip(es[..n]);
      PutNewAppends(es[..n], es[n]);
      assert es[..n] + [es[n]] == es;
    }
  }

  /** Reweighting keeps exactly the vectors whose chain is not labelled malicious, in order. */
  lemma ReweightIsFilter(vectors: seq<ProcessFeatures>, es: seq<LedgerEntry>)
    ensures ReweightBaseline(vectors, es) == Filter(vectors, NotMalicious(es))
  {
    if KeysWith(es, MALICIOUS) == {} {
      FilterAll(vectors, NotMalicious(es));
    }
  }
}
