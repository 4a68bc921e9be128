/** The reads a piece of compiling code makes through views, one after the
    other, each through one of the four readers. The notification log is
    threaded from each read to the next. */
module Reads {
  import opened Wrappers
  import opened Documents
  import opened Notifications
  import opened DocumentView

  /** One call of a reader on a view. */
  datatype Access =
    | IndexAccess(key: Key)
    | AttributesAccess
    | FetchAccess(key: Key, fallback: Fallback)
    | HasKeyAccess(key: Key)

  /** What the reader returned. */
  datatype Answer =
    | Looked(found: Option<Value>)
    | AllAttributes(attributes: map<Key, Value>)
    | Fetched(outcome: Result<Value, KeyError>)
    | Present(present: bool)

  datatype Read = Read(view: View, access: Access)

  /** Dispatches one read to its reader. */
  function Perform(r: Read, log: Log): (t: Traced<Answer>)
    ensures RecordsOneVisit(log, t.log, r.view.doc)
  {
    match r.access
    case IndexAccess(k) =>
      var t := Index(r.view, k, log); Traced(Looked(t.result), t.log)
    case AttributesAccess =>
      var t := Attributes(r.view, log); Traced(AllAttributes(t.result), t.log)
    case FetchAccess(k, fb) =>
      var t := Fetch(r.view, k, fb, log); Traced(Fetched(t.result), t.log)
    case HasKeyAccess(k) =>
      var t := HasKey(r.view, k, log); Traced(Present(t.result), t.log)
  }

  /** Performs the reads in order. The i-th answer is what the i-th read
      returns on its own, and the log gains, in order, exactly one start/end
      pair per read for the document that read's view wraps. */
  function PerformAll(calls: seq<Read>, log: Log): (r: Traced<seq<Answer>>)
    ensures |r.result| == |calls|
    ensures forall i :: 0 <= i < |calls| ==> r.result[i] == Perform(calls[i], []).result
    ensures |r.log| == |log| + 2 * |calls|
    ensures r.log[..|log|] == log
    ensures forall i :: 0 <= i < |calls| ==>
              && r.log[|log| + 2 * i] == VisitStarted(calls[i].view.doc)
              && r.log[|log| + 2 * i + 1] == VisitEnded(calls[i].view.doc)
    decreases |calls|
  {
    if calls == [] then Traced([], log)
    else
      var first := Perform(calls[0], log);
      var rest := PerformAll(calls[1..], first.log);
      PerformIgnoresLog(calls[0], log);
      PerformAllShifts(calls, log, first.log, rest.log);
      Traced([first.result] + rest.result, rest.log)
  }

  /** A reader's answer does not depend on the notifications posted before. */
  lemma PerformIgnoresLog(r: Read, log: Log)
    ensures Perform(r, log).result == Perform(r, []).result
  {
  }

  /** The log shape of `PerformAll` on a non-empty run, from the first read's
      visit and the shape of the rest. */
  lemma PerformAllShifts(calls: seq<Read>, log: Log, mid: Log, after: Log)
    requires |calls| > 0
    requires RecordsOneVisit(log, mid, calls[0].view.doc)
    requires |after| == |mid| + 2 * (|calls| - 1)
    requires after[..|mid|] == mid
    requires forall i :: 0 <= i < |calls| - 1 ==>
               && after[|mid| + 2 * i] == VisitStarted(calls[1..][i].view.doc)
               && after[|mid| + 2 * i + 1] == VisitEnded(calls[1..][i].view.doc)
    ensures |after| == |log| + 2 * |calls|
    ensures after[..|log|] == log
    ensures forall i :: 0 <= i < |calls| ==>
              && after[|log| + 2 * i] == VisitStarted(calls[i].view.doc)
              && after[|log| + 2 * i + 1] == VisitEnded(calls[i].view.doc)
  {
    assert after[..|log|] == mid[..|log|];
    forall i | 0 <= i < |calls|
      ensures after[|log| + 2 * i] == VisitStarted(calls[i].view.doc)
      ensures after[|log| + 2 * i + 1] == VisitEnded(calls[i].view.doc)
    {
      if i == 0 {
        assert after[|log|] == mid[|log|];
        assert after[|log| + 1] == mid[|log| + 1];
      } else {
        assert calls[1..][i - 1] == calls[i];
        assert |log| + 2 * i == |mid| + 2 * (i - 1);
      }
    }
  }

  /** How many of the calls go through a view of `d`. */
  function CallsOf(calls: seq<Read>, d: Document): nat
    decreases |calls|
  {
    if calls == [] then 0
    else (if calls[0].view.doc == d then 1 else 0) + CallsOf(calls[1..], d)
  }

  /** The log counts every read: each document gains exactly as many visit
      starts, and as many visit ends, as there were calls of it. */
  lemma {:induction false} PerformAllCountsVisits(calls: seq<Read>, log: Log, d: Document)
    ensures multiset(PerformAll(calls, log).log)[VisitStarted(d)] ==
            multiset(log)[VisitStarted(d)] + CallsOf(calls, d)
    ensures multiset(PerformAll(calls, log).log)[VisitEnded(d)] ==
            multiset(log)[VisitEnded(d)] + CallsOf(calls, d)
    decreases |calls|
  {
    if calls != [] {
      var first := Perform(calls[0], log);
      assert first.log == PostVisit(log, calls[0].view.doc);
      PostVisitCounts(log, calls[0].view.doc, d);
      PerformAllCountsVisits(calls[1..], first.log, d);
    }
  }

  /** No read escapes the log: every document read is visited. */
  lemma EveryReadIsVisited(calls: seq<Read>, log: Log, i: nat)
    requires i < |calls|
    ensures VisitStarted(calls[i].view.doc) in PerformAll(calls, log).log
    ensures VisitEnded(calls[i].view.doc) in PerformAll(calls, log).log
  {
    var after := PerformAll(calls, log).log;
    assert after[|log| + 2 * i] == VisitStarted(calls[i].view.doc);
    assert after[|log| + 2 * i + 1] == VisitEnded(calls[i].view.doc);
  }

  /** A run of calls opens no visit it does not close: the stack of open
      visits is the same after it as before, so a well-nested log stays
      well-nested. */
  lemma {:induction false} PerformAllKeepsOpenVisits(open: seq<Document>, calls: seq<Read>, log: Log)
    ensures Replay(open, PerformAll(calls, log).log) == Replay(open, log)
    decreases |calls|
  {
    if calls != [] {
      var first := Perform(calls[0], log);
      assert first.log == PostVisit(log, calls[0].view.doc);
      PerformAllKeepsOpenVisits(open, calls[1..], first.log);
      PostVisitKeepsOpenVisits(open, log, calls[0].view.doc);
    }
  }

  lemma PerformAllKeepsWellNested(calls: seq<Read>, log: Log)
    requires WellNested(log)
    ensures WellNested(PerformAll(calls, log).log)
  {
    PerformAllKeepsOpenVisits([], calls, log);
  }
}
