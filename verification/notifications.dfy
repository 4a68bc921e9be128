/** The visit notifications a view posts. nanoc posts them on a global
    notification centre; here they are an explicit, immutable log that every
    accessor receives and returns extended. */
module Notifications {
  import opened Wrappers
  import opened Documents

  datatype Event = VisitStarted(doc: Document) | VisitEnded(doc: Document)

  /** Every notification posted so far, oldest first. */
  type Log = seq<Event>

  /** `after` is `before` followed by exactly one visit of `d`: a start, then
      its end, and nothing else; earlier entries are untouched. */
  predicate RecordsOneVisit(before: Log, after: Log, d: Document) {
    && |after| == |before| + 2
    && after[..|before|] == before
    && after[|before|] == VisitStarted(d)
    && after[|before| + 1] == VisitEnded(d)
  }

  /** Posts `visit_started(d)` and then `visit_ended(d)`. */
  function PostVisit(log: Log, d: Document): (r: Log)
    ensures RecordsOneVisit(log, r, d)
  {
    log + [VisitStarted(d), VisitEnded(d)]
  }

  /** Replays `log` against a stack of visits still open (innermost last).
      A start pushes its document; an end must close the innermost open visit
      of the same document, otherwise the log is malformed (`None`). */
  function Replay(open: seq<Document>, log: Log): Option<seq<Document>>
    decreases |log|
  {
    if log == [] then Some(open)
    else match log[0]
      case VisitStarted(d) => Replay(open + [d], log[1..])
      case VisitEnded(d) =>
        if |open| > 0 && open[|open| - 1] == d then Replay(open[..|open| - 1], log[1..])
        else None
  }

  /** Every visit in the log is closed, in stack order, by an end for the same
      document. */
  predicate WellNested(log: Log) {
    Replay([], log) == Some([])
  }

  /** Replaying a concatenation is replaying the first part, then the second
      part from wherever the first left the stack. */
  lemma {:induction false} ReplayConcat(open: seq<Document>, a: Log, b: Log)
    ensures Replay(open, a + b) ==
            (match Replay(open, a)
             case None => None
             case Some(s) => Replay(s, b))
    decreases |a|
  {
    if a == [] {
      assert a + b == b;
    } else {
      assert (a + b)[0] == a[0];
      assert (a + b)[1..] == a[1..] + b;
      match a[0]
      case VisitStarted(d) =>
        ReplayConcat(open + [d], a[1..], b);
      case VisitEnded(d) =>
        if |open| > 0 && open[|open| - 1] == d {
          ReplayConcat(open[..|open| - 1], a[1..], b);
        }
    }
  }

  /** One posted visit closes what it opens: the stack of open visits is the
      same after it as before, and a malformed log stays malformed. */
  lemma PostVisitKeepsOpenVisits(open: seq<Document>, log: Log, d: Document)
    ensures Replay(open, PostVisit(log, d)) == Replay(open, log)
  {
    var pair := [VisitStarted(d), VisitEnded(d)];
    ReplayConcat(open, log, pair);
    forall s: seq<Document> ensures Replay(s, pair) == Some(s) {
      assert pair[1..] == [VisitEnded(d)];
      assert (s + [d])[..|s|] == s;
      assert Replay(s + [d], [VisitEnded(d)]) == Replay(s, []);
    }
  }

  /** Posting a visit keeps a well-nested log well-nested. */
  lemma PostVisitKeepsWellNested(log: Log, d: Document)
    requires WellNested(log)
    ensures WellNested(PostVisit(log, d))
  {
    PostVisitKeepsOpenVisits([], log, d);
  }

  /** Posting a visit of `d` adds exactly one start and one end for `d` and
      leaves every other document's counts alone. */
  lemma PostVisitCounts(log: Log, d: Document, e: Document)
    ensures multiset(PostVisit(log, d))[VisitStarted(e)] ==
            multiset(log)[VisitStarted(e)] + (if d == e then 1 else 0)
    ensures multiset(PostVisit(log, d))[VisitEnded(e)] ==
            multiset(log)[VisitEnded(e)] + (if d == e then 1 else 0)
  {
    assert multiset(PostVisit(log, d)) == multiset(log) + multiset{VisitStarted(d), VisitEnded(d)};
  }
}
