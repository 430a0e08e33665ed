/** The receipt of a publish counts exactly the copies its fan-out left in the queues. */
module FanoutReceipts {
  import opened Prelude
  import opened Queues
  import opened Deliveries
  import opened Fanout
  import opened DeliveryTheorems
  import Receipts

  /** The acknowledgement the local provider returns. */
  function ToDestination(a: Admission): (d: Receipts.Destination) {
    Receipts.Destination(a.id, if a.rejection.None? then Receipts.Accepted else Receipts.Rejected)
  }

  function ToDestinations(report: seq<Admission>): (ds: seq<Receipts.Destination>)
    ensures |ds| == |report|
  {
    seq(|report|, i requires 0 <= i < |report| => ToDestination(report[i]))
  }

  function Accepted(report: seq<Admission>): (n: nat) {
    Receipts.Count(ToDestinations(report), Receipts.Accepted)
  }

  lemma AcceptedSnoc(report: seq<Admission>, a: Admission)
    ensures Accepted(report + [a]) == Accepted(report) + if a.rejection.None? then 1 else 0
  {
    var ds := ToDestinations(report + [a]);
    assert ds[..|ds| - 1] == ToDestinations(report);
  }

  lemma {:induction false} AcceptedCons(a: Admission, report: seq<Admission>)
    ensures Accepted([a] + report) == Accepted(report) + if a.rejection.None? then 1 else 0
  {
    hide Accepted;
    if report == [] {
      assert [a] + report == [] + [a];
      AcceptedSnoc([], a);
    } else {
      var last := |report| - 1;
      assert report == report[..last] + [report[last]];
      assert [a] + report == ([a] + report[..last]) + [report[last]];
      AcceptedCons(a, report[..last]);
      AcceptedSnoc([a] + report[..last], report[last]);
      AcceptedSnoc(report[..last], report[last]);
    }
  }

  lemma {:induction false} AcceptedInsert(s: seq<Admission>, a: Admission)
    ensures Accepted(InsertById(s, a)) == Accepted(s) + if a.rejection.None? then 1 else 0
  {
    hide Accepted;
    AcceptedCons(a, s);
    if s != [] && a.id >= s[0].id {
      AcceptedInsert(s[1..], a);
      AcceptedCons(s[0], InsertById(s[1..], a));
      AcceptedCons(s[0], s[1..]);
      assert s == [s[0]] + s[1..];
    }
  }

  lemma {:induction false} AcceptedSort(s: seq<Admission>)
    ensures Accepted(SortById(s)) == Accepted(s)
  {
    hide Accepted;
    if s == [] {
      assert SortById(s) == s;
    } else {
      AcceptedSort(s[1..]);
      AcceptedInsert(SortById(s[1..]), s[0]);
      AcceptedCons(s[0], s[1..]);
      assert s == [s[0]] + s[1..];
    }
  }

  /** The queues a fan-out reported as accepted. */
  function AcceptedQueues(snapshot: seq<nat>, done: seq<Admission>): (r: set<nat>)
    requires |done| == |snapshot|
  {
    if done == [] then {}
    else
      var last := |done| - 1;
      AcceptedQueues(snapshot[..last], done[..last]) + if done[last].rejection.None? then {snapshot[last]} else {}
  }

  lemma {:induction false} AcceptedFrom(snapshot: seq<nat>, done: seq<Admission>, i: nat)
    requires |done| == |snapshot|
    ensures i in AcceptedQueues(snapshot, done) <==> exists j | 0 <= j < |snapshot| :: snapshot[j] == i && done[j].rejection.None?
  {
    if done != [] {
      var last := |done| - 1;
      AcceptedFrom(snapshot[..last], done[..last], i);
      if j :| 0 <= j < |snapshot| && snapshot[j] == i && done[j].rejection.None? {
        assert j < last ==> snapshot[..last][j] == i && done[..last][j].rejection.None?;
      }
      if j :| 0 <= j < last && snapshot[..last][j] == i && done[..last][j].rejection.None? {
        assert snapshot[j] == i && done[j].rejection.None?;
      }
    }
  }

  lemma {:induction false} AcceptedSize(snapshot: seq<nat>, done: seq<Admission>)
    requires |done| == |snapshot| && forall j, k | 0 <= j < k < |snapshot| :: snapshot[j] != snapshot[k]
    ensures |AcceptedQueues(snapshot, done)| == Accepted(done)
  {
    hide Accepted;
    if done == [] {
      assert Accepted(done) == 0 by { NoneAccepted(); }
    } else {
      var last := |done| - 1;
      AcceptedSize(snapshot[..last], done[..last]);
      assert done == done[..last] + [done[last]];
      AcceptedSnoc(done[..last], done[last]);
      AcceptedFrom(snapshot[..last], done[..last], snapshot[last]);
    }
  }

  lemma NoneAccepted()
    ensures Accepted([]) == 0
  {
  }

  /** The queues that ever admitted the event. */
  ghost function Holders(c: Core, e: LocalEvent): (r: set<nat>) {
    set i | 0 <= i < |c.ledgers| && e in c.ledgers[i].admitted
  }

  /** A status occurs in the acknowledgement exactly when an entry of the report has it. */
  lemma StatusOccurs(report: seq<Admission>)
    ensures Receipts.Any(ToDestinations(report), Receipts.Accepted) <==> exists j | 0 <= j < |report| :: report[j].rejection.None?
    ensures Receipts.Any(ToDestinations(report), Receipts.Rejected) <==> exists j | 0 <= j < |report| :: report[j].rejection.Some?
  {
    var ds := ToDestinations(report);
    forall j | 0 <= j < |report| ensures ds[j] == ToDestination(report[j]) {
    }
    if j :| 0 <= j < |report| && report[j].rejection.None? {
      assert ds[j].status == Receipts.Accepted;
    }
    if j :| 0 <= j < |report| && report[j].rejection.Some? {
      assert ds[j].status == Receipts.Rejected;
    }
  }

  lemma SomeRejected(a: seq<Admission>, b: seq<Admission>)
    requires multiset(a) == multiset(b) && exists j | 0 <= j < |a| :: a[j].rejection.Some?
    ensures exists j | 0 <= j < |b| :: b[j].rejection.Some?
  {
    var j :| 0 <= j < |a| && a[j].rejection.Some?;
    assert a[j] in multiset(b);
    var k :| 0 <= k < |b| && b[k] == a[j];
  }

  lemma HoldersAre(c: Core, e: LocalEvent, snapshot: seq<nat>, done: seq<Admission>)
    requires CoreOk(c) && ReportOk(c, e, snapshot, done) && |done| == |snapshot|
    ensures Holders(c, e) == AcceptedQueues(snapshot, done)
    ensures forall j | 0 <= j < |snapshot| :: snapshot[j] in Holders(c, e) <==> done[j].rejection.None?
    ensures forall j, k | 0 <= j < k < |snapshot| :: snapshot[j] != snapshot[k]
  {
    hide CoreOk, ReportOk;
    ReportEntries(c, e, snapshot, done);
    forall j | 0 <= j < |snapshot| ensures snapshot[j] in Holders(c, e) <==> done[j].rejection.None? {
      assert c.ledgers[snapshot[j]].admitted[e] == if done[j].rejection.None? then 1 else 0;
    }
    forall i: nat ensures i in Holders(c, e) <==> i in AcceptedQueues(snapshot, done) {
      AcceptedFrom(snapshot, done, i);
      if i in snapshot {
        var j :| 0 <= j < |snapshot| && snapshot[j] == i;
      }
    }
  }

  /**
   * What the receipt of a finished fan-out says: its accepted count is the number of queues that admitted a copy of the
   * event; at least one accepted destination is reported exactly when there is such a queue; the strictest requirement
   * passes exactly when there was a queue to visit and every visited one admitted a copy.
   */
  lemma ReceiptOf(c: Core, e: LocalEvent, snapshot: seq<nat>, done: seq<Admission>)
    requires CoreOk(c) && ReportOk(c, e, snapshot, done) && |done| == |snapshot|
    ensures var ack := Receipts.DestinationAdmissions(ToDestinations(SortById(done)));
            && Receipts.Count(ack.destinations, Receipts.Accepted) == |Holders(c, e)|
            && (Receipts.CheckAdmission(ack, Receipts.AtLeastOneAccepted).Passed? <==> Holders(c, e) != {})
            && (Receipts.CheckAdmission(ack, Receipts.AtLeastOneAcceptedAndNoRejected).Passed? <==>
                  snapshot != [] && forall j | 0 <= j < |snapshot| :: snapshot[j] in Holders(c, e))
  {
    hide CoreOk, ReportOk, Holders, AcceptedQueues, ToDestinations, SortById;
    var report := SortById(done);
    var ds := ToDestinations(report);
    HoldersAre(c, e, snapshot, done);
    AcceptedSize(snapshot, done);
    AcceptedSort(done);
    Receipts.RequirementsMean(Receipts.DestinationAdmissions(ds));
    Receipts.CountPositive(ds, Receipts.Accepted);
    assert multiset(report) == multiset(done) by {
      ReportEntries(c, e, snapshot, done);
      SortIs(done);
    }
    StatusOccurs(report);
    if exists j | 0 <= j < |report| :: report[j].rejection.Some? {
      SomeRejected(report, done);
    }
    if exists j | 0 <= j < |done| :: done[j].rejection.Some? {
      SomeRejected(done, report);
    }
    if snapshot != [] && forall j | 0 <= j < |snapshot| :: snapshot[j] in Holders(c, e) {
      assert snapshot[0] in Holders(c, e);
    }
  }
}
