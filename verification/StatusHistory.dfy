// The bounded history kept for each kind of status item: at most five reports, the repeats of the
// latest one collapsed into it.
module StatusHistory {

  const MAX_ITEM := 5

  // `compared` is what the item's `equals` looks at, `rest` what it does not; `ignored` is its
  // `ignore()`.
  datatype Item = Item(compared: int, rest: int, utcReported: nat, ignored: bool)

  datatype Report = Reported(item: Item) | Defaulted(item: Item)

  // ---- the unbounded log ----

  predicate Repeats(log: seq<Item>, item: Item) {
    log != [] && log[|log| - 1].compared == item.compared
  }

  function Logged(log: seq<Item>, r: Report): seq<Item> {
    var item := r.item;
    if r.Defaulted? then log + [item]
    else if item.ignored then log
    else if Repeats(log, item) then log[|log| - 1 := log[|log| - 1].(utcReported := item.utcReported)]
    else log + [item]
  }

  function Log(reports: seq<Report>): seq<Item> {
    if reports == [] then [] else Logged(Log(reports[..|reports| - 1]), reports[|reports| - 1])
  }

  function Newest(log: seq<Item>): seq<Item> {
    if |log| <= MAX_ITEM then log else log[|log| - MAX_ITEM..]
  }

  // ---- the history as it is updated ----

  function Pushed(history: seq<Item>, item: Item): seq<Item> {
    var longer := history + [item];
    if |longer| > MAX_ITEM then longer[1..] else longer
  }

  function Stored(history: seq<Item>, r: Report): seq<Item> {
    var item := r.item;
    if r.Defaulted? then Pushed(history, item)
    else if item.ignored then history
    else if Repeats(history, item) then
      history[|history| - 1 := history[|history| - 1].(utcReported := item.utcReported)]
    else Pushed(history, item)
  }

  function History(reports: seq<Report>): seq<Item> {
    if reports == [] then [] else Stored(History(reports[..|reports| - 1]), reports[|reports| - 1])
  }

  lemma NewestOfMore(log: seq<Item>, item: Item)
    ensures Newest(log + [item]) == Pushed(Newest(log), item)
  {
  }

  lemma NewestOfUpdated(log: seq<Item>, item: Item)
    requires log != []
    ensures Newest(log) != [] && Newest(log)[|Newest(log)| - 1] == log[|log| - 1]
    ensures Newest(log[|log| - 1 := item]) == Newest(log)[|Newest(log)| - 1 := item]
  {
  }

  lemma StoredIsNewest(log: seq<Item>, r: Report)
    ensures Stored(Newest(log), r) == Newest(Logged(log, r))
    ensures Repeats(Newest(log), r.item) == Repeats(log, r.item)
  {
    NewestOfMore(log, r.item);
    if log != [] {
      NewestOfUpdated(log, log[|log| - 1].(utcReported := r.item.utcReported));
    }
  }

  // For every stream of reports the history is the newest five entries of the unbounded log.
  lemma {:induction false} HistoryIsNewest(reports: seq<Report>)
    ensures History(reports) == Newest(Log(reports))
    decreases |reports|
  {
    if reports != [] {
      var front := reports[..|reports| - 1];
      HistoryIsNewest(front);
      StoredIsNewest(Log(front), reports[|reports| - 1]);
    }
  }

  // ---- what the log means ----

  predicate Counts(r: Report) {
    r.Defaulted? || !r.item.ignored
  }

  // The last report that is not ignored.
  function Latest(reports: seq<Report>): (r: Report)
    requires exists r :: r in reports && Counts(r)
    ensures r in reports && Counts(r)
    decreases |reports|
  {
    var last := reports[|reports| - 1];
    if Counts(last) then last
    else
      assert forall r :: r in reports <==> r in reports[..|reports| - 1] || r == last;
      Latest(reports[..|reports| - 1])
  }

  // The entry clients read tells what the latest report said and when, however many repeats of it and
  // ignored ones there were.
  lemma {:induction false} LatestIsKept(reports: seq<Report>)
    ensures History(reports) == [] <==> forall r :: r in reports ==> !Counts(r)
    ensures History(reports) != [] ==>
              var entry := History(reports)[|History(reports)| - 1];
              (exists r :: r in reports && Counts(r)) &&
              entry.compared == Latest(reports).item.compared && entry.utcReported == Latest(reports).item.utcReported
    decreases |reports|
  {
    if reports != [] {
      var front, last := reports[..|reports| - 1], reports[|reports| - 1];
      LatestIsKept(front);
      assert forall r :: r in reports <==> r in front || r == last;
      assert last in reports;
    }
  }

  // ---- the entries, report by report ----

  // The last report begins an entry: a default always does, another one unless it is ignored or says the
  // same as the last report that counted.
  predicate Begins(reports: seq<Report>)
    requires reports != []
  {
    var front, last := reports[..|reports| - 1], reports[|reports| - 1];
    || last.Defaulted?
    || (!last.item.ignored &&
        ((forall r :: r in front ==> !Counts(r)) || Latest(front).item.compared != last.item.compared))
  }

  // The positions of the reports that begin an entry.
  function Beginnings(reports: seq<Report>): seq<nat>
    decreases |reports|
  {
    if reports == [] then []
    else
      var n := |reports| - 1;
      Beginnings(reports[..n]) + if Begins(reports) then [n] else []
  }

  // The reports an entry is made of: from its beginning up to the next one's.
  function Until(reports: seq<Report>, j: nat): nat
    requires j < |Beginnings(reports)|
  {
    var b := Beginnings(reports);
    if j + 1 < |b| then b[j + 1] else |reports|
  }

  // Entry `e` holds what its first report said, and the time of the last one that counted.
  predicate Tells(e: Item, reports: seq<Report>, from: nat, until: nat) {
    && from < until <= |reports| && (exists r :: r in reports[..until] && Counts(r))
    && e == reports[from].item.(utcReported := Latest(reports[..until]).item.utcReported)
  }

  lemma {:induction false} LogLatest(reports: seq<Report>)
    ensures var log := Log(reports);
            && (log == [] <==> forall r :: r in reports ==> !Counts(r))
            && (log != [] ==> (exists r :: r in reports && Counts(r)) &&
                              log[|log| - 1].compared == Latest(reports).item.compared)
    decreases |reports|
  {
    if reports != [] {
      var front, last := reports[..|reports| - 1], reports[|reports| - 1];
      LogLatest(front);
      assert forall r :: r in reports <==> r in front || r == last;
      assert last in reports;
    }
  }

  lemma TellsLater(e: Item, front: seq<Report>, reports: seq<Report>, from: nat, until: nat)
    requires |front| <= |reports| && reports[..|front|] == front && Tells(e, front, from, until)
    ensures Tells(e, reports, from, until)
  {
    assert reports[from] == front[from] && reports[..until] == front[..until];
  }

  // A report that begins no entry leaves the log, or its time to the last entry.
  lemma GroupGoesOn(reports: seq<Report>)
    requires reports != [] && !Begins(reports)
    ensures var front, last := reports[..|reports| - 1], reports[|reports| - 1];
            var log := Log(front);
            if Counts(last) then
              && log != [] && Log(reports) == log[|log| - 1 := log[|log| - 1].(utcReported := last.item.utcReported)]
              && Latest(reports) == last
            else
              && Log(reports) == log
              && (forall r :: r in front && Counts(r) ==> Latest(reports) == Latest(front))
  {
    var front, last := reports[..|reports| - 1], reports[|reports| - 1];
    LogLatest(front);
    assert forall r :: r in reports <==> r in front || r == last;
  }

  lemma NewEntry(reports: seq<Report>)
    requires reports != [] && Begins(reports)
    ensures var front, last := reports[..|reports| - 1], reports[|reports| - 1];
            Log(reports) == Log(front) + [last.item] && Tells(last.item, reports, |front|, |reports|)
  {
    LogLatest(reports[..|reports| - 1]);
    assert reports[..|reports|] == reports;
    assert reports[|reports| - 1] in reports;
  }

  lemma LastEntryGoesOn(e: Item, reports: seq<Report>, from: nat)
    requires reports != [] && !Begins(reports)
    requires var n := |reports| - 1; Log(reports[..n]) != [] && Tells(e, reports[..n], from, n)
    ensures var last := reports[|reports| - 1];
            Tells(if Counts(last) then e.(utcReported := last.item.utcReported) else e, reports, from, |reports|)
  {
    var n := |reports| - 1;
    GroupGoesOn(reports);
    assert reports[..n][..n] == reports[..n] && reports[..|reports|] == reports && reports[n] in reports;
    assert reports[from] == reports[..n][from];
    assert forall r :: r in reports[..n] ==> r in reports;
  }

  // The log has one entry for every report that begins one, and each tells what its reports said: for
  // every stream, defaults and ignored reports included.
  lemma {:induction false} EntriesTell(reports: seq<Report>)
    ensures |Log(reports)| == |Beginnings(reports)|
    ensures forall j :: 0 <= j < |Log(reports)| ==>
              Tells(Log(reports)[j], reports, Beginnings(reports)[j], Until(reports, j))
    decreases |reports|
  {
    if reports != [] {
      var n := |reports| - 1;
      var front := reports[..n];
      EntriesTell(front);
      if Begins(reports) {
        NewEntry(reports);
      } else {
        GroupGoesOn(reports);
      }
      forall j | 0 <= j < |Log(front)|
        ensures Tells(Log(reports)[j], reports, Beginnings(reports)[j], Until(reports, j))
      {
        OldEntry(reports, j);
      }
    }
  }

  lemma OldEntry(reports: seq<Report>, j: nat)
    requires reports != [] && j < |Beginnings(reports[..|reports| - 1])|
    requires var front := reports[..|reports| - 1];
             |Log(front)| == |Beginnings(front)| && Tells(Log(front)[j], front, Beginnings(front)[j], Until(front, j))
    ensures j < |Log(reports)| && Tells(Log(reports)[j], reports, Beginnings(reports)[j], Until(reports, j))
  {
    var front := reports[..|reports| - 1];
    if Begins(reports) {
      NewEntry(reports);
      TellsLater(Log(front)[j], front, reports, Beginnings(front)[j], Until(front, j));
    } else {
      GroupGoesOn(reports);
      if j + 1 < |Beginnings(front)| {
        TellsLater(Log(front)[j], front, reports, Beginnings(front)[j], Until(front, j));
      } else {
        LastEntryGoesOn(Log(front)[j], reports, Beginnings(front)[j]);
      }
    }
  }

  // The history is what the newest five of those reports began.
  lemma HistoryTells(reports: seq<Report>, j: nat)
    requires j < |History(reports)|
    ensures var b, h := Beginnings(reports), |History(reports)|;
            && h == (if |b| < 5 then |b| else 5)
            && Tells(History(reports)[j], reports, b[|b| - h + j], Until(reports, |b| - h + j))
  {
    HistoryIsNewest(reports);
    EntriesTell(reports);
  }

  predicate NoRepeats(items: seq<Item>) {
    forall i :: 0 <= i < |items| - 1 ==> items[i].compared != items[i + 1].compared
  }

  lemma StoredDiffer(history: seq<Item>, r: Report)
    requires r.Reported? && NoRepeats(history) && forall item :: item in history ==> !item.ignored
    ensures NoRepeats(Stored(history, r)) && forall item :: item in Stored(history, r) ==> !item.ignored
  {
  }

  // Without defaults no two neighbouring entries are equal and none is an ignored item.
  lemma {:induction false} EntriesDiffer(reports: seq<Report>)
    requires forall r :: r in reports ==> r.Reported?
    ensures NoRepeats(History(reports)) && forall item :: item in History(reports) ==> !item.ignored
    decreases |reports|
  {
    if reports != [] {
      EntriesDiffer(reports[..|reports| - 1]);
      assert reports[|reports| - 1] in reports;
      StoredDiffer(History(reports[..|reports| - 1]), reports[|reports| - 1]);
    }
  }

  // ---- the history as it runs ----

  class SystemStatusReport {
    var items: seq<Item>

    constructor ()
      ensures items == History([])
    {
      items := [];
    }

    // The result says whether a new entry was made.
    method SetIteminReport(s: Item) returns (updated: bool)
      modifies this
      ensures items == Stored(old(items), Reported(s))
      ensures updated <==> !s.ignored && !Repeats(old(items), s)
    {
      if s.ignored {
        return false;
      }
      if items != [] && items[|items| - 1].compared == s.compared {
        items := items[|items| - 1 := items[|items| - 1].(utcReported := s.utcReported)];
        return false;
      }
      items := items + [s];
      if |items| > MAX_ITEM {
        items := items[1..];
      }
      return true;
    }

    method SetDefaultIteminReport(s: Item)
      modifies this
      ensures items == Stored(old(items), Defaulted(s))
    {
      items := items + [s];
      if |items| > MAX_ITEM {
        items := items[1..];
      }
    }

    method GetIteminReport() returns (reportout: seq<Item>)
      ensures reportout == if items == [] then [] else [items[|items| - 1]]
    {
      reportout := [];
      if |items| >= 1 {
        reportout := reportout + [items[|items| - 1]];
      }
    }
  }
}
