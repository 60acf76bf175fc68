/**
 * The two ORM models of app/models/letter.py as values: a status-history entry
 * (`LetterStatusHistory`) and the JSON views that `serialize` builds of a letter
 * and of its history.
 *
 * A timestamp is a `nat`. `strftime("%d.%m.%Y, %H:%M:%S")` is the parameter
 * `fmt`; the history is sorted on the string it produces, so the order is that
 * of Python's string comparison, which is lexicographic with the DAY first and
 * therefore not chronological.
 */
module Letters {
  import opened Options

  type Timestamp = nat

  /** The column default of `LetterStatusHistory.status`. */
  const DefaultStatus: string := "New"

  /** One row of `letter_status_history` belonging to a letter. */
  datatype StatusEntry = StatusEntry(status: string, lastUpdate: Timestamp)

  /**
   * A new row stamped `at`. A status that is not given (or given as `None`, which
   * the ORM leaves out of the INSERT) takes the column default, so a stored
   * status is never null.
   */
  function NewEntry(status: Option<string>, at: Timestamp): (e: StatusEntry)
    ensures status.None? ==> e.status == DefaultStatus
    ensures status.Some? ==> e.status == status.value
    ensures e.lastUpdate == at
  {
    StatusEntry(if status.Some? then status.value else DefaultStatus, at)
  }

  /** The declared uniqueness of (letter_id, last_update), within one letter's rows. */
  ghost predicate DistinctTimestamps(h: seq<StatusEntry>)
  {
    forall i, j :: 0 <= i < j < |h| ==> h[i].lastUpdate != h[j].lastUpdate
  }

  // ---------------------------------------------------------------------------
  // Serialisation

  /** `{"status": ..., "modification_date": ...}`: exactly these two members. */
  datatype SerializedEntry = SerializedEntry(status: string, modificationDate: string)

  /** `{"tracking_number": ..., "status_history": [...]}`. */
  datatype SerializedLetter = SerializedLetter(trackingNumber: string, statusHistory: seq<SerializedEntry>)

  /** `LetterStatusHistory.serialize`. */
  function SerializeEntry(e: StatusEntry, fmt: Timestamp -> string): (r: SerializedEntry)
    ensures r.status == e.status
    ensures r.modificationDate == fmt(e.lastUpdate)
  {
    SerializedEntry(e.status, fmt(e.lastUpdate))
  }

  /** The list comprehension over a letter's rows, in their stored order. */
  function SerializeAll(h: seq<StatusEntry>, fmt: Timestamp -> string): (r: seq<SerializedEntry>)
    ensures |r| == |h|
    ensures forall i :: 0 <= i < |h| ==> r[i] == SerializeEntry(h[i], fmt)
  {
    seq(|h|, i requires 0 <= i < |h| => SerializeEntry(h[i], fmt))
  }

  // ---------------------------------------------------------------------------
  // Python's ordering of strings: by code point, a proper prefix first

  predicate LexLe(a: string, b: string)
  {
    |a| == 0 || (|b| > 0 && (a[0] < b[0] || (a[0] == b[0] && LexLe(a[1..], b[1..]))))
  }

  lemma {:induction false} LexLeReflexive(a: string)
    ensures LexLe(a, a)
  {
    if |a| > 0 {
      LexLeReflexive(a[1..]);
    }
  }

  lemma {:induction false} LexLeTotal(a: string, b: string)
    ensures LexLe(a, b) || LexLe(b, a)
  {
    if |a| > 0 && |b| > 0 && a[0] == b[0] {
      LexLeTotal(a[1..], b[1..]);
    }
  }

  lemma {:induction false} LexLeTransitive(a: string, b: string, c: string)
    requires LexLe(a, b) && LexLe(b, c)
    ensures LexLe(a, c)
  {
    if |a| > 0 && a[0] == b[0] && b[0] == c[0] {
      LexLeTransitive(a[1..], b[1..], c[1..]);
    }
  }

  lemma {:induction false} LexLeAntisymmetric(a: string, b: string)
    requires LexLe(a, b) && LexLe(b, a)
    ensures a == b
  {
    if |a| > 0 {
      LexLeAntisymmetric(a[1..], b[1..]);
      assert a == [a[0]] + a[1..] && b == [b[0]] + b[1..];
    }
  }

  // ---------------------------------------------------------------------------
  // `sorted(..., key=modification_date, reverse=True)`: a stable descending sort

  /** Non-increasing by the `modification_date` string. */
  ghost predicate SortedDesc(s: seq<SerializedEntry>)
  {
    forall i, j :: 0 <= i < j < |s| ==> LexLe(s[j].modificationDate, s[i].modificationDate)
  }

  /**
   * Puts `x` in front of the first element whose key is not greater than its own,
   * so `x` stays ahead of the equal keys that came after it in the input.
   */
  function InsertDesc(x: SerializedEntry, s: seq<SerializedEntry>): (r: seq<SerializedEntry>)
    ensures |r| == |s| + 1
    ensures multiset(r) == multiset(s) + multiset{x}
  {
    if s == [] then [x]
    else if LexLe(s[0].modificationDate, x.modificationDate) then [x] + s
    else
      assert s == [s[0]] + s[1..];
      [s[0]] + InsertDesc(x, s[1..])
  }

  lemma {:induction false} InsertDescSorted(x: SerializedEntry, s: seq<SerializedEntry>)
    requires SortedDesc(s)
    ensures SortedDesc(InsertDesc(x, s))
  {
    if s == [] {
    } else if LexLe(s[0].modificationDate, x.modificationDate) {
      var r := [x] + s;
      forall i, j | 0 <= i < j < |r|
        ensures LexLe(r[j].modificationDate, r[i].modificationDate)
      {
        if i == 0 {
          if j > 1 {
            LexLeTransitive(s[j - 1].modificationDate, s[0].modificationDate, x.modificationDate);
          }
        }
      }
    } else {
      LexLeTotal(s[0].modificationDate, x.modificationDate);
      var tail := InsertDesc(x, s[1..]);
      InsertDescSorted(x, s[1..]);
      var r := [s[0]] + tail;
      forall j | 0 < j < |r|
        ensures LexLe(r[j].modificationDate, s[0].modificationDate)
      {
        var y := r[j];
        assert y in multiset(tail);
        assert y == x || y in multiset(s[1..]);
        if y != x {
          var k :| 0 <= k < |s[1..]| && s[1..][k] == y;
          assert s[k + 1] == y;
        }
      }
    }
  }

  function SortDesc(s: seq<SerializedEntry>): (r: seq<SerializedEntry>)
    ensures |r| == |s|
    ensures multiset(r) == multiset(s)
    ensures SortedDesc(r)
  {
    if s == [] then []
    else
      assert s == [s[0]] + s[1..];
      var rest := SortDesc(s[1..]);
      InsertDescSorted(s[0], rest);
      InsertDesc(s[0], rest)
  }

  /**
   * `Letter.serialize`: the tracking number and the serialised rows, sorted
   * non-increasingly on their `modification_date` string.
   */
  function Serialize(trackingNumber: string, h: seq<StatusEntry>, fmt: Timestamp -> string): (r: SerializedLetter)
    ensures r.trackingNumber == trackingNumber
    ensures |r.statusHistory| == |h|
    ensures multiset(r.statusHistory) == multiset(SerializeAll(h, fmt))
    ensures SortedDesc(r.statusHistory)
  {
    SerializedLetter(trackingNumber, SortDesc(SerializeAll(h, fmt)))
  }

  /** Every serialised row is the serialisation of one of the letter's rows, and conversely. */
  lemma SerializeCoversHistory(trackingNumber: string, h: seq<StatusEntry>, fmt: Timestamp -> string)
    ensures forall e :: e in h ==> SerializeEntry(e, fmt) in Serialize(trackingNumber, h, fmt).statusHistory
    ensures forall v :: v in Serialize(trackingNumber, h, fmt).statusHistory ==>
              exists e :: e in h && v == SerializeEntry(e, fmt)
  {
    var all := SerializeAll(h, fmt);
    var out := Serialize(trackingNumber, h, fmt).statusHistory;
    forall e | e in h
      ensures SerializeEntry(e, fmt) in out
    {
      var i :| 0 <= i < |h| && h[i] == e;
      assert all[i] in multiset(all);
    }
    forall v | v in out
      ensures exists e :: e in h && v == SerializeEntry(e, fmt)
    {
      assert v in multiset(all);
      var i :| 0 <= i < |all| && all[i] == v;
      assert h[i] in h;
    }
  }

  /**
   * The key is not chronological: with the day first, 2 January sorts above
   * 1 February of the same year, so the older row is listed first.
   */
  lemma DayFirstKeyIsNotNewestFirst()
    ensures var fmt := (t: Timestamp) => if t == 1 then "02.01.2021, 00:00:00" else "01.02.2021, 00:00:00";
            Serialize("42", [StatusEntry("New", 1), StatusEntry("in transit", 2)], fmt).statusHistory
              == [SerializedEntry("New", "02.01.2021, 00:00:00"), SerializedEntry("in transit", "01.02.2021, 00:00:00")]
  {
    var jan := "02.01.2021, 00:00:00";
    var feb := "01.02.2021, 00:00:00";
    assert jan[0] == feb[0] && jan[1] > feb[1];
    assert !LexLe(jan, feb);
  }
}
