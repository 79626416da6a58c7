/**
 * The host program's sample table: rows of a timestamp and six channel
 * readings, the zero-filled seed it starts from, and what a `GET` payload
 * decodes to.
 */
module Acquisition {

  /** The six thermocouple readings T1..T6 of one row. */
  datatype Channels = Channels(t1: real, t2: real, t3: real, t4: real, t5: real, t6: real)

  const Zero := Channels(0.0, 0.0, 0.0, 0.0, 0.0, 0.0)

  /** Substituted for a reply that is not JSON. */
  const Sentinel := Channels(-1.0, -1.0, -1.0, -1.0, -1.0, -1.0)

  datatype Row = Row(time: int, temps: Channels)

  /**
   * What `json.loads` makes of a reply: not JSON at all (a `ValueError`),
   * an object (whose T1..T6 become the readings), or some other JSON value.
   */
  datatype Json = Malformed | Object(temps: Channels) | NotAnObject

  /** numpy's `arange(start, stop, step)` for integers and a positive step. */
  function Arange(start: int, stop: int, step: int): seq<int>
    requires step > 0
    decreases stop - start
  {
    if start >= stop then [] else [start] + Arange(start + step, stop, step)
  }

  lemma {:induction false} ArangeSteps(a: int, step: int, m: nat)
    requires step > 0
    ensures var r := Arange(a, a + m * step, step);
      |r| == m && forall k :: 0 <= k < m ==> r[k] == a + k * step
    decreases m
  {
    if m > 0 {
      assert a + m * step == (a + step) + (m - 1) * step;
      ArangeSteps(a + step, step, m - 1);
      var r := Arange(a, a + m * step, step);
      var r' := Arange(a + step, (a + step) + (m - 1) * step, step);
      assert r == [a] + r';
      forall k | 0 <= k < m
        ensures r[k] == a + k * step
      {
        if k > 0 {
          assert r[k] == r'[k - 1];
          assert (a + step) + (k - 1) * step == a + k * step;
        }
      }
    }
  }

  /**
   * The table `reset_table_data` builds: times `arange(-n*rate, rate, rate)`,
   * every reading zero.
   */
  function SeedTable(n: nat, rate: int): (rows: seq<Row>)
    requires rate > 0
    ensures |rows| == n + 1
    ensures forall k :: 0 <= k < |rows| ==> rows[k].time == (k - n) * rate && rows[k].temps == Zero
  {
    var times := Arange(0 - n * rate, rate, rate);
    assert 0 - n * rate + (n + 1) * rate == rate;
    ArangeSteps(0 - n * rate, rate, n + 1);
    assert forall k :: 0 <= k < |times| ==> times[k] == (k - n) * rate by {
      forall k | 0 <= k < |times| ensures times[k] == (k - n) * rate {
        assert 0 - n * rate + k * rate == (k - n) * rate;
      }
    }
    seq(|times|, k requires 0 <= k < |times| => Row(times[k], Zero))
  }

  /** Consecutive rows are exactly `rate` apart. */
  ghost predicate EvenlySpaced(rows: seq<Row>, rate: int)
  {
    forall i :: 0 <= i < |rows| - 1 ==> rows[i + 1].time == rows[i].time + rate
  }

  /** Times strictly increase along the table. */
  ghost predicate Increasing(rows: seq<Row>)
  {
    forall i :: 0 <= i < |rows| - 1 ==> rows[i].time < rows[i + 1].time
  }

  /** The seed is evenly spaced, ends at time 0 and starts at -n*rate. */
  lemma SeedTableSpacing(n: nat, rate: int)
    requires rate > 0
    ensures var rows := SeedTable(n, rate);
      EvenlySpaced(rows, rate) && Increasing(rows)
      && rows[0].time == 0 - n * rate && rows[n].time == 0
  {
    var rows := SeedTable(n, rate);
    forall i | 0 <= i < |rows| - 1
      ensures rows[i + 1].time == rows[i].time + rate
    {
      assert (i + 1 - n) * rate == (i - n) * rate + rate;
    }
  }

  /** Appending a row `rate` after the last keeps the table evenly spaced and increasing. */
  lemma AppendKeepsSpacing(rows: seq<Row>, rate: int, temps: Channels)
    requires |rows| >= 1
    ensures var rows' := rows + [Row(rows[|rows| - 1].time + rate, temps)];
      (EvenlySpaced(rows, rate) ==> EvenlySpaced(rows', rate))
      && (Increasing(rows) && rate > 0 ==> Increasing(rows'))
  {
  }
}
