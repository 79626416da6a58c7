/**
 * Firmware side: the MMAX6675 driver that reads six MAX6675 thermocouple
 * converters and keeps their measurements in a bounded FIFO queue until the
 * host asks for them. The SPI bus and the chip-select pins are left out: the
 * two bytes each sensor shifts out are parameters.
 */
module MultimaxSpi {
  import opened Wrappers
  import opened Text

  /** One converted channel: quarter degrees Celsius, or the open-thermocouple case. */
  datatype Reading = Quarters(q: nat) | NoThermocouple

  /** The `measure` struct: channels T1..T6. */
  datatype Measure = Measure(t1: Reading, t2: Reading, t3: Reading, t4: Reading, t5: Reading, t6: Reading)

  /** The largest capacity `resize_queue` accepts. */
  const MaxQueueItems := 40

  /** A byte shifted out of a sensor over SPI. */
  type Byte = x: int | 0 <= x < 0x100

  /** A `uint16_t` word. */
  type Word = x: int | 0 <= x < 0x1_0000

  /**
   * `vals[i] = hi; vals[i] <<= 8; vals[i] |= lo`: the 16-bit word a sensor
   * sends, high byte first. The shift cannot overflow 16 bits and the two
   * bytes occupy disjoint bits, so the `|` is a sum.
   */
  function RawWord(hi: Byte, lo: Byte): (w: Word)
    ensures w / 0x100 == hi && w % 0x100 == lo
  {
    hi * 0x100 + lo
  }

  /** `raw & 0x4 != 0`: bit 2 of the word. */
  predicate OpenBit(raw: Word)
  {
    (raw / 4) % 2 == 1
  }

  /**
   * Bit 2 of the word flags an open thermocouple; otherwise `raw >> 3`, the
   * word without its three low bits, is the temperature in quarter degrees.
   */
  function Convert(raw: Word): (r: Reading)
    ensures r.NoThermocouple? <==> OpenBit(raw)
    ensures r.Quarters? ==> r.q < 0x2000 && r.q * 8 <= raw < r.q * 8 + 8
  {
    if OpenBit(raw) then NoThermocouple else Quarters(raw / 8)
  }

  /**
   * Read from the two bytes: the open flag is bit 2 of the low byte, and the
   * temperature is the high byte's eight bits above the low byte's top five.
   */
  lemma {:induction false} ConvertBytes(hi: Byte, lo: Byte)
    ensures Convert(RawWord(hi, lo)).NoThermocouple? <==> OpenBit(lo)
    ensures Convert(RawWord(hi, lo)).Quarters? ==> Convert(RawWord(hi, lo)).q == hi * 32 + lo / 8
  {
    var w := RawWord(hi, lo);
    assert w / 4 == hi * 64 + lo / 4;
    assert (hi * 64 + lo / 4) % 2 == (lo / 4) % 2;
    assert w / 8 == hi * 32 + lo / 8;
  }

  /** The measurement the six sensors' bytes describe. */
  function Decode(hi: seq<Byte>, lo: seq<Byte>): Measure
    requires |hi| == 6 && |lo| == 6
  {
    Measure(
      Convert(RawWord(hi[0], lo[0])), Convert(RawWord(hi[1], lo[1])),
      Convert(RawWord(hi[2], lo[2])), Convert(RawWord(hi[3], lo[3])),
      Convert(RawWord(hi[4], lo[4])), Convert(RawWord(hi[5], lo[5])))
  }

  /**
   * The message `get_measurements` builds; `render` stands for Arduino's
   * `String(float)` of a reading.
   */
  function MeasurementJson(m: Measure, render: Reading -> string): string
  {
    "{\"T1\":" + render(m.t1) + ","
    + "\"T2\":" + render(m.t2) + ","
    + "\"T3\":" + render(m.t3) + ","
    + "\"T4\":" + render(m.t4) + ","
    + "\"T5\":" + render(m.t5) + ","
    + "\"T6\":" + render(m.t6) + "}"
  }

  /** The `"Tn":value` members of the message, T1 first. */
  function Fields(m: Measure, render: Reading -> string): seq<string>
  {
    ["\"T1\":" + render(m.t1), "\"T2\":" + render(m.t2), "\"T3\":" + render(m.t3),
     "\"T4\":" + render(m.t4), "\"T5\":" + render(m.t5), "\"T6\":" + render(m.t6)]
  }

  lemma Regroup(k1: string, r1: string, k2: string, r2: string, k3: string, r3: string,
                k4: string, r4: string, k5: string, r5: string, k6: string, r6: string)
    ensures "{" + k1 + r1 + "," + k2 + r2 + "," + k3 + r3 + "," + k4 + r4 + "," + k5 + r5 + "," + k6 + r6 + "}"
         == "{" + ((k1 + r1) + "," + (k2 + r2) + "," + (k3 + r3) + "," + (k4 + r4) + "," + (k5 + r5) + "," + (k6 + r6)) + "}"
  {
  }

  lemma JoinSix(a: string, b: string, c: string, d: string, e: string, g: string)
    ensures Join([a, b, c, d, e, g], ',') == a + "," + b + "," + c + "," + d + "," + e + "," + g
  {
    var f := [a, b, c, d, e, g];
    assert f[1..] == [b, c, d, e, g];
    assert f[1..][1..] == [c, d, e, g];
    assert [c, d, e, g][1..] == [d, e, g];
    assert [d, e, g][1..] == [e, g];
    assert [e, g][1..] == [g];
    assert Join([e, g], ',') == e + "," + g;
    assert Join([d, e, g], ',') == d + "," + (e + "," + g);
    assert Join([c, d, e, g], ',') == c + "," + (d + "," + (e + "," + g));
    assert Join([b, c, d, e, g], ',') == b + "," + (c + "," + (d + "," + (e + "," + g)));
  }

  /**
   * The message is a brace-delimited object whose comma-separated members are
   * T1..T6 in that order, provided no rendered value holds a comma.
   */
  lemma MeasurementJsonFields(m: Measure, render: Reading -> string)
    requires forall r :: ',' !in render(r)
    ensures var s := MeasurementJson(m, render);
      |s| >= 2 && s[0] == '{' && s[|s| - 1] == '}'
      && Split(s[1..|s| - 1], ',') == Fields(m, render)
  {
    var f := Fields(m, render);
    var inner := f[0] + "," + f[1] + "," + f[2] + "," + f[3] + "," + f[4] + "," + f[5];
    var s := MeasurementJson(m, render);
    assert "{\"T1\":" == "{" + "\"T1\":";
    Regroup("\"T1\":", render(m.t1), "\"T2\":", render(m.t2), "\"T3\":", render(m.t3),
            "\"T4\":", render(m.t4), "\"T5\":", render(m.t5), "\"T6\":", render(m.t6));
    assert s == "{" + inner + "}";
    JoinSix(f[0], f[1], f[2], f[3], f[4], f[5]);
    assert s[1..|s| - 1] == inner;
    assert forall i :: 0 <= i < |f| ==> ',' !in f[i] by {
      assert ',' !in render(m.t1) && ',' !in render(m.t2) && ',' !in render(m.t3);
      assert ',' !in render(m.t4) && ',' !in render(m.t5) && ',' !in render(m.t6);
    }
    SplitJoin(f, ',');
  }

  class MMAX6675 {
    /** The `dataQueue` contents, oldest first, and its capacity. */
    var dataQueue: seq<Measure>
    var maxItems: nat

    ghost predicate Valid()
      reads this
    {
      |dataQueue| <= maxItems
    }

    constructor (maxItems: nat)
      ensures Valid() && dataQueue == [] && this.maxItems == maxItems
    {
      dataQueue := [];
      this.maxItems := maxItems;
    }

    /**
     * `regTemperatures`: decode the six sensors' words and enqueue the
     * measurement unless the queue is full; 1 when registered, 0 when full.
     */
    method RegTemperatures(hi: seq<Byte>, lo: seq<Byte>) returns (registered: int)
      requires Valid() && |hi| == 6 && |lo| == 6
      modifies this`dataQueue
      ensures Valid()
      ensures registered == (if |old(dataQueue)| < maxItems then 1 else 0)
      ensures dataQueue == if registered == 1 then old(dataQueue) + [Decode(hi, lo)] else old(dataQueue)
    {
      var vals := new Word[6];
      for i := 0 to 6
        modifies vals
        invariant forall j :: 0 <= j < i ==> vals[j] == RawWord(hi[j], lo[j])
      {
        vals[i] := hi[i];
        vals[i] := vals[i] * 0x100;
        vals[i] := vals[i] + lo[i];
      }
      var outVals := new Reading[6](_ => NoThermocouple);
      for i := 0 to 6
        modifies outVals
        invariant forall j :: 0 <= j < i ==> outVals[j] == Convert(vals[j])
      {
        outVals[i] := Convert(vals[i]);
      }
      if |dataQueue| < maxItems {
        dataQueue := dataQueue + [Measure(outVals[0], outVals[1], outVals[2], outVals[3], outVals[4], outVals[5])];
        registered := 1;
      } else {
        registered := 0;
      }
    }

    /**
     * `get_measurements`: dequeue the oldest measurement and render it as
     * JSON. On an empty queue the library's `dequeue` is not modelled: the
     * model yields None and leaves the queue as it is.
     */
    method GetMeasurements(render: Reading -> string) returns (message: Option<string>)
      requires Valid()
      modifies this`dataQueue
      ensures Valid()
      ensures old(dataQueue) == [] ==> message == None && dataQueue == []
      ensures old(dataQueue) != [] ==>
        message == Some(MeasurementJson(old(dataQueue)[0], render)) && dataQueue == old(dataQueue)[1..]
    {
      if dataQueue == [] {
        return None;
      }
      var data := dataQueue[0];
      dataQueue := dataQueue[1..];
      message := Some(MeasurementJson(data, render));
    }

    /** `clear_queue`: dequeue one element and recurse until the queue is empty. */
    method ClearQueue()
      requires Valid()
      modifies this`dataQueue
      ensures Valid() && dataQueue == []
      decreases |dataQueue|
    {
      if dataQueue != [] {
        dataQueue := dataQueue[1..];
        ClearQueue();
      }
    }

    /**
     * `resize_queue`: accepted only when every queued element fits and the
     * new capacity is at most 40; the elements move out to an auxiliary queue
     * sized to hold them exactly and back into a fresh queue of the new capacity.
     */
    method ResizeQueue(newMax: nat) returns (ok: bool)
      requires Valid()
      modifies this`dataQueue, this`maxItems
      ensures Valid()
      ensures ok <==> |old(dataQueue)| <= newMax <= MaxQueueItems
      ensures ok ==> dataQueue == old(dataQueue) && maxItems == newMax
      ensures !ok ==> dataQueue == old(dataQueue) && maxItems == old(maxItems)
    {
      if newMax >= |dataQueue| && newMax <= MaxQueueItems {
        var aux: seq<Measure> := [];
        var auxMax := |dataQueue|;
        while dataQueue != []
          invariant aux + dataQueue == old(dataQueue)
          invariant auxMax == |old(dataQueue)|
          decreases |dataQueue|
        {
          var x := dataQueue[0];
          dataQueue := dataQueue[1..];
          if |aux| < auxMax {
            aux := aux + [x];
          }
        }
        dataQueue := [];
        maxItems := newMax;
        while aux != []
          invariant dataQueue + aux == old(dataQueue)
          invariant maxItems == newMax >= |old(dataQueue)|
          decreases |aux|
        {
          var x := aux[0];
          aux := aux[1..];
          if |dataQueue| < maxItems {
            dataQueue := dataQueue + [x];
          }
        }
        ok := true;
      } else {
        ok := false;
      }
    }
  }
}
