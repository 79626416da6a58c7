/**
 * The host program's device session (`MS_interface` without its widgets):
 * the confirmed streaming parameters and the proposal awaiting the device,
 * the sample table, the poll timer, the chosen serial settings, and the
 * port it talks through.
 */
module MsInterface {
  import opened Wrappers
  import opened Text
  import opened SerialLink
  import opened Protocol
  import opened Acquisition
  import opened SerialSettings

  /** The four streaming parameters, in the key order of `params_to_apply`. */
  datatype Params = Params(samplingRate: int, plottingRate: int, analysisTime: int, bufferSize: int)

  /** The keys of `params_to_apply`, in insertion order. */
  const ParamKeys: seq<string> := ["sampling_rate", "plotting_rate", "analysis_time", "buffer_size"]

  /** The three device-side handshakes of `apply_streaming_params`, in order. */
  function Steps(p: Params): seq<Step>
  {
    [Step(Encode(SetSampling(p.samplingRate)), SSOK, SSNOK),
     Step(Encode(SetAnalysis(p.analysisTime)), SAOK, SANOK),
     Step(Encode(SetBufferSize(p.bufferSize)), BSOK, BSNOK)]
  }

  /** The `changed` list after the handshakes; `plotting_rate` always counts as changed. */
  function ChangedFlags(answers: seq<Answer>): seq<bool>
  {
    [AnswerAt(answers, 0) == Accepted, true, AnswerAt(answers, 1) == Accepted, AnswerAt(answers, 2) == Accepted]
  }

  /**
   * With all three steps answered, the warning names exactly the parameters
   * whose step was refused, in key order; `plotting_rate` is never named.
   */
  lemma ReportedNames(answers: seq<Answer>)
    requires |answers| == 3 && NoAnswer !in answers
    ensures var r := Unapplied(ParamKeys, ChangedFlags(answers));
      && Subsequence(r, ParamKeys) && "plotting_rate" !in r
      && ("sampling_rate" in r <==> answers[0] == Rejected)
      && ("analysis_time" in r <==> answers[1] == Rejected)
      && ("buffer_size" in r <==> answers[2] == Rejected)
      && (r == [] <==> forall i :: 0 <= i < 3 ==> answers[i] == Accepted)
  {
    var c := ChangedFlags(answers);
    UnappliedSpec(ParamKeys, c);
    assert ParamKeys[0] == "sampling_rate" && !c[0] <==> answers[0] == Rejected;
    assert ParamKeys[2] == "analysis_time" && !c[2] <==> answers[1] == Rejected;
    assert ParamKeys[3] == "buffer_size" && !c[3] <==> answers[2] == Rejected;
  }

  lemma StepsFacts(replies: seq<string>, p: Params)
    ensures var steps := Steps(p);
      var h1 := Handshake(replies, steps[0].ok, steps[0].nok);
      var h2 := Handshake(h1.rest, steps[1].ok, steps[1].nok);
      var h3 := Handshake(h2.rest, steps[2].ok, steps[2].nok);
      var s1, s2, s3 := Repeat(steps[0].command, h1.sends), Repeat(steps[1].command, h2.sends), Repeat(steps[2].command, h3.sends);
      RunSteps(replies, steps) ==
        if h1.answer == NoAnswer then Negotiation([NoAnswer], s1, h1.rest)
        else if h2.answer == NoAnswer then Negotiation([h1.answer, NoAnswer], s1 + s2, h2.rest)
        else if h3.answer == NoAnswer then Negotiation([h1.answer, h2.answer, NoAnswer], s1 + s2 + s3, h3.rest)
        else Negotiation([h1.answer, h2.answer, h3.answer], s1 + s2 + s3, h3.rest)
  {
    var steps := Steps(p);
    RunThreeSteps(replies, steps[0], steps[1], steps[2]);
  }

  /** What one poll ended with: `update_data`'s return code, or an exception. */
  datatype Poll = Returned(code: int) | Raised

  /**
   * How `apply_streaming_params` ended: the port was closed, a handshake ran
   * out of replies before its answer (the program would resend for ever), or
   * all three steps were answered and these parameter names were not applied.
   */
  datatype ApplyOutcome = PortClosed | Stalled | Applied(notApplied: seq<string>)

  /** xs is ys with some elements left out (greedy matching). */
  predicate Subsequence<T(==)>(xs: seq<T>, ys: seq<T>)
    decreases |ys|
  {
    if xs == [] then true
    else if ys == [] then false
    else if xs[0] == ys[0] then Subsequence(xs[1..], ys[1..])
    else Subsequence(xs, ys[1..])
  }

  lemma {:induction false} SubsequenceOfTail<T>(xs: seq<T>, ys: seq<T>)
    requires ys != [] && Subsequence(xs, ys[1..])
    ensures Subsequence(xs, ys)
    decreases |xs| + |ys|
  {
    if xs != [] && xs[0] == ys[0] {
      SubsequenceDropHead(xs, ys[1..]);
    }
  }

  lemma {:induction false} SubsequenceDropHead<T>(xs: seq<T>, zs: seq<T>)
    requires xs != [] && Subsequence(xs, zs)
    ensures Subsequence(xs[1..], zs)
    decreases |xs| + |zs|
  {
    if xs[0] == zs[0] {
      SubsequenceOfTail(xs[1..], zs);
    } else {
      SubsequenceDropHead(xs, zs[1..]);
      SubsequenceOfTail(xs[1..], zs);
    }
  }

  /**
   * The keys whose flag is false, in key order: what the warning after
   * `apply_streaming_params` lists.
   */
  function Unapplied(keys: seq<string>, changed: seq<bool>): seq<string>
    requires |keys| == |changed|
  {
    if keys == [] then []
    else if changed[0] then Unapplied(keys[1..], changed[1..])
    else [keys[0]] + Unapplied(keys[1..], changed[1..])
  }

  /**
   * The report lists exactly the keys whose flag is false, in key order, and
   * is empty exactly when every flag is set.
   */
  lemma {:induction false} UnappliedSpec(keys: seq<string>, changed: seq<bool>)
    requires |keys| == |changed|
    ensures var r := Unapplied(keys, changed);
      && Subsequence(r, keys)
      && (forall k :: k in r <==> exists i :: 0 <= i < |keys| && keys[i] == k && !changed[i])
      && (r == [] <==> forall i :: 0 <= i < |changed| ==> changed[i])
  {
    if keys != [] {
      var rest := Unapplied(keys[1..], changed[1..]);
      UnappliedSpec(keys[1..], changed[1..]);
      assert forall k :: k in rest <==> exists i :: 1 <= i < |keys| && keys[i] == k && !changed[i] by {
        forall k | k in rest
          ensures exists i :: 1 <= i < |keys| && keys[i] == k && !changed[i]
        {
          var i :| 0 <= i < |keys| - 1 && keys[1..][i] == k && !changed[1..][i];
          assert keys[i + 1] == k && !changed[i + 1];
        }
        forall k | (exists i :: 1 <= i < |keys| && keys[i] == k && !changed[i])
          ensures k in rest
        {
          var i :| 1 <= i < |keys| && keys[i] == k && !changed[i];
          assert keys[1..][i - 1] == k && !changed[1..][i - 1];
        }
      }
      assert (forall i :: 1 <= i < |changed| ==> changed[i]) <==> (forall i :: 0 <= i < |changed| - 1 ==> changed[1..][i]) by {
        forall i | 0 <= i < |changed| - 1 ensures changed[1..][i] == changed[i + 1] { }
      }
      if changed[0] {
        SubsequenceOfTail(rest, keys);
      }
    }
  }

  lemma {:induction false} UnappliedSnoc(keys: seq<string>, changed: seq<bool>, k: string, c: bool)
    requires |keys| == |changed|
    ensures Unapplied(keys + [k], changed + [c]) == Unapplied(keys, changed) + (if c then [] else [k])
  {
    if keys != [] {
      assert (keys + [k])[1..] == keys[1..] + [k];
      assert (changed + [c])[1..] == changed[1..] + [c];
      UnappliedSnoc(keys[1..], changed[1..], k, c);
    }
  }

  /** The loop that collects the names of the parameters not changed. */
  method NotChangedNames(keys: seq<string>, changed: seq<bool>) returns (names: seq<string>)
    requires |keys| == |changed|
    ensures names == Unapplied(keys, changed)
  {
    names := [];
    for i := 0 to |keys|
      invariant names == Unapplied(keys[..i], changed[..i])
    {
      UnappliedSnoc(keys[..i], changed[..i], keys[i], changed[i]);
      assert keys[..i + 1] == keys[..i] + [keys[i]];
      assert changed[..i + 1] == changed[..i] + [changed[i]];
      if !changed[i] {
        names := names + [keys[i]];
      }
    }
    assert keys[..|keys|] == keys && changed[..|changed|] == changed;
  }

  /**
   * How a non-empty reply, as read by `json.loads`, changes the table and
   * what `update_data` returns: an object is stamped one sampling interval
   * after the last row and appended (1); text that is not JSON appends a
   * sentinel row at that time (-1); other JSON leaves the table alone (0).
   */
  predicate Stored(before: seq<Row>, after: seq<Row>, rate: int, reply: Json, code: int)
    requires |before| >= 1
  {
    var stamp := before[|before| - 1].time + rate;
    match reply
    case Object(temps) => code == 1 && after == before + [Row(stamp, temps)]
    case Malformed => code == -1 && after == before + [Row(stamp, Sentinel)]
    case NotAnObject => code == 0 && after == before
  }

  class Interface {
    const port: ScriptedPort
    /** `inital_data_size`: rows of zeros before time 0 in a fresh table. */
    const initialDataSize: nat
    /** `self.data`: the sample table, oldest row first. */
    var data: seq<Row>
    /** The confirmed `sampling_rate`, `plotting_rate`, `analysis_time`, `buffer_size`. */
    var confirmed: Params
    /** `params_to_apply`: the proposal the device has yet to accept. */
    var paramsToApply: Params
    /** The poll timer: whether it runs, and its interval in ms. */
    var timerActive: bool
    var timerInterval: int
    /** `serial_params`. */
    var serialParams: SerialParams

    /**
     * The table never empties and its times increase. Sampling rates are
     * taken to be positive: the parameters are positive integers by design,
     * though no code shown here checks the configuration or the dialog.
     */
    ghost predicate Valid()
      reads this
    {
      |data| >= 1 && Increasing(data) && confirmed.samplingRate > 0 && paramsToApply.samplingRate > 0
    }

    /**
     * Start-up: parameters from the configuration, a seeded table, timer
     * stopped, and the port, baud and data-bits comboboxes moved to their
     * configured indexes, with `ports` the devices the port listing found.
     */
    constructor (defaults: Params, initialDataSize: nat, port: ScriptedPort,
                 ports: seq<string>, comIndex: int, baudIndex: int, dataBitsIndex: int)
      requires defaults.samplingRate > 0
      ensures Valid()
      ensures this.port == port && this.initialDataSize == initialDataSize
      ensures confirmed == defaults && paramsToApply == defaults
      ensures data == SeedTable(initialDataSize, defaults.samplingRate)
      ensures !timerActive
      ensures serialParams == StartupSelection(ports, comIndex, baudIndex, dataBitsIndex)
    {
      this.port := port;
      this.initialDataSize := initialDataSize;
      confirmed := defaults;
      paramsToApply := defaults;
      timerActive := false;
      timerInterval := 0;
      SeedTableSpacing(initialDataSize, defaults.samplingRate);
      data := SeedTable(initialDataSize, defaults.samplingRate);
      var selection := SetIndex(NoSelection, PortBox, PortLabels(ports), comIndex);
      selection := SetIndex(selection, BaudBox, BaudLabels, baudIndex);
      serialParams := SetIndex(selection, DataBitsBox, DataBitsLabels, dataBitsIndex);
    }

    /** `serial_combobox_selection`. */
    method SerialComboboxSelection(box: Combobox, text: string)
      requires Valid()
      modifies this`serialParams
      ensures Valid()
      ensures serialParams == Selected(old(serialParams), box, text)
    {
      serialParams := Selected(serialParams, box, text);
    }

    /** `arduino_request`: write the command; pyserial raises on a closed port. */
    method ArduinoRequest(command: string) returns (ok: bool)
      modifies port`written
      ensures ok == port.isOpen
      ensures port.written == if ok then old(port.written) + [command] else old(port.written)
    {
      ok := port.Write(command);
    }

    /** `arduino_response`: read a line and keep what precedes the first carriage return. */
    method ArduinoResponse() returns (res: string)
      requires port.isOpen
      modifies port`replies
      ensures res == NextReply(old(port.replies)) && port.replies == AfterLine(old(port.replies))
    {
      var line := port.ReadLine();
      res := Split(line, '\r')[0];
    }

    /** `start_streaming`: the timer starts, at the plotting rate, only on `STAOK`. */
    method StartStreaming() returns (completed: bool)
      requires Valid()
      modifies this`timerActive, this`timerInterval, port`written, port`replies
      ensures Valid()
      ensures completed == port.isOpen
      ensures completed ==> port.written == old(port.written) + [Encode(Start)] && port.replies == AfterLine(old(port.replies))
      ensures !completed ==> port.written == old(port.written) && port.replies == old(port.replies)
      ensures var started := completed && NextReply(old(port.replies)) == STAOK;
        timerActive == (started || old(timerActive))
        && timerInterval == (if started then confirmed.plottingRate else old(timerInterval))
    {
      completed := ArduinoRequest(Encode(Start));
      if !completed {
        return;
      }
      var res := ArduinoResponse();
      if res == STAOK {
        timerActive := true;
        timerInterval := confirmed.plottingRate;
      }
    }

    /** `stop_streaming`: the timer stops only on `STOOK`; any other reply leaves it as it was. */
    method StopStreaming() returns (completed: bool)
      requires Valid()
      modifies this`timerActive, port`written, port`replies
      ensures Valid()
      ensures completed == port.isOpen
      ensures completed ==> port.written == old(port.written) + [Encode(Stop)] && port.replies == AfterLine(old(port.replies))
      ensures !completed ==> port.written == old(port.written) && port.replies == old(port.replies)
      ensures timerActive == (old(timerActive) && !(completed && NextReply(old(port.replies)) == STOOK))
    {
      completed := ArduinoRequest(Encode(Stop));
      if !completed {
        return;
      }
      var res := ArduinoResponse();
      if res == STOOK {
        timerActive := false;
      }
    }

    /** The effect of one `update_data` call, given how `json.loads` reads each reply. */
    twostate predicate Polled(parse: string -> Json, poll: Poll)
      reads this, port
    {
      var R := old(port.replies);
      var W := old(port.written);
      var res := NextReply(R);
      var R1 := AfterLine(R);
      if !port.isOpen then
        poll == Raised && data == old(data) && timerActive == old(timerActive)
        && port.written == W && port.replies == R
      else if res == BE then
        poll == Returned(2) && data == old(data)
        && port.written == W + [Encode(Get), Encode(Stop)] && port.replies == AfterLine(R1)
        && timerActive == (old(timerActive) && NextReply(R1) != STOOK)
      else if res == BF then
        poll == Returned(0) && data == old(data)
        && port.written == W + [Encode(Get), Encode(Stop), Encode(Stop)]
        && port.replies == AfterLine(AfterLine(R1))
        && timerActive == (old(timerActive) && NextReply(R1) != STOOK && NextReply(AfterLine(R1)) != STOOK)
      else
        port.written == W + [Encode(Get)] && port.replies == R1 && timerActive == old(timerActive)
        && poll.Returned?
        && if res == "" then poll.code == 0 && data == old(data)
           else old(|data|) >= 1 && Stored(old(data), data, confirmed.samplingRate, parse(res), poll.code)
    }

    /**
     * The `try` block of `update_data` for a non-empty reply: a JSON object
     * becomes a row, text that is not JSON a sentinel row, other JSON nothing.
     */
    method StoreReading(reply: Json) returns (code: int)
      requires Valid()
      modifies this`data
      ensures Valid() && Stored(old(data), data, confirmed.samplingRate, reply, code)
      ensures EvenlySpaced(old(data), confirmed.samplingRate) ==> EvenlySpaced(data, confirmed.samplingRate)
    {
      var stamp := data[|data| - 1].time + confirmed.samplingRate;
      match reply
      case Object(temps) =>
        AppendKeepsSpacing(data, confirmed.samplingRate, temps);
        data := data + [Row(stamp, temps)];
        code := 1;
      case Malformed =>
        AppendKeepsSpacing(data, confirmed.samplingRate, Sentinel);
        data := data + [Row(stamp, Sentinel)];
        code := -1;
      case NotAnObject =>
        code := 0;
    }

    /**
     * `update_data`: send `GET` and act on the reply. `BE` stops streaming
     * and returns 2; `BF` stops twice and returns 0; a JSON object becomes a
     * row one sampling interval after the last and returns 1; a reply that is
     * not JSON becomes a sentinel row at that time and returns -1; an empty
     * reply or other JSON returns 0 and adds nothing.
     */
    method UpdateData(parse: string -> Json) returns (poll: Poll)
      requires Valid()
      modifies this`data, this`timerActive, port`written, port`replies
      ensures Valid() && Polled(parse, poll)
      ensures EvenlySpaced(old(data), confirmed.samplingRate) ==> EvenlySpaced(data, confirmed.samplingRate)
    {
      var sent := ArduinoRequest(Encode(Get));
      if !sent {
        return Raised;
      }
      var res := ArduinoResponse();
      if res == BE {
        var stopped := StopStreaming();
        poll := Returned(2);
      } else if res == BF {
        var stopped := StopStreaming();
        stopped := StopStreaming();
        poll := Returned(0);
      } else if res != "" {
        var code := StoreReading(parse(res));
        poll := Returned(code);
      } else {
        poll := Returned(0);
      }
    }

    /** `timer_isr`: poll once, and render only when the poll returned a non-zero code. */
    method TimerIsr(parse: string -> Json) returns (poll: Poll, rendered: bool)
      requires Valid()
      modifies this`data, this`timerActive, port`written, port`replies
      ensures Valid() && Polled(parse, poll)
      ensures rendered <==> poll.Returned? && poll.code != 0
    {
      poll := UpdateData(parse);
      rendered := poll.Returned? && poll.code != 0;
    }

    /** `reset_table_data`: `initial_data_size + 1` zero rows ending at time 0. */
    method ResetTableData()
      requires Valid()
      modifies this`data
      ensures Valid() && data == SeedTable(initialDataSize, confirmed.samplingRate)
      ensures EvenlySpaced(data, confirmed.samplingRate)
    {
      SeedTableSpacing(initialDataSize, confirmed.samplingRate);
      data := SeedTable(initialDataSize, confirmed.samplingRate);
    }

    /**
     * `reset`: stop streaming if the timer runs, send `CLEAR` if the port is
     * open (whatever the reply), then seed the table afresh. Stopping on a
     * closed port raises and the reset goes no further.
     */
    method Reset() returns (completed: bool)
      requires Valid()
      modifies this`data, this`timerActive, port`written, port`replies
      ensures Valid()
      ensures completed == (port.isOpen || !old(timerActive))
      ensures !completed ==>
        data == old(data) && timerActive == old(timerActive)
        && port.written == old(port.written) && port.replies == old(port.replies)
      ensures completed ==> data == SeedTable(initialDataSize, confirmed.samplingRate)
      ensures completed && !port.isOpen ==>
        !timerActive && port.written == old(port.written) && port.replies == old(port.replies)
      ensures completed && port.isOpen && old(timerActive) ==>
        port.written == old(port.written) + [Encode(Stop), Encode(Clear)]
        && port.replies == AfterLine(AfterLine(old(port.replies)))
        && timerActive == (NextReply(old(port.replies)) != STOOK)
      ensures completed && port.isOpen && !old(timerActive) ==>
        !timerActive && port.written == old(port.written) + [Encode(Clear)]
        && port.replies == AfterLine(old(port.replies))
    {
      if timerActive {
        var stopped := StopStreaming();
        if !stopped {
          return false;
        }
      }
      if port.isOpen {
        var sent := ArduinoRequest(Encode(Clear));
        var ignored := ArduinoResponse();
      }
      ResetTableData();
      completed := true;
    }

    /** One "send, then resend while the reply is neither ok nor nok" loop. */
    method Negotiate(command: string, ok: string, nok: string) returns (answer: Answer)
      requires port.isOpen && ok != "" && nok != ""
      modifies port`written, port`replies
      ensures var h := Handshake(old(port.replies), ok, nok);
        answer == h.answer && port.written == old(port.written) + Repeat(command, h.sends)
        && port.replies == h.rest
    {
      ghost var R0 := port.replies;
      ghost var W0 := port.written;
      var sent := ArduinoRequest(command);
      var res := ArduinoResponse();
      ghost var k: nat := 1;
      while res != ok && res != nok && port.replies != []
        invariant port.isOpen && k >= 1
        invariant Handshake(R0, ok, nok) == Resent(AfterReply(res, port.replies, ok, nok), k - 1)
        invariant port.written == W0 + Repeat(command, k)
        decreases |port.replies|
      {
        sent := ArduinoRequest(command);
        res := ArduinoResponse();
        assert Repeat(command, k + 1) == Repeat(command, k) + [command];
        k := k + 1;
      }
      if res == ok {
        answer := Accepted;
      } else if res == nok {
        answer := Rejected;
      } else {
        answer := NoAnswer;
      }
    }

    /**
     * The three device-side handshakes of `apply_streaming_params`, in order,
     * stopping at one the script leaves unanswered.
     */
    method NegotiateAll(p: Params) returns (answers: seq<Answer>)
      requires port.isOpen
      modifies port`written, port`replies
      ensures var n := RunSteps(old(port.replies), Steps(p));
        answers == n.answers && port.written == old(port.written) + n.sent && port.replies == n.rest
    {
      ghost var R0 := port.replies;
      ghost var W0 := port.written;
      StepsFacts(R0, p);
      ghost var steps := Steps(p);
      ghost var h1 := Handshake(R0, steps[0].ok, steps[0].nok);
      ghost var h2 := Handshake(h1.rest, steps[1].ok, steps[1].nok);
      ghost var s1, s2 := Repeat(steps[0].command, h1.sends), Repeat(steps[1].command, h2.sends);

      var a1 := Negotiate(Encode(SetSampling(p.samplingRate)), SSOK, SSNOK);
      if a1 == NoAnswer {
        return [a1];
      }
      var a2 := Negotiate(Encode(SetAnalysis(p.analysisTime)), SAOK, SANOK);
      assert port.written == W0 + (s1 + s2);
      if a2 == NoAnswer {
        return [a1, a2];
      }
      var a3 := Negotiate(Encode(SetBufferSize(p.bufferSize)), BSOK, BSNOK);
      ghost var s3 := Repeat(steps[2].command, Handshake(h2.rest, steps[2].ok, steps[2].nok).sends);
      assert port.written == W0 + (s1 + s2 + s3) by {
        assert W0 + (s1 + s2) + s3 == W0 + (s1 + s2 + s3);
      }
      answers := [a1, a2, a3];
    }

    /**
     * `apply_streaming_params`: with the port closed nothing changes. With it
     * open the plotting rate is taken at once, then `SETS`, `SETA` and `BSIZE`
     * are negotiated in turn; each value is committed only on its OK token,
     * and the names of the parameters not changed are reported.
     */
    method ApplyStreamingParams() returns (outcome: ApplyOutcome)
      requires Valid()
      modifies this`confirmed, port`written, port`replies
      ensures Valid()
      ensures !port.isOpen ==>
        outcome == PortClosed && confirmed == old(confirmed)
        && port.written == old(port.written) && port.replies == old(port.replies)
      ensures port.isOpen ==>
        var p := paramsToApply;
        var n := RunSteps(old(port.replies), Steps(p));
        && port.written == old(port.written) + n.sent
        && port.replies == n.rest
        && confirmed.plottingRate == p.plottingRate
        && confirmed.samplingRate == (if AnswerAt(n.answers, 0) == Accepted then p.samplingRate else old(confirmed.samplingRate))
        && confirmed.analysisTime == (if AnswerAt(n.answers, 1) == Accepted then p.analysisTime else old(confirmed.analysisTime))
        && confirmed.bufferSize == (if AnswerAt(n.answers, 2) == Accepted then p.bufferSize else old(confirmed.bufferSize))
        && outcome == (if NoAnswer in n.answers then Stalled else Applied(Unapplied(ParamKeys, ChangedFlags(n.answers))))
    {
      if !port.isOpen {
        return PortClosed;
      }
      var p := paramsToApply;
      confirmed := confirmed.(plottingRate := p.plottingRate);
      var answers := NegotiateAll(p);
      if AnswerAt(answers, 0) == Accepted {
        confirmed := confirmed.(samplingRate := p.samplingRate);
      }
      if AnswerAt(answers, 1) == Accepted {
        confirmed := confirmed.(analysisTime := p.analysisTime);
      }
      if AnswerAt(answers, 2) == Accepted {
        confirmed := confirmed.(bufferSize := p.bufferSize);
      }
      if NoAnswer in answers {
        return Stalled;
      }
      var names := NotChangedNames(ParamKeys, ChangedFlags(answers));
      outcome := Applied(names);
    }
  }
}
