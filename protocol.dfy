/**
 * The line protocol between the host program and the logger: the command
 * vocabulary, the exact reply tokens, how a raw line becomes a reply, and the
 * "resend until OK or NOK" handshake used to set a device parameter.
 */
module Protocol {
  import opened Wrappers
  import opened Text
  import opened SerialLink

  datatype Command =
    | Start
    | Stop
    | Get
    | Clear
    | SetSampling(ms: int)
    | SetAnalysis(ms: int)
    | SetBufferSize(items: int)

  /** The exact text written for a command (no line terminator is sent). */
  function Encode(c: Command): string
  {
    match c
    case Start => "START"
    case Stop => "STOP"
    case Get => "GET"
    case Clear => "CLEAR"
    case SetSampling(ms) => "SETS " + IntToString(ms)
    case SetAnalysis(ms) => "SETA " + IntToString(ms)
    case SetBufferSize(n) => "BSIZE " + IntToString(n)
  }

  /** A reference reader for the command vocabulary, as the device sees it. */
  function Decode(s: string): Option<Command>
  {
    if s == "START" then Some(Start)
    else if s == "STOP" then Some(Stop)
    else if s == "GET" then Some(Get)
    else if s == "CLEAR" then Some(Clear)
    else if |s| >= 5 && s[..5] == "SETS " then
      match ParseInt(s[5..]) case Some(v) => Some(SetSampling(v)) case None => None
    else if |s| >= 5 && s[..5] == "SETA " then
      match ParseInt(s[5..]) case Some(v) => Some(SetAnalysis(v)) case None => None
    else if |s| >= 6 && s[..6] == "BSIZE " then
      match ParseInt(s[6..]) case Some(v) => Some(SetBufferSize(v)) case None => None
    else None
  }

  lemma ArgumentCommand(prefix: string, v: int)
    requires prefix == "SETS " || prefix == "SETA " || prefix == "BSIZE "
    ensures var s := prefix + IntToString(v);
      |s| > |prefix| && s[..|prefix|] == prefix && s[|prefix|..] == IntToString(v)
      && s != "START" && s != "STOP" && s != "GET" && s != "CLEAR"
  {
    var s := prefix + IntToString(v);
    assert s[..|prefix|] == prefix && s[|prefix|..] == IntToString(v);
    assert s[0] == prefix[0] && s[1] == prefix[1];
  }

  /** No two commands share a wire text, and an argument is read back unchanged. */
  lemma DecodeEncode(c: Command)
    ensures Decode(Encode(c)) == Some(c)
  {
    match c
    case SetSampling(v) =>
      ArgumentCommand("SETS ", v);
      IntToStringRoundTrip(v);
    case SetAnalysis(v) =>
      ArgumentCommand("SETA ", v);
      IntToStringRoundTrip(v);
      var s := Encode(c);
      assert s[..5] != "SETS " by { assert s[3] != 'S'; }
    case SetBufferSize(v) =>
      ArgumentCommand("BSIZE ", v);
      IntToStringRoundTrip(v);
      var s := Encode(c);
      assert s[..5] != "SETS " && s[..5] != "SETA " by { assert s[0] == 'B'; }
    case _ =>
  }

  // Reply tokens, matched exactly.
  const STAOK := "STAOK"
  const STOOK := "STOOK"
  const BE := "BE"
  const BF := "BF"
  const SSOK := "SSOK"
  const SSNOK := "SSNOK"
  const SAOK := "SAOK"
  const SANOK := "SANOK"
  const BSOK := "BSOK"
  const BSNOK := "BSNOK"

  /** A raw line as the host program keeps it: the part before the first carriage return. */
  function ReplyText(line: string): (res: string)
    ensures res <= line && '\r' !in res
    ensures |res| < |line| ==> line[|res|] == '\r'
  {
    SplitHead(line, '\r');
    Split(line, '\r')[0]
  }

  /** The reply the next read yields ("" once the script is used up). */
  function NextReply(replies: seq<string>): string
  {
    ReplyText(NextLine(replies))
  }

  predicate Answers(reply: string, ok: string, nok: string)
  {
    reply == ok || reply == nok
  }

  datatype Answer = Accepted | Rejected | NoAnswer

  /** One handshake step: how it ends, how often the command went out, and the script left. */
  datatype StepOutcome = StepOutcome(answer: Answer, sends: nat, rest: seq<string>)

  /**
   * "Send the command, read; while the reply is neither ok nor nok, resend
   * and read again." The command goes out once per reply read; a script that
   * runs out before an answer leaves the step unanswered (the program itself
   * would go on resending for ever).
   */
  function Handshake(replies: seq<string>, ok: string, nok: string): (h: StepOutcome)
    ensures h.sends >= 1
    decreases |replies|, 0
  {
    if replies == [] then StepOutcome(NoAnswer, 1, [])
    else AfterReply(ReplyText(replies[0]), replies[1..], ok, nok)
  }

  /** The rest of a handshake once `reply` has been read and `rest` is what the script still holds. */
  function AfterReply(reply: string, rest: seq<string>, ok: string, nok: string): (h: StepOutcome)
    ensures h.sends >= 1
    decreases |rest|, 1
  {
    if reply == ok then StepOutcome(Accepted, 1, rest)
    else if reply == nok then StepOutcome(Rejected, 1, rest)
    else if rest == [] then StepOutcome(NoAnswer, 1, [])
    else Resent(Handshake(rest, ok, nok), 1)
  }

  /** The same outcome, with the command sent `extra` more times before it. */
  function Resent(h: StepOutcome, extra: nat): (r: StepOutcome)
    ensures r.answer == h.answer && r.rest == h.rest && r.sends == h.sends + extra
  {
    h.(sends := h.sends + extra)
  }

  /**
   * A handshake is answered iff some scripted line answers it; it then ends
   * at the first such line, Accepted iff that line is the ok token, and the
   * script resumes after it. Unanswered, it has used up the whole script.
   */
  lemma {:induction false} HandshakeSpec(replies: seq<string>, ok: string, nok: string)
    ensures var h := Handshake(replies, ok, nok);
      && ((h.answer != NoAnswer) <==> exists j :: 0 <= j < |replies| && Answers(ReplyText(replies[j]), ok, nok))
      && (h.answer != NoAnswer ==>
        && h.sends <= |replies|
        && (forall j :: 0 <= j < h.sends - 1 ==> !Answers(ReplyText(replies[j]), ok, nok))
        && Answers(ReplyText(replies[h.sends - 1]), ok, nok)
        && h.answer == (if ReplyText(replies[h.sends - 1]) == ok then Accepted else Rejected)
        && h.rest == replies[h.sends..])
      && (h.answer == NoAnswer ==> h.rest == [] && h.sends == (if replies == [] then 1 else |replies|))
    decreases |replies|
  {
    if replies != [] {
      var tail := replies[1..];
      if !Answers(ReplyText(replies[0]), ok, nok) {
        if tail == [] {
          forall j | 0 <= j < |replies| ensures !Answers(ReplyText(replies[j]), ok, nok) {
            assert j == 0;
          }
        } else {
          HandshakeSpec(tail, ok, nok);
          var t := Handshake(tail, ok, nok);
          assert Handshake(replies, ok, nok) == Resent(t, 1);
          assert forall j :: 1 <= j < |replies| ==> replies[j] == tail[j - 1];
          if t.answer != NoAnswer {
            assert replies[t.sends] == tail[t.sends - 1];
            assert replies[t.sends + 1..] == tail[t.sends..];
            forall j | 0 <= j < t.sends ensures !Answers(ReplyText(replies[j]), ok, nok) {
              if j > 0 {
                assert replies[j] == tail[j - 1];
              }
            }
          } else {
            forall j | 0 <= j < |replies| ensures !Answers(ReplyText(replies[j]), ok, nok) {
              if j > 0 {
                assert replies[j] == tail[j - 1];
              }
            }
          }
        }
      }
    }
  }

  /** One parameter to negotiate: the command and its two answer tokens. */
  datatype Step = Step(command: string, ok: string, nok: string)

  /** The outcome of several handshakes run in order. */
  datatype Negotiation = Negotiation(answers: seq<Answer>, sent: seq<string>, rest: seq<string>)

  /** Handshakes run one after another; an unanswered step stops the sequence there. */
  function RunSteps(replies: seq<string>, steps: seq<Step>): (n: Negotiation)
    ensures |n.answers| <= |steps|
    ensures forall i :: 0 <= i < |n.answers| && n.answers[i] == NoAnswer ==> i == |n.answers| - 1
    ensures NoAnswer !in n.answers ==> |n.answers| == |steps|
    decreases steps
  {
    if steps == [] then Negotiation([], [], replies)
    else
      var h := Handshake(replies, steps[0].ok, steps[0].nok);
      var sent := Repeat(steps[0].command, h.sends);
      if h.answer == NoAnswer then Negotiation([NoAnswer], sent, h.rest)
      else
        var n := RunSteps(h.rest, steps[1..]);
        Negotiation([h.answer] + n.answers, sent + n.sent, n.rest)
  }

  /** Three handshakes in a row, spelled out: each step starts on the script its predecessor left. */
  lemma RunThreeSteps(replies: seq<string>, a: Step, b: Step, c: Step)
    ensures
      var h1 := Handshake(replies, a.ok, a.nok);
      var h2 := Handshake(h1.rest, b.ok, b.nok);
      var h3 := Handshake(h2.rest, c.ok, c.nok);
      var s1, s2, s3 := Repeat(a.command, h1.sends), Repeat(b.command, h2.sends), Repeat(c.command, h3.sends);
      RunSteps(replies, [a, b, c]) ==
        if h1.answer == NoAnswer then Negotiation([NoAnswer], s1, h1.rest)
        else if h2.answer == NoAnswer then Negotiation([h1.answer, NoAnswer], s1 + s2, h2.rest)
        else if h3.answer == NoAnswer then Negotiation([h1.answer, h2.answer, NoAnswer], s1 + s2 + s3, h3.rest)
        else Negotiation([h1.answer, h2.answer, h3.answer], s1 + s2 + s3, h3.rest)
  {
    var h1 := Handshake(replies, a.ok, a.nok);
    var h2 := Handshake(h1.rest, b.ok, b.nok);
    var h3 := Handshake(h2.rest, c.ok, c.nok);
    var s1, s2, s3 := Repeat(a.command, h1.sends), Repeat(b.command, h2.sends), Repeat(c.command, h3.sends);
    assert [a, b, c][1..] == [b, c];
    assert [b, c][1..] == [c];
    assert [c][1..] == [];
    assert RunSteps(h3.rest, []) == Negotiation([], [], h3.rest);
    var n3 := RunSteps(h2.rest, [c]);
    assert n3 == if h3.answer == NoAnswer then Negotiation([NoAnswer], s3, h3.rest)
      else Negotiation([h3.answer], s3, h3.rest) by {
      assert s3 + [] == s3;
    }
    var n2 := RunSteps(h1.rest, [b, c]);
    assert h2.answer != NoAnswer ==> n2 == Negotiation([h2.answer] + n3.answers, s2 + s3, h3.rest);
    if h1.answer != NoAnswer && h2.answer != NoAnswer {
      assert RunSteps(replies, [a, b, c]) == Negotiation([h1.answer] + n2.answers, s1 + (s2 + s3), h3.rest);
      assert s1 + (s2 + s3) == s1 + s2 + s3;
    }
  }

  /** The answer of step i, or NoAnswer when the sequence stalled before it. */
  function AnswerAt(answers: seq<Answer>, i: nat): Answer
  {
    if i < |answers| then answers[i] else NoAnswer
  }
}
