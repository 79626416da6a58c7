/**
 * The serial port the host program talks through, reduced to what the
 * protocol needs: whether it is open, the lines the device will answer with
 * (a script, in order), and the log of every string written to it.
 * Opening, closing and the line settings are not part of this model.
 */
module SerialLink {

  /** What `readline` returns next: the next scripted line, or "" once the script is used up (a read timeout). */
  function NextLine(replies: seq<string>): string
  {
    if replies == [] then "" else replies[0]
  }

  /** The script after one `readline`. */
  function AfterLine(replies: seq<string>): (rest: seq<string>)
    ensures replies != [] ==> |rest| == |replies| - 1
  {
    if replies == [] then [] else replies[1..]
  }

  class ScriptedPort {
    var isOpen: bool
    var replies: seq<string>
    var written: seq<string>

    constructor (isOpen: bool, replies: seq<string>)
      ensures this.isOpen == isOpen && this.replies == replies && written == []
    {
      this.isOpen := isOpen;
      this.replies := replies;
      written := [];
    }

    /** `write`: refused (pyserial raises) when the port is not open. */
    method Write(data: string) returns (ok: bool)
      modifies this`written
      ensures ok == isOpen
      ensures written == if ok then old(written) + [data] else old(written)
    {
      ok := isOpen;
      if ok {
        written := written + [data];
      }
    }

    /** `readline` on an open port: the next scripted line, or "" on timeout. */
    method ReadLine() returns (line: string)
      requires isOpen
      modifies this`replies
      ensures line == NextLine(old(replies)) && replies == AfterLine(old(replies))
    {
      line := NextLine(replies);
      replies := AfterLine(replies);
    }
  }
}
