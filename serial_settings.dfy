/**
 * The serial line settings the operator picks from six comboboxes, collected
 * in a record that is later handed to the port (`serial_combobox_selection`).
 */
module SerialSettings {
  import opened Wrappers
  import opened Text

  datatype Parity = ParityNone | ParityEven | ParityOdd

  datatype StopBits = OneStopBit | OnePointFiveStopBits | TwoStopBits

  /**
   * The keys of the `serial_params` dict: an absent key is None; the three
   * flow-control keys are only ever set to True, so absent reads as false.
   */
  datatype SerialParams = SerialParams(
    port: Option<string>,
    baudrate: Option<nat>,
    bytesize: Option<nat>,
    parity: Option<Parity>,
    stopbits: Option<StopBits>,
    xonxoff: bool,
    rtscts: bool,
    dsrdtr: bool)

  const NoSelection := SerialParams(None, None, None, None, None, false, false, false)

  datatype Combobox = PortBox | BaudBox | DataBitsBox | ParityBox | StopBitsBox | FlowControlBox

  const BaudLabels: seq<string> := ["1200", "2400", "4800", "9600", "19200", "38400", "57600", "115200"]

  const DataBitsLabels: seq<string> := ["5", "6", "7", "8"]

  /** `baud_list[name]`; None where the lookup raises `KeyError`. */
  function BaudRate(name: string): (r: Option<nat>)
    ensures r.Some? <==> name in BaudLabels
  {
    if name == "1200" then Some(1200)
    else if name == "2400" then Some(2400)
    else if name == "4800" then Some(4800)
    else if name == "9600" then Some(9600)
    else if name == "19200" then Some(19200)
    else if name == "38400" then Some(38400)
    else if name == "57600" then Some(57600)
    else if name == "115200" then Some(115200)
    else None
  }

  /** Distinct baud labels name distinct rates, so a rate identifies its label. */
  lemma BaudRateInjective(a: string, b: string)
    requires BaudRate(a).Some? && BaudRate(a) == BaudRate(b)
    ensures a == b
  {
  }

  /** Each rate is its label read in decimal. */
  lemma BaudRateLabel(name: string)
    requires BaudRate(name).Some?
    ensures NatToString(BaudRate(name).value) == name
  {
    if name == "1200" {
      Decimal1200();
    } else if name == "2400" {
      Decimal2400();
    } else if name == "4800" {
      Decimal4800();
    } else if name == "9600" {
      Decimal9600();
    } else if name == "19200" {
      Decimal19200();
    } else if name == "38400" {
      Decimal38400();
    } else if name == "57600" {
      Decimal57600();
    } else if name == "115200" {
      Decimal115200();
    }
  }

  lemma Decimal1200()
    ensures NatToString(1200) == "1200"
  {
    assert NatToString(1) == "1";
    AppendDigit(1, 2, "1"); AppendDigit(12, 0, "12"); AppendDigit(120, 0, "120");
  }

  lemma Decimal2400()
    ensures NatToString(2400) == "2400"
  {
    assert NatToString(2) == "2";
    AppendDigit(2, 4, "2"); AppendDigit(24, 0, "24"); AppendDigit(240, 0, "240");
  }

  lemma Decimal4800()
    ensures NatToString(4800) == "4800"
  {
    assert NatToString(4) == "4";
    AppendDigit(4, 8, "4"); AppendDigit(48, 0, "48"); AppendDigit(480, 0, "480");
  }

  lemma Decimal9600()
    ensures NatToString(9600) == "9600"
  {
    assert NatToString(9) == "9";
    AppendDigit(9, 6, "9"); AppendDigit(96, 0, "96"); AppendDigit(960, 0, "960");
  }

  lemma Decimal19200()
    ensures NatToString(19200) == "19200"
  {
    assert NatToString(1) == "1";
    AppendDigit(1, 9, "1"); AppendDigit(19, 2, "19"); AppendDigit(192, 0, "192"); AppendDigit(1920, 0, "1920");
  }

  lemma Decimal38400()
    ensures NatToString(38400) == "38400"
  {
    assert NatToString(3) == "3";
    AppendDigit(3, 8, "3"); AppendDigit(38, 4, "38"); AppendDigit(384, 0, "384"); AppendDigit(3840, 0, "3840");
  }

  lemma Decimal57600()
    ensures NatToString(57600) == "57600"
  {
    assert NatToString(5) == "5";
    AppendDigit(5, 7, "5"); AppendDigit(57, 6, "57"); AppendDigit(576, 0, "576"); AppendDigit(5760, 0, "5760");
  }

  lemma Decimal115200()
    ensures NatToString(115200) == "115200"
  {
    assert NatToString(1) == "1";
    AppendDigit(1, 1, "1"); AppendDigit(11, 5, "11"); AppendDigit(115, 2, "115"); AppendDigit(1152, 0, "1152"); AppendDigit(11520, 0, "11520");
  }

  /** Writing one more decimal digit after a number's digits. */
  lemma AppendDigit(n: nat, d: nat, s: string)
    requires n >= 1 && d < 10 && NatToString(n) == s
    ensures NatToString(n * 10 + d) == s + [DigitChar(d)]
  {
    assert (n * 10 + d) / 10 == n && (n * 10 + d) % 10 == d;
  }

  /** `data_bits_list[name]`. */
  function DataBits(name: string): (r: Option<nat>)
    ensures r.Some? <==> name in DataBitsLabels
    ensures r.Some? ==> 5 <= r.value <= 8 && NatToString(r.value) == name
  {
    if name == "5" then Some(5)
    else if name == "6" then Some(6)
    else if name == "7" then Some(7)
    else if name == "8" then Some(8)
    else None
  }

  /** `parity_list[name]`. */
  function ParityOf(name: string): (r: Option<Parity>)
    ensures r.Some? <==> name in ["None", "Even", "Odd"]
  {
    if name == "None" then Some(ParityNone)
    else if name == "Even" then Some(ParityEven)
    else if name == "Odd" then Some(ParityOdd)
    else None
  }

  /** `stop_bits_list[name]`. */
  function StopBitsOf(name: string): (r: Option<StopBits>)
    ensures r.Some? <==> name in ["1", "1.5", "2"]
  {
    if name == "1" then Some(OneStopBit)
    else if name == "1.5" then Some(OnePointFiveStopBits)
    else if name == "2" then Some(TwoStopBits)
    else None
  }

  /**
   * The record after the combobox `box` shows `text`. A name the lookup
   * table lacks raises before anything is stored, so nothing changes;
   * "refresh" re-lists the ports (not modelled) and "---" is a placeholder.
   */
  function Selected(params: SerialParams, box: Combobox, text: string): (r: SerialParams)
    // only the entry that belongs to `box` can change
    ensures r.port != params.port ==> box == PortBox && text != "refresh" && text != "---" && r.port == Some(text)
    ensures r.baudrate != params.baudrate ==> box == BaudBox && r.baudrate == BaudRate(text) && r.baudrate.Some?
    ensures r.bytesize != params.bytesize ==> box == DataBitsBox && r.bytesize == DataBits(text) && r.bytesize.Some?
    ensures r.parity != params.parity ==> box == ParityBox && r.parity == ParityOf(text) && r.parity.Some?
    ensures r.stopbits != params.stopbits ==> box == StopBitsBox && r.stopbits == StopBitsOf(text) && r.stopbits.Some?
    // a flow-control choice only ever switches a flag on
    ensures (params.xonxoff ==> r.xonxoff) && (params.rtscts ==> r.rtscts) && (params.dsrdtr ==> r.dsrdtr)
    ensures r.xonxoff != params.xonxoff ==> box == FlowControlBox && text == "XON/XOFF"
    ensures r.rtscts != params.rtscts ==> box == FlowControlBox && text == "RTS/CTS"
    ensures r.dsrdtr != params.dsrdtr ==> box == FlowControlBox && text == "DTR/DSR"
    // and a label that is found is stored
    ensures box == PortBox && text != "refresh" && text != "---" ==> r.port == Some(text)
    ensures box == BaudBox && BaudRate(text).Some? ==> r.baudrate == BaudRate(text)
    ensures box == DataBitsBox && DataBits(text).Some? ==> r.bytesize == DataBits(text)
    ensures box == ParityBox && ParityOf(text).Some? ==> r.parity == ParityOf(text)
    ensures box == StopBitsBox && StopBitsOf(text).Some? ==> r.stopbits == StopBitsOf(text)
    ensures box == FlowControlBox && text == "XON/XOFF" ==> r.xonxoff
    ensures box == FlowControlBox && text == "RTS/CTS" ==> r.rtscts
    ensures box == FlowControlBox && text == "DTR/DSR" ==> r.dsrdtr
  {
    match box
    case PortBox =>
      if text == "refresh" || text == "---" then params else params.(port := Some(text))
    case BaudBox =>
      (match BaudRate(text) case Some(b) => params.(baudrate := Some(b)) case None => params)
    case DataBitsBox =>
      (match DataBits(text) case Some(b) => params.(bytesize := Some(b)) case None => params)
    case ParityBox =>
      (match ParityOf(text) case Some(p) => params.(parity := Some(p)) case None => params)
    case StopBitsBox =>
      (match StopBitsOf(text) case Some(s) => params.(stopbits := Some(s)) case None => params)
    case FlowControlBox =>
      if text == "XON/XOFF" then params.(xonxoff := true)
      else if text == "RTS/CTS" then params.(rtscts := true)
      else if text == "DTR/DSR" then params.(dsrdtr := true)
      else params
  }

  /** The text a combobox shows at `index`; Qt shows no item, "", for an index out of range. */
  function LabelAt(labels: seq<string>, index: int): string
  {
    if 0 <= index < |labels| then labels[index] else ""
  }

  /** The port combobox after `refreshCOMPorts`: two fixed entries, then the ports found. */
  function PortLabels(ports: seq<string>): seq<string>
  {
    ["---", "refresh"] + ports
  }

  /**
   * `setCurrentIndex(index)` on a filled combobox, which shows item 0: the
   * selection slot runs only when the index moves off 0.
   */
  function SetIndex(params: SerialParams, box: Combobox, labels: seq<string>, index: int): SerialParams
  {
    if index == 0 then params else Selected(params, box, LabelAt(labels, index))
  }

  /**
   * The serial settings at start-up: the port, baud and data-bits comboboxes
   * are moved to their configured indexes once their slot is connected, and
   * each move selects what the combobox then shows.
   */
  function StartupSelection(ports: seq<string>, comIndex: int, baudIndex: int, dataBitsIndex: int): (r: SerialParams)
    ensures var shown := LabelAt(PortLabels(ports), comIndex);
      r.port == (if comIndex != 0 && shown != "refresh" && shown != "---" then Some(shown) else None)
    ensures r.baudrate == (if baudIndex != 0 then BaudRate(LabelAt(BaudLabels, baudIndex)) else None)
    ensures r.bytesize == (if dataBitsIndex != 0 then DataBits(LabelAt(DataBitsLabels, dataBitsIndex)) else None)
    ensures r.parity == None && r.stopbits == None && !r.xonxoff && !r.rtscts && !r.dsrdtr
  {
    var p := SetIndex(NoSelection, PortBox, PortLabels(ports), comIndex);
    var b := SetIndex(p, BaudBox, BaudLabels, baudIndex);
    SetIndex(b, DataBitsBox, DataBitsLabels, dataBitsIndex)
  }

  /**
   * With the configured defaults (port 2, baud 7, data bits 3) the first
   * listed port is chosen ("" when none is listed), at 115200 baud, 8 bits.
   */
  lemma StartupDefaults(ports: seq<string>)
    requires ports != [] ==> ports[0] != "refresh" && ports[0] != "---"
    ensures var r := StartupSelection(ports, 2, 7, 3);
      && r.port == Some(if ports == [] then "" else ports[0])
      && r.baudrate == Some(115200) && r.bytesize == Some(8)
  {
    assert LabelAt(BaudLabels, 7) == "115200";
    assert LabelAt(DataBitsLabels, 3) == "8";
    if ports != [] {
      assert LabelAt(PortLabels(ports), 2) == ports[0];
    }
  }

  /**
   * Choosing a second flow-control mode does not clear the first, so more
   * than one can end up enabled; choosing "None" clears nothing.
   */
  lemma FlowControlAccumulates(params: SerialParams)
    ensures var r := Selected(Selected(params, FlowControlBox, "XON/XOFF"), FlowControlBox, "RTS/CTS");
      r.xonxoff && r.rtscts
    ensures Selected(params, FlowControlBox, "None") == params
  {
  }
}
