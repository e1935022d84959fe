/**
 * The ILI9881C command table: how one entry becomes a DSI buffer write, and
 * which writes the init-sequence executor issues for a whole table.
 */
module Commands {
  import opened Wrappers
  import opened Mipi

  /** One entry of the vendor command table: a command byte and its data byte. */
  datatype Instr = Instr(cmd: bv8, data: bv8)

  /** The command byte reserved for "switch register page"; the data byte is the page. */
  const SWITCH_PAGE: bv8 := 0xFF

  /** The table the driver ships (ili9881c_init_data_2). */
  const INIT_DATA_2: seq<Instr> := [Instr(0xB2, 0x10)]

  /** The buffer that selects register page `page`. */
  function SwitchPagePayload(page: bv8): seq<bv8>
  {
    [0xFF, 0x98, 0x81, page]
  }

  /** The buffer that writes `data` to register `cmd`. */
  function CmdDataPayload(cmd: bv8, data: bv8): seq<bv8>
  {
    [cmd, data]
  }

  /** The buffer the executor sends for one table entry. */
  function InstrPayload(i: Instr): (p: seq<bv8>)
    ensures |p| == 4 <==> i.cmd == SWITCH_PAGE
    ensures |p| == 2 <==> i.cmd != SWITCH_PAGE
    ensures p[0] == i.cmd && p[|p| - 1] == i.data
  {
    if i.cmd == SWITCH_PAGE then SwitchPagePayload(i.data) else CmdDataPayload(i.cmd, i.data)
  }

  /** Reads a table entry back from a buffer; None for a buffer no entry produces. */
  function DecodePayload(p: seq<bv8>): (r: Option<Instr>)
  {
    if |p| == 4 && p[0] == SWITCH_PAGE && p[1] == 0x98 && p[2] == 0x81 then Some(Instr(SWITCH_PAGE, p[3]))
    else if |p| == 2 && p[0] != SWITCH_PAGE then Some(Instr(p[0], p[1]))
    else None
  }

  /** Every entry's buffer decodes back to the entry. */
  lemma DecodeInstrPayload(i: Instr)
    ensures DecodePayload(InstrPayload(i)) == Some(i)
  {
  }

  /**
   * A buffer decodes to an entry exactly when it is that entry's buffer: the
   * encoding is one-to-one, and a 4-byte page switch and a 2-byte register
   * write can never be confused.
   */
  lemma PayloadCodec(p: seq<bv8>, i: Instr)
    ensures DecodePayload(p) == Some(i) <==> InstrPayload(i) == p
  {
    if DecodePayload(p) == Some(i) {
      if |p| == 4 {
        assert p == [p[0], p[1], p[2], p[3]];
      } else {
        assert p == [p[0], p[1]];
      }
    }
  }

  /** Two entries with the same buffer are the same entry. */
  lemma InstrPayloadInjective(i: Instr, j: Instr)
    requires InstrPayload(i) == InstrPayload(j)
    ensures i == j
  {
    DecodeInstrPayload(i);
    DecodeInstrPayload(j);
  }

  /** The writes that sending every entry of `table`, in order, issues. */
  function TableWrites(table: seq<Instr>): (ev: seq<Event>)
    ensures |ev| == |table|
  {
    if table == [] then [] else [DcsWrite(InstrPayload(table[0]))] + TableWrites(table[1..])
  }

  /** Write j of the table's writes carries entry j's buffer. */
  lemma {:induction false} TableWritesAt(table: seq<Instr>, j: nat)
    requires j < |table|
    ensures TableWrites(table)[j] == DcsWrite(InstrPayload(table[j]))
  {
    if j > 0 {
      TableWritesAt(table[1..], j - 1);
    }
  }

  /** Sending one more entry appends its write. */
  lemma TableWritesSnoc(table: seq<Instr>, i: nat)
    requires i < |table|
    ensures TableWrites(table[..i + 1]) == TableWrites(table[..i]) + [DcsWrite(InstrPayload(table[i]))]
  {
    var a := TableWrites(table[..i + 1]);
    var b := TableWrites(table[..i]) + [DcsWrite(InstrPayload(table[i]))];
    assert |a| == |b|;
    forall j | 0 <= j < |a|
      ensures a[j] == b[j]
    {
      TableWritesAt(table[..i + 1], j);
      if j < i {
        TableWritesAt(table[..i], j);
      }
    }
  }

  /**
   * The index of the first entry whose write fails (returns a negative code)
   * when the entries are written from trace position `pos` on, one position
   * each; |table| when every write succeeds.
   */
  function FirstFailure(table: seq<Instr>, write: nat -> int, pos: nat): (k: nat)
    ensures k <= |table|
    ensures forall p :: pos <= p < pos + k ==> write(p) >= 0
    ensures k < |table| ==> write(pos + k) < 0
    decreases |table|
  {
    if table == [] || write(pos) < 0 then 0
    else
      1 + FirstFailure(table[1..], write, pos + 1)
  }

  /** What the executor does once the whole table has been written. */
  function Trailer(): seq<Event>
  {
    [DcsWrite(SwitchPagePayload(0))]
      + [DcsWrite([DCS_EXIT_SLEEP_MODE, 0])]
      + [Delay(120)]
      + [DcsWrite([DCS_SET_DISPLAY_ON, 0])]
  }

  /**
   * The events of one run of the init-sequence executor over `table`,
   * started at trace position `pos`: the entries up to and including the
   * first failing one, or, when none fails, all of them and the trailer.
   */
  function InitSequenceEvents(table: seq<Instr>, write: nat -> int, pos: nat): (ev: seq<Event>)
    ensures |ev| <= |table| + |Trailer()|
  {
    var k := FirstFailure(table, write, pos);
    if k < |table| then TableWrites(table[..k + 1]) else TableWrites(table) + Trailer()
  }

  /** When no write fails, every entry is sent in table order and the trailer follows. */
  lemma InitSequenceAllSent(table: seq<Instr>, write: nat -> int, pos: nat)
    requires forall p :: pos <= p < pos + |table| ==> write(p) >= 0
    ensures InitSequenceEvents(table, write, pos) == TableWrites(table) + Trailer()
  {
  }

  /**
   * When entry i is the first whose write fails, the run holds the writes of
   * entries 0..i and nothing else: no page-0 switch, no exit-sleep, no display-on.
   */
  lemma InitSequenceStopsAtFailure(table: seq<Instr>, write: nat -> int, pos: nat, i: nat)
    requires i < |table| && write(pos + i) < 0
    requires forall p :: pos <= p < pos + i ==> write(p) >= 0
    ensures InitSequenceEvents(table, write, pos) == TableWrites(table[..i + 1])
    ensures |InitSequenceEvents(table, write, pos)| == i + 1
  {
  }

  /** The trailer is sent if and only if every entry's write succeeds. */
  lemma InitSequenceCompletes(table: seq<Instr>, write: nat -> int, pos: nat)
    ensures |InitSequenceEvents(table, write, pos)| == |table| + |Trailer()|
            <==> forall p :: pos <= p < pos + |table| ==> write(p) >= 0
  {
    var k := FirstFailure(table, write, pos);
    if k < |table| {
      assert |InitSequenceEvents(table, write, pos)| == k + 1;
      assert write(pos + k) < 0;
    }
  }

  /**
   * The table can be read back from the run: its first events are buffer
   * writes that decode, in order, to the entries sent.
   */
  lemma InitSequenceSpellsTable(table: seq<Instr>, write: nat -> int, pos: nat)
    ensures var ev := InitSequenceEvents(table, write, pos);
            forall j :: 0 <= j < |ev| && j < |table| ==>
              ev[j].DcsWrite? && DecodePayload(ev[j].payload) == Some(table[j])
  {
    var ev := InitSequenceEvents(table, write, pos);
    var k := FirstFailure(table, write, pos);
    forall j | 0 <= j < |ev| && j < |table|
      ensures ev[j].DcsWrite? && DecodePayload(ev[j].payload) == Some(table[j])
    {
      if k < |table| {
        TableWritesAt(table[..k + 1], j);
      } else {
        TableWritesAt(table, j);
      }
      DecodeInstrPayload(table[j]);
    }
  }

  /** A run issues only buffer writes and the 120 ms delay of the trailer. */
  lemma InitSequenceEventKinds(table: seq<Instr>, write: nat -> int, pos: nat)
    ensures forall e :: e in InitSequenceEvents(table, write, pos) ==> e.DcsWrite? || e == Delay(120)
  {
    var ev := InitSequenceEvents(table, write, pos);
    forall e | e in ev
      ensures e.DcsWrite? || e == Delay(120)
    {
      var j :| 0 <= j < |ev| && ev[j] == e;
      var k := FirstFailure(table, write, pos);
      if k < |table| {
        TableWritesAt(table[..k + 1], j);
      } else if j < |table| {
        TableWritesAt(table, j);
      } else {
        assert e == Trailer()[j - |table|];
      }
    }
  }

  /** The shipped one-entry table: the full run, and the run when its only write fails. */
  lemma InitData2Runs(write: nat -> int, pos: nat)
    ensures write(pos) >= 0 ==>
      InitSequenceEvents(INIT_DATA_2, write, pos)
        == [DcsWrite([0xB2, 0x10]), DcsWrite([0xFF, 0x98, 0x81, 0x00]),
            DcsWrite([0x11, 0x00]), Delay(120), DcsWrite([0x29, 0x00])]
    ensures write(pos) < 0 ==>
      InitSequenceEvents(INIT_DATA_2, write, pos) == [DcsWrite([0xB2, 0x10])]
  {
    if write(pos) >= 0 {
      InitSequenceAllSent(INIT_DATA_2, write, pos);
    } else {
      InitSequenceStopsAtFailure(INIT_DATA_2, write, pos, 0);
    }
  }
}
