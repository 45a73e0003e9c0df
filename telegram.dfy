/** A telegram as the meter driver sees it: the payload that arrived, the
    content the driver decodes, and the explanation trail that records which
    byte ranges of the content were consumed and what they meant.

    `addExplanation` is called with an iterator into the content and a
    length; the model takes it to append the record `(cursor, length, note)`
    and to advance the cursor by the length. */
module Telegrams {

  type byte = b: int | 0 <= b < 256

  /** What a record of the trail says about its bytes. Each constructor
      carries the values the driver formats into the record's text. */
  datatype Note =
    | PayloadCrc(crc: seq<byte>)
    | FrameType(frameType: byte)
    | UnknownBytes(bytes: seq<byte>)
    | TotalEnergy(bytes: seq<byte>, value: int)
    | TotalVolume(bytes: seq<byte>, value: int)
    | CurrentPower(bytes: seq<byte>, value: int)

  /** The content bytes a note says it describes. */
  function NoteBytes(n: Note): seq<byte> {
    match n
    case PayloadCrc(crc) => crc
    case FrameType(ft) => [ft]
    case UnknownBytes(bytes) => bytes
    case TotalEnergy(bytes, _) => bytes
    case TotalVolume(bytes, _) => bytes
    case CurrentPower(bytes, _) => bytes
  }

  /** One record of the trail: `len` bytes from offset `pos`. */
  datatype Explanation = Explanation(pos: nat, len: nat, note: Note)

  /** Record `e` lies inside `content` and the bytes it covers are the
      bytes its note describes. */
  predicate RecordsItsBytes(content: seq<byte>, e: Explanation) {
    e.pos + e.len <= |content| && content[e.pos..e.pos + e.len] == NoteBytes(e.note)
  }

  /** One consumed field, before it is given its offset. */
  datatype Field = Field(len: nat, note: Note)

  /** The sum of the lengths of `fields`. */
  function Width(fields: seq<Field>): nat {
    if fields == [] then 0 else fields[0].len + Width(fields[1..])
  }

  /** The records that consecutive `addExplanation` calls append when they
      start with the cursor at `pos` and consume `fields` in order. */
  function Spans(pos: nat, fields: seq<Field>): (r: seq<Explanation>)
    ensures |r| == |fields|
    decreases fields
  {
    if fields == [] then []
    else [Explanation(pos, fields[0].len, fields[0].note)] + Spans(pos + fields[0].len, fields[1..])
  }

  /** Record `i` has the length and the note of field `i`. */
  lemma {:induction false} SpansAt(pos: nat, fields: seq<Field>, i: nat)
    requires i < |fields|
    ensures Spans(pos, fields)[i].len == fields[i].len && Spans(pos, fields)[i].note == fields[i].note
    ensures i == 0 ==> Spans(pos, fields)[i].pos == pos
    decreases fields
  {
    if i > 0 {
      SpansAt(pos + fields[0].len, fields[1..], i - 1);
    }
  }

  /** Each record starts where the previous one ends. */
  lemma {:induction false} SpansContiguous(pos: nat, fields: seq<Field>, i: nat)
    requires i + 1 < |fields|
    ensures Spans(pos, fields)[i + 1].pos == Spans(pos, fields)[i].pos + Spans(pos, fields)[i].len
    decreases fields
  {
    if i > 0 {
      SpansContiguous(pos + fields[0].len, fields[1..], i - 1);
    }
  }

  /** The last record ends `Width(fields)` bytes after `pos`. */
  lemma {:induction false} SpansEnd(pos: nat, fields: seq<Field>)
    requires fields != []
    ensures var r := Spans(pos, fields); r[|r| - 1].pos + r[|r| - 1].len == pos + Width(fields)
    decreases fields
  {
    if |fields| > 1 {
      SpansEnd(pos + fields[0].len, fields[1..]);
    }
  }

  /** Record `r` covers byte offset `k`. */
  predicate Covers(r: Explanation, k: int) {
    r.pos <= k < r.pos + r.len
  }

  /** The trail laid out from `pos` covers every offset in
      `[pos, pos + Width(fields))` exactly once and nothing outside it. */
  lemma {:induction false} SpansPartition(pos: nat, fields: seq<Field>, k: int)
    ensures pos <= k < pos + Width(fields) ==> exists i :: 0 <= i < |fields| && Covers(Spans(pos, fields)[i], k)
    ensures forall i :: 0 <= i < |fields| && Covers(Spans(pos, fields)[i], k) ==> pos <= k < pos + Width(fields)
    ensures forall i, j :: 0 <= i < j < |fields| && Covers(Spans(pos, fields)[i], k) ==> !Covers(Spans(pos, fields)[j], k)
    decreases fields
  {
    if fields != [] {
      var r := Spans(pos, fields);
      var rest := Spans(pos + fields[0].len, fields[1..]);
      assert r == [r[0]] + rest;
      SpansPartition(pos + fields[0].len, fields[1..], k);
      assert forall i :: 1 <= i < |fields| ==> r[i] == rest[i - 1];
      if pos <= k < pos + Width(fields) && !Covers(r[0], k) {
        var i :| 0 <= i < |fields| - 1 && Covers(rest[i], k);
        assert Covers(r[i + 1], k);
      }
    }
  }

  /** A telegram handed to the meter by the bus. `encrypted` and `simulated`
      are the telegram's `isEncrypted()` and `isSimulated()`. */
  class Telegram {
    const payload: seq<byte>
    const encrypted: bool
    const simulated: bool
    var content: seq<byte>
    var explanations: seq<Explanation>

    constructor (payload: seq<byte>, encrypted: bool, simulated: bool)
      ensures this.payload == payload && this.encrypted == encrypted && this.simulated == simulated
      ensures content == [] && explanations == []
    {
      this.payload := payload;
      this.encrypted := encrypted;
      this.simulated := simulated;
      content := [];
      explanations := [];
    }

    /** `addExplanation`: records `len` bytes at the cursor `pos` and returns
        the advanced cursor. */
    method AddExplanation(pos: nat, len: nat, note: Note) returns (next: nat)
      modifies this`explanations
      ensures explanations == old(explanations) + [Explanation(pos, len, note)]
      ensures next == pos + len
    {
      explanations := explanations + [Explanation(pos, len, note)];
      next := pos + len;
    }
  }
}
