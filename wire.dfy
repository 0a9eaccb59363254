// Shared vocabulary of the ISI decoders: bytes, the events a decoder
// appends to Wireshark's protocol tree, COL_INFO column and expert info,
// and the output object those events are appended to.
module Wire {

  /** One octet of a captured frame (a C guint8). */
  type byte = x: int | 0 <= x < 256

  /** A C guint32. */
  type u32 = x: int | 0 <= x < 0x1_0000_0000

  datatype Option<T> = None | Some(value: T)

  /** The per-type callback a sub-block walk hands each sub-block to. */
  datatype Reader =
    | GpdsSubblock
    | NetworkSubpacket
    | CallSubblock
    | PhoneInfoSubpacket
    | PipeSubblock
    | SelftestSubblock

  /**
   * One call into Wireshark, in the order a decoder makes it.  Offsets are
   * relative to the buffer the decoder was given.
   */
  datatype Event =
      /** proto_tree_add_item: a header field over [offset, offset + width) */
    | Field(name: string, offset: nat, width: nat)
      /** proto_tree_add_string: a string item whose contents were copied out of the buffer */
    | Text(name: string, offset: nat, width: nat, value: seq<byte>)
      /** proto_tree_add_bitmask_text over [offset, offset + width) */
    | Bitmask(offset: nat, width: nat)
      /** proto_tree_add_text "Entry <number>" over [offset, offset + width) */
    | Entry(number: nat, offset: nat, width: nat)
      /** col_set_str / col_add_fstr on COL_INFO */
    | Summary(text: string)
      /** col_clear on COL_INFO */
    | ClearSummary
      /** col_set_str on COL_PROTOCOL */
    | Protocol(text: string)
      /** expert_add_info_format with severity PI_WARN */
    | Warning(text: string)
      /** dissect_isi_subpacket: walk the sub-blocks from offset with a callback */
    | Walk(offset: nat, reader: Reader)
      /** call_dissector on the raw "data" dissector with a buffer of this length */
    | RawData(length: nat)
      /** a byte read at offset lies beyond the buffer: Wireshark throws and the rest is skipped */
    | Truncated(offset: nat)

  /** The protocol tree, columns and expert info of one frame, as an append-only log. */
  class Output {
    var events: seq<Event>

    constructor ()
      ensures events == []
    {
      events := [];
    }

    method Add(e: Event)
      modifies this
      ensures events == old(events) + [e]
    {
      events := events + [e];
    }

    /** Appends a run of items in order, as one switch case of a decoder does. */
    method Append(es: seq<Event>)
      modifies this
      ensures events == old(events) + es
    {
      events := events + es;
    }
  }

  /** Regrouping appends; decoders call it so that the solver need not compare logs element by element. */
  lemma AppendAssoc(a: seq<Event>, b: seq<Event>, c: seq<Event>)
    ensures a + b + c == a + (b + c)
  {
  }

  /** Number of warnings among the events. */
  function Warnings(es: seq<Event>): (n: nat)
    ensures n <= |es|
    ensures n == 0 <==> forall i :: 0 <= i < |es| ==> !es[i].Warning?
  {
    if es == [] then 0
    else (if es[0].Warning? then 1 else 0) + Warnings(es[1..])
  }

  lemma {:induction false} WarningsAppend(a: seq<Event>, b: seq<Event>)
    ensures Warnings(a + b) == Warnings(a) + Warnings(b)
    decreases |a|
  {
    if a == [] {
      assert a + b == b;
    } else {
      assert (a + b)[1..] == a[1..] + b;
      WarningsAppend(a[1..], b);
    }
  }

  /** Events with no warning among them. */
  predicate Quiet(es: seq<Event>)
  {
    forall i :: 0 <= i < |es| ==> !es[i].Warning?
  }

  /** A run is quiet exactly when it counts no warning. */
  lemma {:induction false} QuietWarnings(es: seq<Event>)
    ensures Quiet(es) <==> Warnings(es) == 0
    decreases |es|
  {
    if es != [] {
      QuietWarnings(es[1..]);
      assert Quiet(es) <==> !es[0].Warning? && Quiet(es[1..]) by {
        if !es[0].Warning? && Quiet(es[1..]) {
          forall i | 0 <= i < |es| ensures !es[i].Warning? {
            if i > 0 { assert es[i] == es[1..][i - 1]; }
          }
        }
      }
    }
  }

  lemma QuietAppend(a: seq<Event>, b: seq<Event>)
    requires Quiet(a) && Quiet(b)
    ensures Quiet(a + b)
  {
  }

  /** A single warning between two quiet runs is the only warning. */
  lemma OneWarning(a: seq<Event>, w: string, b: seq<Event>)
    requires Quiet(a) && Quiet(b)
    ensures Warnings(a + [Warning(w)] + b) == 1
  {
    WarningsAppend(a, [Warning(w)]);
    WarningsAppend(a + [Warning(w)], b);
  }

  /** The text COL_INFO holds after the events, starting from before. */
  function Column(es: seq<Event>, before: string): (s: string)
    ensures (forall i :: 0 <= i < |es| ==> !es[i].Summary? && !es[i].ClearSummary?) ==> s == before
    decreases |es|
  {
    if es == [] then before
    else
      var last := es[|es| - 1];
      var prior := Column(es[..|es| - 1], before);
      if last.Summary? then last.text
      else if last.ClearSummary? then ""
      else prior
  }

  lemma {:induction false} ColumnAppend(a: seq<Event>, b: seq<Event>, before: string)
    ensures Column(a + b, before) == Column(b, Column(a, before))
    decreases |b|
  {
    if b == [] {
      assert a + b == a;
    } else {
      assert (a + b)[..|a + b| - 1] == a + b[..|b| - 1];
      ColumnAppend(a, b[..|b| - 1], before);
    }
  }

  /**
   * A length-prefixed string item: the length byte at off, then a string of
   * that many bytes at off + 1.  Shared by the GPDS and PhoneInfo readers.
   */
  function PrefixedString(name: string, off: nat, tvb: seq<byte>): (r: seq<Event>)
    ensures |r| == 1
    ensures off < |tvb| && off + 1 + tvb[off] <= |tvb| ==>
      r[0].Text? && r[0].offset == off + 1 && r[0].width == tvb[off]
      && r[0].value == tvb[off + 1 .. off + 1 + tvb[off]]
    ensures off >= |tvb| ==> r == [Truncated(off)]
    ensures off < |tvb| && off + 1 + tvb[off] > |tvb| ==> r == [Truncated(off + 1)]
  {
    if off >= |tvb| then [Truncated(off)]
    else
      var l := tvb[off];
      if off + 1 + l > |tvb| then [Truncated(off + 1)]
      else [Text(name, off + 1, l, tvb[off + 1 .. off + 1 + l])]
  }

  /** Appends the length-prefixed string item described by PrefixedString. */
  method AddPrefixedString(name: string, off: nat, tvb: seq<byte>, out: Output)
    modifies out
    ensures out.events == old(out.events) + PrefixedString(name, off, tvb)
  {
    if off >= |tvb| {
      out.Add(Truncated(off));
      return;
    }
    var l := tvb[off];
    if off + 1 + l > |tvb| {
      out.Add(Truncated(off + 1));
      return;
    }
    var copy := tvb[off + 1 .. off + 1 + l];
    out.Add(Text(name, off + 1, l, copy));
  }
}
